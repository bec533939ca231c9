/**
 What the responder promises over whole runs of the protocol, from the empty
 hub or from any state it can reach.
*/
module ResponderTheorems {
  import opened Options
  import opened RemoteRuns
  import opened Responder
  import opened ResponderInvariant
  import opened ResponderSafety

  ghost predicate Reachable(s: State) {
    exists steps :: Responder.Runs(INIT, steps) && After(INIT, steps) == s
  }

  lemma ReachableHasInv(s: State)
    requires Reachable(s)
    ensures Inv(s)
  {
    var steps :| Responder.Runs(INIT, steps) && After(INIT, steps) == s;
    InitHasInv();
    RunKeepsInv(INIT, steps);
  }

  // ----- Exclusivity -------------------------------------------------------

  /** At most one remote run is registered, and it holds the hub's data slot. */
  lemma AtMostOneRun(s: State)
    requires Reachable(s)
    ensures |s.tables.runs| <= 1
    ensures forall k :: k in s.tables.runs ==>
                          && s.tables.runs[k] in s.heap && s.heap[s.tables.runs[k]].key == k
                          && s.slots.data.Some? && s.slots.data.value.0 == s.tables.runs[k]
  {
    ReachableHasInv(s);
    var o :| All(s, o);
    if k :| k in s.tables.runs {
      assert s.tables.runs.Keys == {k};
      assert |s.tables.runs| == |s.tables.runs.Keys|;
    }
  }

  /**
   Prepare's commit does not look the key up again, yet it never replaces a
   registered run: it holds the slot, so the table is empty.
  */
  lemma CommitReplacesNothing(s: State, tid: TaskId)
    requires Reachable(s) && tid in s.tasks && s.tasks[tid].Built?
    ensures CanCommitRun(s, tid)
    ensures s.tables.runs == map[]
    ensures Admits(s, tid) ==>
              var r := s.tasks[tid].run;
              Committed(s, tid).tables.runs == map[s.heap[r].key := r]
  {
    ReachableHasInv(s);
    var o :| All(s, o);
    assert TaskFits(s.heap, s.tasks[tid]);
    if Admits(s, tid) {
      CommitKeepsCore(s, o, tid);
    } else {
      assert s.tables.runs.Keys == {};
    }
  }

  // ----- Consumption -------------------------------------------------------

  ghost predicate Consumed(run: Run) {
    CallFinish in run.calls || CallCancel in run.calls
  }

  /**
   The calls of every prepared workload, in order: at most one start, before
   anything else, then at most one of finish and cancel. A workload that has
   seen neither, and was not dropped by a handler that vanished, still holds
   the slot.
  */
  lemma WorkloadCalls(s: State, r: RunName)
    requires Reachable(s) && r in s.heap
    ensures s.heap[r].calls in {[], [CallStart], [CallFinish], [CallCancel],
                                [CallStart, CallFinish], [CallStart, CallCancel]}
    ensures s.heap[r].cell <==> !Consumed(s.heap[r])
    ensures !Consumed(s.heap[r]) && !s.heap[r].lost ==>
              s.slots.data.Some? && s.slots.data.value.0 == r
  {
    ReachableHasInv(s);
    var o :| All(s, o);
    assert RunFits(s.slots, s.heap[r], r, Carried(s.tasks, s.tables.runs, o));
  }

  /**
   The handler that took a run by finish always finds the workload in its
   cell, so "already finished" is never an outcome anyone is told.
  */
  lemma FinishFindsTheWorkload(s: State, tid: TaskId, i: nat)
    requires Reachable(s)
    ensures tid in s.tasks && s.tasks[tid].FinishTaken? ==>
              s.tasks[tid].run in s.heap && s.heap[s.tasks[tid].run].cell
    ensures i < |s.replies| && s.replies[i].Reply? ==> !s.replies[i].outcome.AlreadyFinished?
  {
    ReachableHasInv(s);
    var o :| All(s, o);
    if tid in s.tasks {
      assert TaskFits(s.heap, s.tasks[tid]);
    }
    if i < |s.replies| && s.replies[i].Reply? {
      assert ReplyFits(s.channels, s.replies[i]);
      assert ChannelFits(s.heap, s.replies[i].run, s.channels[s.replies[i].run]);
    }
  }

  /** Once every handler is done and no run is registered, all workloads were consumed or lost. */
  lemma DrainedMeansConsumed(s: State, r: RunName)
    requires Reachable(s) && s.tasks == map[] && s.tables.runs == map[] && r in s.heap
    ensures Consumed(s.heap[r]) || s.heap[r].lost
  {
    ReachableHasInv(s);
    var o :| All(s, o);
    assert RunFits(s.slots, s.heap[r], r, Carried(s.tasks, s.tables.runs, o));
  }

  // ----- What one step can do to the books ---------------------------------

  /** The step is a prepare's commit that registers a run under `k`. */
  ghost predicate Registers(s: State, step: Step, k: Key) {
    && step.Commit? && step.commit.PrepareCommit?
    && CanCommitRun(s, step.commit.tid) && Admits(s, step.commit.tid)
    && s.heap[s.tasks[step.commit.tid].run].key == k
  }

  ghost predicate FinishHas(s: State, r: RunName) {
    exists t :: t in s.tasks && s.tasks[t].FinishTaken? && s.tasks[t].run == r
  }

  ghost predicate SameRun(run: Run, run': Run) {
    run'.key == run.key && run'.session == run.session
  }

  ghost predicate Shape(s: State, s': State) {
    && s.stopping <= s'.stopping
    && (forall r :: r in s.heap ==> r in s'.heap && SameRun(s.heap[r], s'.heap[r]))
    && (forall r :: r in s'.heap && CallFinish in s'.heap[r].calls ==>
                      r in s.heap && (CallFinish in s.heap[r].calls || FinishHas(s, r)))
    && (forall t :: t in s'.tasks && s'.tasks[t].FinishTaken? ==>
                      || (t in s.tasks && s.tasks[t] == s'.tasks[t])
                      || (s'.tasks[t].key in s.tables.runs && s.tables.runs[s'.tasks[t].key] == s'.tasks[t].run))
  }

  lemma HubShape(s: State, m: HubMove)
    requires CanHub(s, m)
    ensures Shape(s, HubMoved(s, m)) && SubRuns(s, HubMoved(s, m))
  {
  }

  lemma BuildShape(s: State, o: Owner, tid: TaskId)
    requires Core(s, o) && CanBuild(s, tid)
    ensures Shape(s, RunBuilt(s, tid)) && SubRuns(s, RunBuilt(s, tid))
  {
    assert TokenFits(s.slots, s.heap, s.tasks[tid]);
  }

  lemma PrepareShape(s: State, o: Owner, m: PrepareMove)
    requires Core(s, o) && CanPrepare(s, m)
    ensures Shape(s, PrepareMoved(s, m)) && SubRuns(s, PrepareMoved(s, m))
  {
    if m.PrepareBuild? {
      BuildShape(s, o, m.tid);
    } else {
      EarlyShape(s, m);
    }
  }

  lemma EarlyShape(s: State, m: PrepareMove)
    requires CanPrepare(s, m) && !m.PrepareBuild?
    ensures Shape(s, PrepareMoved(s, m)) && SubRuns(s, PrepareMoved(s, m))
  {
    SameHeapShape(s, PrepareMoved(s, m), m.tid);
  }

  lemma SameHeapShape(s: State, s': State, tid: TaskId)
    requires s'.heap == s.heap && s'.tables.runs == s.tables.runs && s'.stopping == s.stopping
    requires OnlyTask(s, s', tid) && (tid in s'.tasks ==> !s'.tasks[tid].FinishTaken?)
    ensures Shape(s, s') && SubRuns(s, s')
  {
  }

  lemma CommitShape(s: State, o: Owner, m: CommitMove)
    requires Core(s, o) && CanCommit(s, m)
    ensures Shape(s, CommitMoved(s, m))
    ensures || SubRuns(s, CommitMoved(s, m))
            || exists k :: Registers(s, Commit(m), k)
  {
    if m.PrepareCommit? && Admits(s, m.tid) {
      assert Registers(s, Commit(m), s.heap[s.tasks[m.tid].run].key);
    }
  }

  lemma StartShape(s: State, m: StartMove)
    requires CanStart(s, m)
    ensures Shape(s, StartMoved(s, m)) && SubRuns(s, StartMoved(s, m))
  {
  }

  lemma AbortShape(s: State, m: AbortMove)
    requires CanAbort(s, m)
    ensures Shape(s, AbortMoved(s, m)) && SubRuns(s, AbortMoved(s, m))
  {
  }

  lemma FinishShape(s: State, m: FinishMove)
    requires CanFinish(s, m)
    ensures Shape(s, FinishMoved(s, m)) && SubRuns(s, FinishMoved(s, m))
  {
  }

  lemma AckShape(s: State, m: AckMove)
    requires CanAck(s, m)
    ensures Shape(s, AckMoved(s, m)) && SubRuns(s, AckMoved(s, m))
  {
  }

  lemma StopShape(s: State, m: StopMove)
    requires CanStop(s, m)
    ensures Shape(s, StopMoved(s, m)) && SubRuns(s, StopMoved(s, m))
  {
  }

  ghost predicate OnlyLocks(s: State, s': State, tid: TaskId) {
    && s'.tables == s.tables && s'.stopping == s.stopping
    && (forall r :: r in s.heap ==> r in s'.heap && s'.heap[r] == s.heap[r].(lock := s'.heap[r].lock))
    && (forall r :: r in s'.heap ==> r in s.heap)
    && (forall t :: t in s'.tasks && t != tid ==> t in s.tasks && s'.tasks[t] == s.tasks[t])
    && (tid in s'.tasks ==> s'.tasks[tid].Dropping?)
  }

  /** A vanishing handler touches at most a lock, a token or a channel. */
  lemma VanishIsSmall(s: State, tid: TaskId)
    requires tid in s.tasks
    ensures OnlyLocks(s, Vanished(s, tid), tid)
  {
    var t, s' := s.tasks[tid], Vanished(s, tid);
    assert s'.tables == s.tables && s'.stopping == s.stopping;
    if t.StartRunning? && t.run in s.heap {
      assert s'.heap == s.heap[t.run := s.heap[t.run].(lock := None)];
    } else {
      assert s'.heap == s.heap;
    }
    assert s'.tasks == s.tasks - {tid} || s'.tasks == s.tasks[tid := Dropping(t.run)];
  }

  lemma VanishShape(s: State, tid: TaskId)
    requires tid in s.tasks
    ensures Shape(s, Vanished(s, tid)) && SubRuns(s, Vanished(s, tid))
  {
    VanishIsSmall(s, tid);
    LocksShape(s, Vanished(s, tid), tid);
  }

  lemma LocksShape(s: State, s': State, tid: TaskId)
    requires OnlyLocks(s, s', tid)
    ensures Shape(s, s') && SubRuns(s, s')
  {
  }

  lemma StepShape(s: State, step: Step)
    requires Inv(s) && Enabled(s, step)
    ensures Shape(s, Apply(s, step))
    ensures || SubRuns(s, Apply(s, step))
            || exists k :: Registers(s, step, k)
  {
    var o :| All(s, o);
    match step
    case Hub(m) => HubShape(s, m);
    case Prepare(m) => PrepareShape(s, o, m);
    case Commit(m) =>
      CommitShape(s, o, m);
    case Start(m) => StartShape(s, m);
    case Abort(m) => AbortShape(s, m);
    case Finish(m) => FinishShape(s, m);
    case Ack(m) => AckShape(s, m);
    case Stop(m) => StopShape(s, m);
    case Vanish(tid) => VanishShape(s, tid);
  }

  /** A registering step leaves exactly the run it registers, of a session that is not stopping. */
  lemma RegisteringStep(s: State, step: Step, k: Key)
    requires Inv(s) && Enabled(s, step) && Registers(s, step, k)
    ensures var r := s.tasks[step.commit.tid].run;
            && Apply(s, step).tables.runs == map[k := r]
            && r in s.heap && s.heap[r].key == k && s.heap[r].session !in s.stopping
  {
    var o :| All(s, o);
    CommitKeepsCore(s, o, step.commit.tid);
  }

  // ----- The stop barrier --------------------------------------------------

  ghost predicate Registered(s: State, k: Key, r: RunName, session: Session) {
    k in s.tables.runs && s.tables.runs[k] == r && r in s.heap && s.heap[r].session == session
  }

  /**
   Once a session's stopping flag is set, whatever happens next, every run of
   that session that is registered was already registered then: nothing the
   session still had in flight gets into the table.
  */
  lemma {:induction false} StopBarrier(s: State, steps: seq<Step>, session: Session, k: Key, r: RunName)
    requires Inv(s) && Responder.Runs(s, steps) && session in s.stopping
    requires Registered(After(s, steps), k, r, session)
    ensures Registered(s, k, r, session)
    decreases |steps|
  {
    if steps != [] {
      var s1 := Apply(s, steps[0]);
      StepShape(s, steps[0]);
      StepKeepsInv(s, steps[0]);
      StopBarrier(s1, steps[1..], session, k, r);
      if SubRuns(s, s1) {
        var o :| All(s, o);
      } else {
        var key :| Registers(s, steps[0], key);
        RegisteringStep(s, steps[0], key);
      }
    }
  }

  /** When a stop has gone through the runs it listed, none of its session is registered. */
  lemma StoppedSessionIsClear(s: State, k: Key, r: RunName, session: Session)
    requires Reachable(s) && session in s.stopped
    ensures !Registered(s, k, r, session)
  {
    ReachableHasInv(s);
    var o :| All(s, o);
  }

  // ----- One finish per prepared run ---------------------------------------

  ghost predicate NoneRegistered(s: State, steps: seq<Step>, k: Key)
    requires Responder.Runs(s, steps)
    decreases |steps|
  {
    steps == [] || (!Registers(s, steps[0], k) && NoneRegistered(Apply(s, steps[0]), steps[1..], k))
  }

  /** A finish may still reach the run's workload. */
  ghost predicate Finishable(s: State, r: RunName) {
    FinishHas(s, r) || exists k :: k in s.tables.runs && s.tables.runs[k] == r
  }

  ghost predicate FinishedFor(s: State, k: Key, r: RunName) {
    r in s.heap && s.heap[r].key == k && CallFinish in s.heap[r].calls
  }

  lemma {:induction false} OnlyFinishableFinish(s: State, steps: seq<Step>, k: Key, r: RunName)
    requires Inv(s) && Responder.Runs(s, steps) && NoneRegistered(s, steps, k)
    requires FinishedFor(After(s, steps), k, r)
    ensures FinishedFor(s, k, r) || (r in s.heap && s.heap[r].key == k && Finishable(s, r))
    decreases |steps|
  {
    if steps != [] {
      var s1 := Apply(s, steps[0]);
      StepShape(s, steps[0]);
      StepKeepsInv(s, steps[0]);
      OnlyFinishableFinish(s1, steps[1..], k, r);
      StepBack(s, steps[0], k, r);
    }
  }

  lemma StepBack(s: State, step: Step, k: Key, r: RunName)
    requires Inv(s) && Enabled(s, step) && !Registers(s, step, k)
    requires var s1 := Apply(s, step);
             FinishedFor(s1, k, r) || (r in s1.heap && s1.heap[r].key == k && Finishable(s1, r))
    ensures FinishedFor(s, k, r) || (r in s.heap && s.heap[r].key == k && Finishable(s, r))
  {
    var s1 := Apply(s, step);
    StepShape(s, step);
    var o :| All(s, o);
    if !FinishedFor(s1, k, r) {
      if t :| t in s1.tasks && s1.tasks[t].FinishTaken? && s1.tasks[t].run == r {
        FinishedTaskHasRun(s, o, s1, t);
      } else {
        var l :| l in s1.tables.runs && s1.tables.runs[l] == r;
      }
    }
  }

  lemma FinishedTaskHasRun(s: State, o: Owner, s1: State, t: TaskId)
    requires Core(s, o) && Shape(s, s1) && t in s1.tasks && s1.tasks[t].FinishTaken?
    ensures Finishable(s, s1.tasks[t].run) && s1.tasks[t].run in s.heap
  {
    var task := s1.tasks[t];
    if t in s.tasks && s.tasks[t] == task {
      assert TaskFits(s.heap, task);
      assert FinishHas(s, task.run);
    }
  }

  /** Both a registered run and one a finish took hold the slot, so there is one at most. */
  lemma OneFinishable(s: State, r: RunName, q: RunName)
    requires Inv(s) && Finishable(s, r) && Finishable(s, q)
    ensures r == q
  {
    var o :| All(s, o);
  }

  ghost function FinishedRuns(s: State, k: Key): set<RunName> {
    set r | r in s.heap && s.heap[r].key == k && CallFinish in s.heap[r].calls
  }

  /**
   However many finish requests arrive for a key, between two registrations of
   a run under it at most one workload is finished.
  */
  lemma {:induction false} FinishRunsOnce(s: State, steps: seq<Step>, k: Key)
    requires Reachable(s) && Responder.Runs(s, steps) && NoneRegistered(s, steps, k)
    ensures |FinishedRuns(After(s, steps), k)| <= |FinishedRuns(s, k)| + 1
  {
    ReachableHasInv(s);
    var before, after := FinishedRuns(s, k), FinishedRuns(After(s, steps), k);
    forall r, q | r in after - before && q in after - before ensures r == q {
      OnlyFinishableFinish(s, steps, k, r);
      OnlyFinishableFinish(s, steps, k, q);
      OneFinishable(s, r, q);
    }
    OneMore(before, after);
  }

  lemma OneMore(before: set<RunName>, after: set<RunName>)
    requires forall r, q :: r in after - before && q in after - before ==> r == q
    ensures |after| <= |before| + 1
  {
    var extra := after - before;
    if q :| q in extra {
      assert extra == {q};
    }
    Cover(after, before + extra);
  }

  lemma Cover(a: set<RunName>, b: set<RunName>)
    requires a <= b
    ensures |a| <= |b|
    decreases a
  {
    if r :| r in a {
      Cover(a - {r}, b - {r});
    }
  }

  /**
   Every answer to a finish of one run, first or duplicate, carries the same
   outcome; and by then that run has left the slot for good.
  */
  lemma AnswersAgree(s: State, i: nat, j: nat)
    requires Reachable(s) && i < |s.replies| && j < |s.replies|
    requires s.replies[i].Reply? && s.replies[j].Reply? && s.replies[i].run == s.replies[j].run
    ensures s.replies[i].outcome == s.replies[j].outcome
    ensures var r := s.replies[i].run;
            && r in s.heap && CallFinish in s.heap[r].calls && !s.heap[r].token
            && r !in s.slots.runs && !(s.slots.data.Some? && s.slots.data.value.0 == r)
  {
    ReachableHasInv(s);
    var o :| All(s, o);
    assert ReplyFits(s.channels, s.replies[i]) && ReplyFits(s.channels, s.replies[j]);
    var r := s.replies[i].run;
    assert ChannelFits(s.heap, r, s.channels[r]);
    assert RunFits(s.slots, s.heap[r], r, Carried(s.tasks, s.tables.runs, o));
    SlotIsCarried(s, o, r);
  }

  lemma SlotIsCarried(s: State, o: Owner, r: RunName)
    requires Core(s, o) && r in s.heap && !s.heap[r].token
    ensures !(s.slots.data.Some? && s.slots.data.value.0 == r)
  {
    assert RunFits(s.slots, s.heap[r], r, Carried(s.tasks, s.tables.runs, o));
    if o.ByTask? && o.tid in s.tasks {
      assert TokenFits(s.slots, s.heap, s.tasks[o.tid]);
    }
  }
}
