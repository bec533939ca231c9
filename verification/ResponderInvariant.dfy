/**
 What every step of the responder keeps. The heart is exclusivity: the hub's
 data slot has at most one owner among the registered run, the handlers
 carrying a run, and the hub's own runs, and a run leaves the slot before
 another can be prepared. `Owner` names that owner; each step moves it.
*/
module ResponderInvariant {
  import opened Options
  import opened RemoteRuns
  import opened Responder
  import Slots

  datatype Owner = Nobody | ByTask(tid: TaskId) | ByTable(key: Key)

  /** Tasks that own a slot token, directly or through the run they carry. */
  predicate Holds(t: Task) {
    t.Initiating? || t.Holding? || Carries(t)
  }

  predicate HasRun(t: Task) {
    Carries(t) || t.StartFound? || t.StartClaimed? || t.StartRunning? || t.FinishReleased? || t.FinishPublished?
  }

  // ----- Exclusivity -------------------------------------------------------

  /** The token the owner holds the slot with. */
  ghost function Ticket(tasks: map<TaskId, Task>, runs: map<Key, RunName>, o: Owner): Option<Slots.Token> {
    match o
    case Nobody => None
    case ByTask(t) =>
      if t !in tasks || !Holds(tasks[t]) then None
      else if Carries(tasks[t]) then Some(tasks[t].run)
      else Some(tasks[t].token)
    case ByTable(k) => if k in runs then Some(runs[k]) else None
  }

  /** The run the owner carries, when it is past the point of having one. */
  ghost function Carried(tasks: map<TaskId, Task>, runs: map<Key, RunName>, o: Owner): Option<RunName> {
    if o.ByTask? && o.tid in tasks && !Carries(tasks[o.tid]) then None else Ticket(tasks, runs, o)
  }

  ghost predicate OwnerFits(s: State, o: Owner) {
    && (forall t :: t in s.tasks && Holds(s.tasks[t]) ==> o == ByTask(t))
    && (forall k :: k in s.tables.runs ==> o == ByTable(k))
    && var ticket := Ticket(s.tasks, s.tables.runs, o);
       && (s.slots.data.Some? <==> !o.Nobody?)
       && (s.slots.data.Some? ==> ticket == Some(s.slots.data.value.0))
  }

  /** The calls a workload can have seen: at most a start, then at most one end. */
  predicate CallsFit(run: Run) {
    && (run.cell ==> run.calls == [] || run.calls == [CallStart])
    && (!run.cell ==> || run.calls == [CallFinish] || run.calls == [CallStart, CallFinish]
                      || run.calls == [CallCancel] || run.calls == [CallStart, CallCancel])
    && (CallStart in run.calls ==> run.started.Some?)
    && (run.lost ==> !run.token)
    && (!run.token ==> !run.cell || run.lost)
  }

  /** Tokens are never reused. */
  ghost predicate SlotsFit(slots: Slots.State) {
    && (slots.data.Some? ==> slots.data.value.0 <= slots.next)
    && (forall r :: r in slots.runs ==> r <= slots.next)
  }

  ghost predicate RunFits(slots: Slots.State, run: Run, r: RunName, carried: Option<RunName>) {
    && r <= slots.next
    && CallsFit(run)
    && (run.token <==> carried == Some(r))
    && (!run.token ==> r !in slots.runs)
  }

  predicate FinishedWith(run: Run, o: Outcome) {
    CallFinish in run.calls && !run.cell && !o.AlreadyFinished? && run.result == Some(o)
  }

  /** What a handler knows of the run it has taken. */
  ghost predicate TaskFits(heap: map<RunName, Run>, t: Task) {
    HasRun(t) ==>
      && t.run in heap
      && (Full(t) ==> heap[t.run].cell)
      && (t.AbortEmptied? ==> !heap[t.run].cell)
      && (Done(t) ==> FinishedWith(heap[t.run], t.outcome))
      && (t.FinishReleased? || t.FinishPublished? ==> !heap[t.run].token)
  }

  predicate Full(t: Task) {
    t.Built? || t.Refused? || t.AbortTaken? || t.FinishTaken?
  }

  predicate Done(t: Task) {
    t.FinishEmptied? || t.FinishReleased? || t.FinishPublished?
  }

  ghost predicate TokenFits(slots: Slots.State, heap: map<RunName, Run>, t: Task) {
    && (t.Initiating? || t.Holding? || t.Exempt? ==> t.token !in heap && t.token <= slots.next)
    && (t.Exempt? && slots.data.Some? ==> slots.data.value.0 != t.token)
  }

  ghost predicate Core(s: State, o: Owner) {
    && OwnerFits(s, o)
    && SlotsFit(s.slots)
    && (var carried := Carried(s.tasks, s.tables.runs, o);
        forall r :: r in s.heap ==> RunFits(s.slots, s.heap[r], r, carried))
    && (forall t :: t in s.tasks ==> TaskFits(s.heap, s.tasks[t]))
    && (forall t :: t in s.tasks ==> TokenFits(s.slots, s.heap, s.tasks[t]))
    && (forall k :: k in s.tables.runs ==>
                      && s.tables.runs[k] in s.heap
                      && s.heap[s.tables.runs[k]].key == k && s.heap[s.tables.runs[k]].cell)
  }

  // ----- Every step keeps it -----------------------------------------------

  predicate Plain(t: Task) {
    !Holds(t) && !t.Exempt?
  }

  ghost predicate SameOwnership(s: State, s': State) {
    s'.slots == s.slots && s'.heap == s.heap && s'.tables.runs == s.tables.runs
  }

  /** A task that owns nothing ends. */
  lemma PlainEndKeepsCore(s: State, o: Owner, tid: TaskId, s': State)
    requires Core(s, o) && SameOwnership(s, s') && s'.tasks == s.tasks - {tid}
    requires tid in s.tasks ==> !Holds(s.tasks[tid])
    ensures Core(s', o)
  {
  }

  /** A task that owns nothing appears or moves on. */
  lemma PlainGoKeepsCore(s: State, o: Owner, tid: TaskId, t: Task, s': State)
    requires Core(s, o) && SameOwnership(s, s') && s'.tasks == s.tasks[tid := t]
    requires tid in s.tasks ==> !Holds(s.tasks[tid])
    requires Plain(t) && TaskFits(s.heap, t)
    ensures Core(s', o)
  {
  }

  /** A start leaves the run's owner and its consumption alone. */
  ghost predicate Touched(run: Run, run': Run) {
    && run'.key == run.key && run'.token == run.token && run'.cell == run.cell && CallsFit(run')
    && (CallFinish in run.calls ==> CallFinish in run'.calls && run'.result == run.result)
  }

  lemma TouchedTaskFits(heap: map<RunName, Run>, r: RunName, run': Run, t: Task)
    requires r in heap && TaskFits(heap, t) && Touched(heap[r], run')
    ensures TaskFits(heap[r := run'], t)
  {
  }

  lemma TouchKeepsCore(s: State, o: Owner, r: RunName, run': Run)
    requires Core(s, o) && r in s.heap && Touched(s.heap[r], run')
    ensures Core(Put(s, r, run'), o)
  {
    forall t | t in s.tasks ensures TaskFits(s.heap[r := run'], s.tasks[t]) {
      TouchedTaskFits(s.heap, r, run', s.tasks[t]);
    }
  }

  /** Registration adds the next token, and with it the slot when asked for. */
  ghost predicate Registered(slots: Slots.State, slots': Slots.State) {
    && slots'.next == slots.next + 1
    && (forall r :: r in slots'.runs <==> r in slots.runs || r == slots'.next)
  }

  lemma RegisterRegisters(slots: Slots.State, data: Option<Slots.Holder>)
    ensures Registered(slots, Slots.Register(slots, data))
  {
  }

  lemma AcquireKeepsCore(s: State, o: Owner, tid: TaskId, t: Task, slots': Slots.State)
    requires Core(s, o) && s.slots.data.None? && Registered(s.slots, slots')
    requires slots'.data.Some? && slots'.data.value.0 == slots'.next
    requires tid in s.tasks ==> Plain(s.tasks[tid])
    requires (t.Initiating? || t.Holding?) && t.token == slots'.next
    ensures Core(Go(s.(slots := slots'), tid, t), ByTask(tid))
  {
  }

  lemma ExemptAcquireKeepsCore(s: State, o: Owner, tid: TaskId, slots': Slots.State)
    requires Core(s, o) && tid !in s.tasks && Registered(s.slots, slots') && slots'.data == s.slots.data
    ensures Core(Go(s.(slots := slots'), tid, Exempt(slots'.next)), o)
  {
  }

  /** A token that is not inside a run is dropped. */
  lemma TokenDropKeepsCore(s: State, o: Owner, tid: TaskId)
    requires Core(s, o) && tid in s.tasks
    requires s.tasks[tid].Initiating? || s.tasks[tid].Exempt? || s.tasks[tid].Holding?
    ensures Core(End(Free(s, s.tasks[tid].token), tid), if o == ByTask(tid) then Nobody else o)
  {
  }

  lemma BuildKeepsCore(s: State, o: Owner, tid: TaskId)
    requires Core(s, o) && CanBuild(s, tid)
    ensures Core(RunBuilt(s, tid), o)
  {
  }

  /** Holding the slot means the table is empty, so the insert replaces nothing. */
  lemma CommitKeepsCore(s: State, o: Owner, tid: TaskId)
    requires Core(s, o) && CanCommitRun(s, tid) && Admits(s, tid)
    ensures s.tables.runs == map[]
    ensures Core(Committed(s, tid), ByTable(s.heap[s.tasks[tid].run].key))
  {
  }

  lemma RefuseKeepsCore(s: State, o: Owner, tid: TaskId)
    requires Core(s, o) && CanCommitRun(s, tid) && !Admits(s, tid)
    ensures Core(Committed(s, tid), o)
  {
  }

  lemma UndoKeepsCore(s: State, o: Owner, tid: TaskId)
    requires Core(s, o) && CanUndo(s, tid)
    ensures Core(Undone(s, tid), o)
  {
  }

  lemma DropKeepsCore(s: State, o: Owner, tid: TaskId)
    requires Core(s, o) && CanDrop(s, tid)
    ensures Core(RunDropped(s, tid), Nobody)
  {
  }

  lemma ClaimStartKeepsCore(s: State, o: Owner, tid: TaskId)
    requires Core(s, o) && CanClaimStart(s, tid)
    ensures Core(StartClaimedBy(s, tid), o)
  {
    var r := s.tasks[tid].run;
    if s.heap[r].started.Some? {
      PlainEndKeepsCore(s, o, tid, StartClaimedBy(s, tid));
    } else {
      var run' := s.heap[r].(started := Some(tid));
      TouchKeepsCore(s, o, r, run');
      PlainGoKeepsCore(Put(s, r, run'), o, tid, StartClaimed(r), StartClaimedBy(s, tid));
    }
  }

  lemma ReturnKeepsCore(s: State, o: Owner, tid: TaskId)
    requires Core(s, o) && CanReturn(s, tid)
    ensures Core(StartReturned(s, tid), o)
  {
    var r := s.tasks[tid].run;
    var run' := s.heap[r].(lock := None);
    TouchKeepsCore(s, o, r, run');
    PlainEndKeepsCore(Put(s, r, run'), o, tid, StartReturned(s, tid));
  }

  /** Needs that the claimant has not started the workload yet. */
  lemma StartKeepsCore(s: State, o: Owner, tid: TaskId)
    requires Core(s, o) && CanStartRun(s, tid)
    requires s.heap[s.tasks[tid].run].started.Some? && CallStart !in s.heap[s.tasks[tid].run].calls
    ensures Core(Started(s, tid), o)
  {
    var r := s.tasks[tid].run;
    var run := s.heap[r];
    if run.cell {
      var run' := run.(calls := run.calls + [CallStart], lock := Some(tid));
      assert RunFits(s.slots, run, r, Carried(s.tasks, s.tables.runs, o));
      assert run'.calls == [CallStart] && Touched(run, run');
      TouchKeepsCore(s, o, r, run');
      PlainGoKeepsCore(Put(s, r, run'), o, tid, StartRunning(r), Started(s, tid));
    } else {
      PlainEndKeepsCore(s, o, tid, Started(s, tid));
    }
  }

  lemma AbortTakeKeepsCore(s: State, o: Owner, tid: TaskId, key: Key)
    requires Core(s, o) && tid !in s.tasks && key in s.tables.runs
    ensures Core(AbortBegun(s, tid, key), ByTask(tid))
  {
  }

  lemma AbortKeepsCore(s: State, o: Owner, tid: TaskId)
    requires Core(s, o) && CanAbortRun(s, tid)
    ensures Core(Aborted(s, tid), o)
  {
  }

  lemma ReleaseKeepsCore(s: State, o: Owner, tid: TaskId)
    requires Core(s, o) && CanRelease(s, tid)
    ensures Core(Released(s, tid), Nobody)
  {
  }

  lemma FirstFinishKeepsCore(s: State, o: Owner, tid: TaskId, key: Key, id: string)
    requires Core(s, o) && tid !in s.tasks && key in s.tables.runs
    ensures Core(FinishArrived(s, tid, key, id), ByTask(tid))
  {
  }

  lemma FinishKeepsCore(s: State, o: Owner, tid: TaskId, result: Outcome)
    requires Core(s, o) && CanFinishRun(s, tid) && !result.AlreadyFinished?
    ensures Core(Finished(s, tid, result), o)
  {
    var r := s.tasks[tid].run;
    assert o == ByTask(tid) && TaskFits(s.heap, s.tasks[tid]);
    assert RunFits(s.slots, s.heap[r], r, Some(r));
    ConsumedFits(s.heap[r], CallFinish);
    FinishedRunsFit(s, o, tid, result);
    FinishedTasksFit(s, o, tid, result);
  }

  lemma FinishedRunsFit(s: State, o: Owner, tid: TaskId, result: Outcome)
    requires Core(s, o) && CanFinishRun(s, tid) && CallsFit(ConsumeByFinish(s.heap[s.tasks[tid].run], result))
    ensures var s' := Finished(s, tid, result);
            forall q :: q in s'.heap ==> RunFits(s'.slots, s'.heap[q], q, Carried(s'.tasks, s'.tables.runs, o))
  {
    var s' := Finished(s, tid, result);
    assert o == ByTask(tid);
    forall q | q in s'.heap ensures RunFits(s'.slots, s'.heap[q], q, Carried(s'.tasks, s'.tables.runs, o)) {
      assert RunFits(s.slots, s.heap[q], q, Carried(s.tasks, s.tables.runs, o));
    }
  }

  lemma FinishedTasksFit(s: State, o: Owner, tid: TaskId, result: Outcome)
    requires Core(s, o) && CanFinishRun(s, tid) && !result.AlreadyFinished?
    ensures var s' := Finished(s, tid, result);
            forall t :: t in s'.tasks ==> TaskFits(s'.heap, s'.tasks[t])
  {
    var s' := Finished(s, tid, result);
    assert o == ByTask(tid);
    forall t | t in s'.tasks ensures TaskFits(s'.heap, s'.tasks[t]) {
      assert TaskFits(s.heap, s.tasks[t]);
    }
  }

  lemma ConsumedFits(run: Run, call: Call)
    requires CallsFit(run) && run.cell && run.token && (call.CallFinish? || call.CallCancel?)
    ensures CallsFit(Consume(run, call)) && call in Consume(run, call).calls && !Consume(run, call).cell
  {
    assert run.calls == [] ==> run.calls + [call] == [call];
    assert run.calls == [CallStart] ==> run.calls + [call] == [CallStart, call];
  }

  lemma FreeSlotKeepsCore(s: State, o: Owner, tid: TaskId)
    requires Core(s, o) && CanFreeSlot(s, tid)
    ensures Core(SlotFreed(s, tid), Nobody)
  {
  }

  /** A handler that carried a run leaves it to be dropped. */
  lemma LetGoKeepsCore(s: State, o: Owner, tid: TaskId, s': State)
    requires Core(s, o) && tid in s.tasks && Carries(s.tasks[tid])
    requires s'.slots == s.slots && s'.heap == s.heap && s'.tables == s.tables
    requires s'.tasks == s.tasks[tid := Dropping(s.tasks[tid].run)]
    ensures Core(s', o)
  {
  }
}
