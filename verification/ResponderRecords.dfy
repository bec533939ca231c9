/**
 Tombstones, finish records and dropped workloads over runs of the responder:
 what pruning may forget, and the one interleaving in which it forgets a finish
 that is still running.
*/
module ResponderRecords {
  import opened Options
  import opened RemoteRuns
  import opened Responder
  import opened ResponderInvariant
  import opened ResponderSafety
  import opened ResponderTheorems
  import Slots

  // ----- What one step can do to the ledgers -------------------------------

  /** Time moves forward, and a tombstone still alive stays or is renewed. */
  ghost predicate TombstonesKept(s: State, s': State) {
    && s.now <= s'.now
    && forall k :: k in s.tables.tombstones && s.tables.tombstones[k] > s.now ==>
                     && k in s'.tables.tombstones
                     && (|| s'.tables.tombstones[k] == s.tables.tombstones[k]
                         || s'.tables.tombstones[k] == s.now + TOMBSTONE_TTL)
  }

  ghost predicate RecordsOnlyGo(s: State, s': State) {
    && s'.channels == s.channels
    && forall k :: k in s'.tables.finished ==>
                     k in s.tables.finished && s'.tables.finished[k] == s.tables.finished[k]
  }

  lemma HubLedger(s: State, m: HubMove)
    requires CanHub(s, m)
    ensures TombstonesKept(s, HubMoved(s, m)) && RecordsOnlyGo(s, HubMoved(s, m))
  {
  }

  lemma PrepareLedger(s: State, m: PrepareMove)
    requires CanPrepare(s, m)
    ensures TombstonesKept(s, PrepareMoved(s, m)) && RecordsOnlyGo(s, PrepareMoved(s, m))
  {
  }

  lemma CommitLedger(s: State, m: CommitMove)
    requires CanCommit(s, m)
    ensures TombstonesKept(s, CommitMoved(s, m)) && RecordsOnlyGo(s, CommitMoved(s, m))
  {
  }

  lemma StartLedger(s: State, m: StartMove)
    requires CanStart(s, m)
    ensures TombstonesKept(s, StartMoved(s, m)) && RecordsOnlyGo(s, StartMoved(s, m))
  {
  }

  lemma AbortLedger(s: State, m: AbortMove)
    requires CanAbort(s, m)
    ensures TombstonesKept(s, AbortMoved(s, m)) && RecordsOnlyGo(s, AbortMoved(s, m))
  {
  }

  lemma FinishLedger(s: State, m: FinishMove)
    requires CanFinish(s, m)
    ensures TombstonesKept(s, FinishMoved(s, m))
  {
  }

  lemma AckLedger(s: State, m: AckMove)
    requires CanAck(s, m)
    ensures TombstonesKept(s, AckMoved(s, m))
  {
  }

  lemma StopLedger(s: State, m: StopMove)
    requires CanStop(s, m)
    ensures TombstonesKept(s, StopMoved(s, m)) && RecordsOnlyGo(s, StopMoved(s, m))
  {
  }

  lemma VanishLedger(s: State, tid: TaskId)
    requires tid in s.tasks
    ensures TombstonesKept(s, Vanished(s, tid))
  {
  }

  lemma StepLedger(s: State, step: Step)
    requires Enabled(s, step)
    ensures TombstonesKept(s, Apply(s, step))
    ensures !step.Finish? && !step.Ack? && !step.Vanish? ==> RecordsOnlyGo(s, Apply(s, step))
  {
    match step
    case Hub(m) => HubLedger(s, m);
    case Prepare(m) => PrepareLedger(s, m);
    case Commit(m) => CommitLedger(s, m);
    case Start(m) => StartLedger(s, m);
    case Abort(m) => AbortLedger(s, m);
    case Finish(m) => FinishLedger(s, m);
    case Ack(m) => AckLedger(s, m);
    case Stop(m) => StopLedger(s, m);
    case Vanish(tid) => VanishLedger(s, tid);
  }

  // ----- Tombstones --------------------------------------------------------

  ghost predicate Barred(s: State, k: Key, until: Time) {
    && k in s.tables.tombstones && s.tables.tombstones[k] >= until
    && s.now < until <= s.now + TOMBSTONE_TTL
  }

  lemma BarStays(s: State, step: Step, k: Key, until: Time)
    requires Barred(s, k, until) && Enabled(s, step) && Apply(s, step).now < until
    ensures Barred(Apply(s, step), k, until) && !Registers(s, step, k)
  {
    StepLedger(s, step);
  }

  lemma {:induction false} TimeMovesOn(s: State, steps: seq<Step>)
    requires Responder.Runs(s, steps)
    ensures s.now <= After(s, steps).now
    decreases |steps|
  {
    if steps != [] {
      StepLedger(s, steps[0]);
      TimeMovesOn(Apply(s, steps[0]), steps[1..]);
    }
  }

  /** While a tombstone is alive, no run is registered under its key. */
  lemma {:induction false} BarHolds(s: State, steps: seq<Step>, k: Key, until: Time)
    requires Barred(s, k, until) && Responder.Runs(s, steps) && After(s, steps).now < until
    ensures NoneRegistered(s, steps, k)
    decreases |steps|
  {
    if steps != [] {
      TimeMovesOn(Apply(s, steps[0]), steps[1..]);
      BarStays(s, steps[0], k, until);
      BarHolds(Apply(s, steps[0]), steps[1..], k, until);
    }
  }

  /** A cancel that found no run keeps the key from being prepared for the tombstone's whole life. */
  lemma {:induction false} CancelBarsPrepare(s: State, tid: TaskId, steps: seq<Step>)
    requires CanBury(s, tid) && Responder.Runs(Buried(s, tid), steps)
    requires After(Buried(s, tid), steps).now < s.now + TOMBSTONE_TTL
    ensures NoneRegistered(Buried(s, tid), steps, s.tasks[tid].key)
  {
    TimeMovesOn(Buried(s, tid), steps);
    BarHolds(Buried(s, tid), steps, s.tasks[tid].key, s.now + TOMBSTONE_TTL);
  }

  // ----- Finish records ----------------------------------------------------

  /** The record's first finish still runs: its handler holds the channel's sender. */
  ghost predicate Running(s: State, k: Key) {
    && k in s.tables.finished
    && s.tables.finished[k].run in s.channels
    && s.channels[s.tables.finished[k].run].sender.Some?
  }

  ghost predicate RunningUnexpired(s: State) {
    forall k :: k in s.tables.finished && Running(s, k) ==> s.tables.finished[k].expires.None?
  }

  /**
   A finish that ends stamps the record under its key. If a later run of the
   same key has put its own record there and is still finishing, that one is
   stamped instead.
  */
  ghost predicate ForeignStamp(s: State, step: Step) {
    && step.Ack? && step.ack.FinishStamp? && CanStamp(s, step.ack.tid)
    && var t := s.tasks[step.ack.tid];
       Running(s, t.key) && s.tables.finished[t.key].run != t.run
  }

  /** Running records stay unexpired in every step but that one. */
  lemma StampIsTheOnlyLeak(s: State, step: Step)
    requires Inv(s) && RunningUnexpired(s) && Enabled(s, step)
    ensures RunningUnexpired(Apply(s, step)) <==> !ForeignStamp(s, step)
  {
    var o :| All(s, o);
    match step
    case Finish(m) => FinishKeepsUnexpired(s, m);
    case Ack(m) => AckKeepsUnexpired(s, m);
    case Vanish(tid) => VanishKeepsUnexpired(s, tid);
    case _ =>
      StepLedger(s, step);
      assert !ForeignStamp(s, step);
      FewerRecords(s, Apply(s, step));
  }

  lemma FewerRecords(s: State, s': State)
    requires RunningUnexpired(s) && RecordsOnlyGo(s, s')
    ensures RunningUnexpired(s')
  {
  }

  lemma FinishKeepsUnexpired(s: State, m: FinishMove)
    requires FinishesFit(s) && RunningUnexpired(s) && CanFinish(s, m)
    ensures RunningUnexpired(FinishMoved(s, m))
  {
  }

  lemma VanishKeepsUnexpired(s: State, tid: TaskId)
    requires RunningUnexpired(s) && tid in s.tasks
    ensures RunningUnexpired(Vanished(s, tid))
  {
  }

  lemma AckKeepsUnexpired(s: State, m: AckMove)
    requires FinishesFit(s) && RunningUnexpired(s) && CanAck(s, m)
    ensures RunningUnexpired(AckMoved(s, m)) <==> !ForeignStamp(s, Ack(m))
  {
    if m.FinishStamp? {
      var t := s.tasks[m.tid];
      assert SenderFits(s.heap, s.channels, m.tid, t);
      var s' := AckMoved(s, m);
      if ForeignStamp(s, Ack(m)) {
        assert Running(s', t.key) && s'.tables.finished[t.key].expires.Some?;
      } else {
        forall k | k in s'.tables.finished && Running(s', k) ensures s'.tables.finished[k].expires.None? {
          assert RecordFits(s.heap, s.channels, k, s.tables.finished[k]);
        }
      }
    }
  }

  ghost predicate AlwaysUnexpired(s: State, steps: seq<Step>)
    requires Responder.Runs(s, steps)
    decreases |steps|
  {
    RunningUnexpired(s) && (steps == [] || AlwaysUnexpired(Apply(s, steps[0]), steps[1..]))
  }

  ghost predicate SomeForeignStamp(s: State, steps: seq<Step>)
    requires Responder.Runs(s, steps)
    decreases |steps|
  {
    steps != [] && (ForeignStamp(s, steps[0]) || SomeForeignStamp(Apply(s, steps[0]), steps[1..]))
  }

  /** Over whole runs: a running record is expired at some point if and only if it is stamped by another finish. */
  lemma {:induction false} UnexpiredUnlessStamped(s: State, steps: seq<Step>)
    requires Inv(s) && RunningUnexpired(s) && Responder.Runs(s, steps)
    ensures AlwaysUnexpired(s, steps) <==> !SomeForeignStamp(s, steps)
    decreases |steps|
  {
    if steps != [] {
      StepKeepsInv(s, steps[0]);
      StampIsTheOnlyLeak(s, steps[0]);
      if RunningUnexpired(Apply(s, steps[0])) {
        UnexpiredUnlessStamped(Apply(s, steps[0]), steps[1..]);
      }
    }
  }

  // ----- The interleaving in which it happens ------------------------------

  lemma {:induction false} AfterSnoc(s: State, steps: seq<Step>, step: Step)
    requires Responder.Runs(s, steps) && Enabled(After(s, steps), step)
    ensures Responder.Runs(s, steps + [step])
    ensures After(s, steps + [step]) == Apply(After(s, steps), step)
    decreases |steps|
  {
    var more := steps + [step];
    if steps == [] {
      assert more[1..] == [];
    } else {
      assert more[1..] == steps[1..] + [step];
      AfterSnoc(Apply(s, steps[0]), steps[1..], step);
    }
  }

  /** A reachable state and one more step. */
  lemma Reach(s: State, step: Step) returns (s': State)
    requires Reachable(s) && Enabled(s, step)
    ensures s' == Apply(s, step) && Reachable(s')
  {
    var steps :| Responder.Runs(INIT, steps) && After(INIT, steps) == s;
    AfterSnoc(INIT, steps, step);
    s' := Apply(s, step);
  }

  /** Two prepares of one key pass the key check before either takes the slot. */
  lemma TwoPrepares(k: Key) returns (s: State)
    ensures Reachable(s)
    ensures s == INIT.(tasks := map[0 := Checked(k, 0), 1 := Checked(k, 0)])
  {
    assert Responder.Runs(INIT, []) && After(INIT, []) == INIT;
    s := Reach(INIT, Prepare(PrepareEnter(0, k, 0)));
    s := Reach(s, Prepare(PrepareEnter(1, k, 0)));
    s := Reach(s, Prepare(PrepareCheck(0)));
    s := Reach(s, Prepare(PrepareCheck(1)));
    assert s.tables == NO_RUNS;
  }

  lemma PrepareUpToCommit(s: State, tid: TaskId, k: Key) returns (s': State)
    requires Reachable(s) && tid in s.tasks && s.tasks[tid] == Checked(k, 0) && s.slots.data.None?
    ensures Reachable(s')
    ensures s'.slots.next == s.slots.next + 1
    ensures s'.slots.data.Some? && s'.slots.data.value.0 == s.slots.next + 1
    ensures s' == s.(slots := s'.slots, tasks := s.tasks[tid := Built(s.slots.next + 1)],
                     heap := s.heap[s.slots.next + 1 := Run(k, 0, true, true, None, None, [], None, false)])
  {
    var s1 := Reach(s, Prepare(PrepareAcquire(tid)));
    s' := Reach(s1, Prepare(PrepareBuild(tid)));
    assert s'.tasks == s.tasks[tid := Built(s.slots.next + 1)];
  }

  /** A prepare past its key check registers its run once the slot is free. */
  lemma PrepareThrough(s: State, tid: TaskId, k: Key) returns (s': State)
    requires Reachable(s) && tid in s.tasks && s.tasks[tid] == Checked(k, 0)
    requires s.slots.data.None? && s.tables.tombstones == map[] && s.stopping == {}
    ensures Reachable(s')
    ensures var r := s.slots.next + 1;
            && s'.slots.next == r && s'.slots.data.Some? && s'.slots.data.value.0 == r
            && s'.tables == Prune(s.tables, s.now, s.channels).(runs := s.tables.runs[k := r])
            && s'.heap == s.heap[r := Run(k, 0, true, true, None, None, [], None, false)]
            && s'.tasks == s.tasks - {tid}
            && s'.channels == s.channels && s'.stopping == s.stopping && s'.now == s.now
            && s'.asked == s.asked && s'.replies == s.replies
  {
    var s1 := PrepareUpToCommit(s, tid, k);
    s' := Reach(s1, Commit(PrepareCommit(tid)));
    assert s'.tasks == s.tasks - {tid};
  }

  lemma FinishUpToRelease(s: State, tid: TaskId, k: Key, r: RunName, o: Outcome) returns (s': State)
    requires Reachable(s) && tid !in s.tasks && s.tables.runs == map[k := r]
    requires r in s.heap && s.heap[r].lock.None? && s.heap[r].cell && !o.AlreadyFinished?
    ensures Reachable(s') && s'.slots == s.slots && r in s'.heap && s'.heap[r].result == Some(o)
    ensures s'.tables == Claim(Prune(s.tables, s.now, s.channels), k, "a")
    ensures s'.channels == s.channels[r := Channel(None, Some(tid))]
    ensures s'.tasks == s.tasks[tid := FinishEmptied(k, "a", r, o, |s.asked|)]
    ensures s'.stopping == s.stopping && s'.now == s.now
    ensures s'.asked == s.asked + [Request(k, "a", tid, First(r))] && s'.replies == s.replies
  {
    var s1 := Reach(s, Finish(FinishArrive(tid, k, "a")));
    s' := Reach(s1, Finish(FinishEmpty(tid, o)));
    assert s'.tasks == s.tasks[tid := FinishEmptied(k, "a", r, o, |s.asked|)];
  }

  /** A finish arrives, runs the workload's finish, frees the slot and publishes. */
  lemma FinishThrough(s: State, tid: TaskId, k: Key, r: RunName, o: Outcome) returns (s': State)
    requires Reachable(s) && tid !in s.tasks && s.tables.runs == map[k := r]
    requires r in s.heap && s.heap[r].lock.None? && s.heap[r].cell && !o.AlreadyFinished?
    requires s.slots.data.Some? && s.slots.data.value.0 == r
    ensures Reachable(s') && s'.slots == Slots.Release(s.slots, r) && r in s'.heap && s'.heap[r].result == Some(o)
    ensures s'.tables == Claim(Prune(s.tables, s.now, s.channels), k, "a")
    ensures s'.channels == s.channels[r := Channel(Some(o), Some(tid))]
    ensures s'.tasks == s.tasks[tid := FinishPublished(k, "a", r, o, |s.asked|)]
    ensures s'.stopping == s.stopping && s'.now == s.now
    ensures s'.asked == s.asked + [Request(k, "a", tid, First(r))] && s'.replies == s.replies
  {
    var s2 := FinishUpToRelease(s, tid, k, r, o);
    var s3 := Reach(s2, Finish(FinishRelease(tid)));
    s' := Reach(s3, Ack(FinishPublish(tid)));
    assert s'.tasks == s.tasks[tid := FinishPublished(k, "a", r, o, |s.asked|)];
    assert s'.channels == s.channels[r := Channel(Some(o), Some(tid))];
  }

  /**
   With two prepares of one key in flight, the second run's record can be
   stamped by the first run's finish, and pruned while its own finish runs.
  */
  lemma RunningRecordCanBePruned(k: Key) returns (s: State)
    ensures Reachable(s) && Running(s, k)
    ensures k !in Prune(s.tables, s.now, s.channels).finished
  {
    var o := Stats("");
    var s1 := TwoPrepares(k);
    var s2 := PrepareThrough(s1, 0, k);
    var s3 := FinishThrough(s2, 2, k, 1, o);
    var s4 := PrepareThrough(s3, 1, k);
    var s5 := Reach(s4, Finish(FinishArrive(3, k, "b")));
    var s6 := Reach(s5, Ack(FinishStamp(2)));
    s := Reach(s6, Hub(Tick(TOMBSTONE_TTL)));
  }

  // ----- Dropped workloads -------------------------------------------------

  /** No workload was dropped unconsumed, and none is about to be. */
  ghost predicate NoneLost(s: State) {
    && (forall r :: r in s.heap ==> !s.heap[r].lost)
    && (forall t :: t in s.tasks && s.tasks[t].Dropping? ==>
                      s.tasks[t].run in s.heap && !s.heap[s.tasks[t].run].cell)
  }

  lemma HubLosesNone(s: State, m: HubMove)
    requires NoneLost(s) && CanHub(s, m)
    ensures NoneLost(HubMoved(s, m))
  {
  }

  lemma PrepareLosesNone(s: State, o: Owner, m: PrepareMove)
    requires NoneLost(s) && CanPrepare(s, m) && Core(s, o)
    ensures NoneLost(PrepareMoved(s, m))
  {
  }

  lemma CommitLosesNone(s: State, m: CommitMove)
    requires NoneLost(s) && CanCommit(s, m)
    ensures NoneLost(CommitMoved(s, m))
  {
  }

  lemma StartLosesNone(s: State, m: StartMove)
    requires NoneLost(s) && CanStart(s, m)
    ensures NoneLost(StartMoved(s, m))
  {
  }

  lemma AbortLosesNone(s: State, m: AbortMove)
    requires NoneLost(s) && CanAbort(s, m)
    ensures NoneLost(AbortMoved(s, m))
  {
  }

  lemma FinishLosesNone(s: State, m: FinishMove)
    requires NoneLost(s) && CanFinish(s, m)
    ensures NoneLost(FinishMoved(s, m))
  {
  }

  lemma AckLosesNone(s: State, m: AckMove)
    requires NoneLost(s) && CanAck(s, m)
    ensures NoneLost(AckMoved(s, m))
  {
  }

  lemma StopLosesNone(s: State, m: StopMove)
    requires NoneLost(s) && CanStop(s, m)
    ensures NoneLost(StopMoved(s, m))
  {
  }

  /** Without a handler vanishing, no workload is ever lost. */
  lemma {:induction false} NoneVanishedNoneLost(s: State, steps: seq<Step>)
    requires Inv(s) && NoneLost(s) && Responder.Runs(s, steps)
    requires forall i :: 0 <= i < |steps| ==> !steps[i].Vanish?
    ensures NoneLost(After(s, steps))
    decreases |steps|
  {
    if steps != [] {
      var o :| All(s, o);
      match steps[0] {
        case Hub(m) => HubLosesNone(s, m);
        case Prepare(m) => PrepareLosesNone(s, o, m);
        case Commit(m) => CommitLosesNone(s, m);
        case Start(m) => StartLosesNone(s, m);
        case Abort(m) => AbortLosesNone(s, m);
        case Finish(m) => FinishLosesNone(s, m);
        case Ack(m) => AckLosesNone(s, m);
        case Stop(m) => StopLosesNone(s, m);
      }
      StepKeepsInv(s, steps[0]);
      NoneVanishedNoneLost(Apply(s, steps[0]), steps[1..]);
    }
  }

  /**
   In a run from the empty hub in which no handler vanishes, once all handlers
   are done and no run is registered, every prepared workload was consumed by
   exactly one finish or exactly one cancel.
  */
  lemma EveryWorkloadConsumedOnce(steps: seq<Step>, r: RunName)
    requires Responder.Runs(INIT, steps) && (forall i :: 0 <= i < |steps| ==> !steps[i].Vanish?)
    requires var s := After(INIT, steps); s.tasks == map[] && s.tables.runs == map[] && r in s.heap
    ensures After(INIT, steps).heap[r].calls in {[CallFinish], [CallCancel],
                                                 [CallStart, CallFinish], [CallStart, CallCancel]}
  {
    var s := After(INIT, steps);
    InitHasInv();
    NoneVanishedNoneLost(INIT, steps);
    assert Reachable(s);
    WorkloadCalls(s, r);
    DrainedMeansConsumed(s, r);
  }
}
