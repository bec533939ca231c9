/**
 What a peer can do to keep its finish records from being pruned early: never
 let two prepares of one key pass the key check together.
*/
module ResponderPrepares {
  import opened RemoteRuns
  import opened Responder
  import opened ResponderInvariant
  import opened ResponderSafety
  import opened ResponderTheorems
  import opened ResponderRecords

  /** A prepare of `k` between its key check and its commit. */
  ghost predicate PastCheck(heap: map<RunName, Run>, t: Task, k: Key) {
    || (t.Checked? && t.key == k) || (t.Holding? && t.key == k)
    || (t.Built? && t.run in heap && heap[t.run].key == k)
  }

  predicate SendsFor(t: Task, k: Key) {
    Sends(t) && t.key == k
  }

  ghost predicate Passes(s: State, k: Key) {
    CheckKey(Prune(s.tables, s.now, s.channels), k) == Accepted
  }

  /** The step is a prepare of `k` passing its key check while another is past it. */
  ghost predicate Overlaps(s: State, step: Step, k: Key) {
    && step.Prepare? && step.prepare.PrepareCheck? && CanCheck(s, step.prepare.tid)
    && s.tasks[step.prepare.tid].key == k && Passes(s, k)
    && exists t :: t in s.tasks && PastCheck(s.heap, s.tasks[t], k)
  }

  ghost predicate NoOverlap(s: State, steps: seq<Step>, k: Key)
    requires Responder.Runs(s, steps)
    decreases |steps|
  {
    steps == [] || (!Overlaps(s, steps[0], k) && NoOverlap(Apply(s, steps[0]), steps[1..], k))
  }

  // ----- One seat per key --------------------------------------------------

  datatype Seat = Free | Preparing(tid: TaskId) | Registered | Finishing(tid: TaskId)

  /** The record of a finish that still runs. */
  ghost predicate Recorded(finished: map<Key, Record>, k: Key, r: RunName) {
    k in finished && finished[k].run == r && finished[k].expires.None?
  }

  /** Prepares past the check, the registered run and first finishes of `k`: one at most, named by `seat`. */
  ghost predicate Solo(s: State, k: Key, seat: Seat) {
    && (forall t :: t in s.tasks && PastCheck(s.heap, s.tasks[t], k) ==> seat == Preparing(t))
    && (k in s.tables.runs ==> seat == Registered)
    && (forall t :: t in s.tasks && SendsFor(s.tasks[t], k) ==>
          seat == Finishing(t) && Recorded(s.tables.finished, k, s.tasks[t].run))
  }

  /** Nobody new takes the seat of `k`, and a running finish keeps its record. */
  ghost predicate Kept(s: State, s': State, k: Key) {
    && (forall t :: t in s'.tasks && PastCheck(s'.heap, s'.tasks[t], k) ==>
          t in s.tasks && PastCheck(s.heap, s.tasks[t], k))
    && (forall t :: t in s'.tasks && SendsFor(s'.tasks[t], k) ==>
          t in s.tasks && SendsFor(s.tasks[t], k) && s'.tasks[t].run == s.tasks[t].run)
    && (k in s'.tables.runs ==> k in s.tables.runs)
    && RecordKept(s, s', k)
  }

  ghost predicate RecordKept(s: State, s': State, k: Key) {
    Running(s, k) && s.tables.finished[k].expires.None? ==>
      k in s'.tables.finished && s'.tables.finished[k] == s.tables.finished[k]
  }

  lemma SenderRuns(s: State, k: Key, t: TaskId)
    requires FinishesFit(s) && t in s.tasks && SendsFor(s.tasks[t], k)
    requires Recorded(s.tables.finished, k, s.tasks[t].run)
    ensures Running(s, k)
  {
    assert SenderFits(s.heap, s.channels, t, s.tasks[t]);
  }

  lemma KeptKeepsSolo(s: State, s': State, k: Key, seat: Seat)
    requires FinishesFit(s) && Solo(s, k, seat) && Kept(s, s', k)
    ensures Solo(s', k, seat)
  {
    forall t | t in s'.tasks && SendsFor(s'.tasks[t], k)
      ensures Recorded(s'.tables.finished, k, s'.tasks[t].run)
    {
      SenderRuns(s, k, t);
    }
  }

  lemma PruneKeepsRecord(s: State, k: Key)
    ensures RecordKept(s, Pruned(s), k)
  {
  }

  // ----- Steps -------------------------------------------------------------

  lemma HubKept(s: State, o: Owner, m: HubMove, k: Key)
    requires CanHub(s, m) && Core(s, o)
    ensures Kept(s, HubMoved(s, m), k)
  {
  }

  lemma OtherCheckKept(s: State, tid: TaskId, k: Key)
    requires CanCheck(s, tid) && s.tasks[tid].key != k
    ensures Kept(s, KeyChecked(s, tid), k)
  {
    PruneKeepsRecord(s, k);
  }

  lemma BuildKept(s: State, o: Owner, tid: TaskId, k: Key)
    requires CanBuild(s, tid) && Core(s, o)
    ensures Kept(s, RunBuilt(s, tid), k)
  {
    assert TokenFits(s.slots, s.heap, s.tasks[tid]);
  }

  lemma PrepareKept(s: State, o: Owner, m: PrepareMove, k: Key)
    requires CanPrepare(s, m) && Core(s, o)
    requires !(m.PrepareCheck? && s.tasks[m.tid].key == k)
    ensures Kept(s, PrepareMoved(s, m), k)
  {
    if m.PrepareCheck? {
      OtherCheckKept(s, m.tid, k);
    } else if m.PrepareBuild? {
      BuildKept(s, o, m.tid, k);
    }
  }

  lemma CheckKeepsSolo(s: State, tid: TaskId, k: Key, seat: Seat) returns (seat': Seat)
    requires FinishesFit(s) && CanCheck(s, tid) && s.tasks[tid].key == k && Solo(s, k, seat)
    requires !Overlaps(s, Prepare(PrepareCheck(tid)), k)
    ensures Solo(KeyChecked(s, tid), k, seat')
  {
    PruneKeepsRecord(s, k);
    var s' := KeyChecked(s, tid);
    if Passes(s, k) {
      seat' := Preparing(tid);
      forall t | t in s.tasks && SendsFor(s.tasks[t], k) ensures false {
        SenderRuns(s, k, t);
      }
    } else {
      seat' := seat;
      KeptKeepsSolo(s, s', k, seat);
    }
  }

  lemma StartKept(s: State, m: StartMove, k: Key)
    requires CanStart(s, m)
    ensures Kept(s, StartMoved(s, m), k)
  {
  }

  lemma BuryKept(s: State, tid: TaskId, k: Key)
    requires CanBury(s, tid)
    ensures Kept(s, Buried(s, tid), k)
  {
    PruneKeepsRecord(s, k);
  }

  lemma AbortKept(s: State, m: AbortMove, k: Key)
    requires CanAbort(s, m)
    ensures Kept(s, AbortMoved(s, m), k)
  {
    if m.CancelBury? {
      BuryKept(s, m.tid, k);
    }
  }

  lemma StopKept(s: State, m: StopMove, k: Key)
    requires CanStop(s, m)
    ensures Kept(s, StopMoved(s, m), k)
  {
  }

  lemma VanishKept(s: State, tid: TaskId, k: Key)
    requires tid in s.tasks
    ensures Kept(s, Vanished(s, tid), k)
  {
  }

  lemma CommitKept(s: State, m: CommitMove, k: Key)
    requires CanCommit(s, m)
    requires !(m.PrepareCommit? && s.heap[s.tasks[m.tid].run].key == k)
    ensures Kept(s, CommitMoved(s, m), k)
  {
    PruneKeepsRecord(s, k);
  }

  lemma CommitKeepsSolo(s: State, tid: TaskId, k: Key, seat: Seat) returns (seat': Seat)
    requires FinishesFit(s) && CanCommitRun(s, tid) && s.heap[s.tasks[tid].run].key == k && Solo(s, k, seat)
    ensures Solo(Committed(s, tid), k, seat')
  {
    PruneKeepsRecord(s, k);
    assert PastCheck(s.heap, s.tasks[tid], k);
    seat' := if Admits(s, tid) then Registered else seat;
    if !Admits(s, tid) {
      KeptKeepsSolo(s, Committed(s, tid), k, seat);
    }
  }

  lemma OtherArriveKept(s: State, tid: TaskId, key: Key, id: string, k: Key)
    requires tid !in s.tasks && !(key == k && k in s.tables.runs)
    ensures Kept(s, FinishArrived(s, tid, key, id), k)
  {
    PruneKeepsRecord(s, k);
    if key !in s.tables.runs {
      DuplicateArrives(s, tid, key, id);
    }
  }

  lemma FinishKept(s: State, m: FinishMove, k: Key)
    requires CanFinish(s, m)
    requires !(m.FinishArrive? && m.key == k && k in s.tables.runs)
    ensures Kept(s, FinishMoved(s, m), k)
  {
    if m.FinishArrive? {
      OtherArriveKept(s, m.tid, m.key, m.id, k);
    }
  }

  lemma ArriveKeepsSolo(s: State, tid: TaskId, k: Key, id: string, seat: Seat)
    requires tid !in s.tasks && k in s.tables.runs && Solo(s, k, seat)
    ensures Solo(FinishArrived(s, tid, k, id), k, Finishing(tid))
  {
  }

  lemma AckKept(s: State, m: AckMove, k: Key)
    requires CanAck(s, m) && !(m.FinishStamp? && s.tasks[m.tid].key == k)
    ensures Kept(s, AckMoved(s, m), k)
  {
  }

  lemma StampKeepsSolo(s: State, tid: TaskId, k: Key, seat: Seat)
    requires CanStamp(s, tid) && s.tasks[tid].key == k && Solo(s, k, seat)
    ensures Solo(Stamped(s, tid), k, seat)
    ensures !ForeignStamp(s, Ack(FinishStamp(tid)))
  {
    assert SendsFor(s.tasks[tid], k);
  }

  ghost predicate ForeignStampOf(s: State, step: Step, k: Key) {
    ForeignStamp(s, step) && s.tasks[step.ack.tid].key == k
  }

  lemma StepKeepsSolo(s: State, step: Step, k: Key, seat: Seat) returns (seat': Seat)
    requires Inv(s) && Enabled(s, step) && Solo(s, k, seat) && !Overlaps(s, step, k)
    ensures Solo(Apply(s, step), k, seat') && !ForeignStampOf(s, step, k)
  {
    var o :| All(s, o);
    seat' := seat;
    if step.Prepare? && step.prepare.PrepareCheck? && s.tasks[step.prepare.tid].key == k {
      seat' := CheckKeepsSolo(s, step.prepare.tid, k, seat);
    } else if step.Commit? && step.commit.PrepareCommit? && s.heap[s.tasks[step.commit.tid].run].key == k {
      seat' := CommitKeepsSolo(s, step.commit.tid, k, seat);
    } else if step.Finish? && step.finish.FinishArrive? && step.finish.key == k && k in s.tables.runs {
      ArriveKeepsSolo(s, step.finish.tid, k, step.finish.id, seat);
      seat' := Finishing(step.finish.tid);
    } else if step.Ack? && step.ack.FinishStamp? && s.tasks[step.ack.tid].key == k {
      StampKeepsSolo(s, step.ack.tid, k, seat);
    } else {
      StepKept(s, o, step, k);
      KeptKeepsSolo(s, Apply(s, step), k, seat);
    }
  }

  lemma StepKept(s: State, o: Owner, step: Step, k: Key)
    requires Core(s, o) && Enabled(s, step)
    requires !(step.Prepare? && step.prepare.PrepareCheck? && s.tasks[step.prepare.tid].key == k)
    requires !(step.Commit? && step.commit.PrepareCommit? && s.heap[s.tasks[step.commit.tid].run].key == k)
    requires !(step.Finish? && step.finish.FinishArrive? && step.finish.key == k && k in s.tables.runs)
    requires !(step.Ack? && step.ack.FinishStamp? && s.tasks[step.ack.tid].key == k)
    ensures Kept(s, Apply(s, step), k)
  {
    match step
    case Hub(m) => HubKept(s, o, m, k);
    case Prepare(m) => PrepareKept(s, o, m, k);
    case Commit(m) => CommitKept(s, m, k);
    case Start(m) => StartKept(s, m, k);
    case Abort(m) => AbortKept(s, m, k);
    case Finish(m) => FinishKept(s, m, k);
    case Ack(m) => AckKept(s, m, k);
    case Stop(m) => StopKept(s, m, k);
    case Vanish(tid) => VanishKept(s, tid, k);
  }

  // ----- Runs --------------------------------------------------------------

  ghost predicate NoForeignStampOf(s: State, steps: seq<Step>, k: Key)
    requires Responder.Runs(s, steps)
    decreases |steps|
  {
    steps == [] || (!ForeignStampOf(s, steps[0], k) && NoForeignStampOf(Apply(s, steps[0]), steps[1..], k))
  }

  /** While prepares of a key do not overlap, no finish of it is stamped by another. */
  lemma {:induction false} NoOverlapNoForeignStamp(s: State, steps: seq<Step>, k: Key, seat: Seat)
    requires Inv(s) && Solo(s, k, seat) && Responder.Runs(s, steps) && NoOverlap(s, steps, k)
    ensures NoForeignStampOf(s, steps, k)
    decreases |steps|
  {
    if steps != [] {
      var next := StepKeepsSolo(s, steps[0], k, seat);
      StepKeepsInv(s, steps[0]);
      NoOverlapNoForeignStamp(Apply(s, steps[0]), steps[1..], k, next);
    }
  }

  lemma {:induction false} StampsAreOfSomeKey(s: State, steps: seq<Step>)
    requires Responder.Runs(s, steps) && forall k :: NoForeignStampOf(s, steps, k)
    ensures !SomeForeignStamp(s, steps)
    decreases |steps|
  {
    if steps != [] {
      if ForeignStamp(s, steps[0]) {
        assert !NoForeignStampOf(s, steps, s.tasks[steps[0].ack.tid].key);
      }
      forall k ensures NoForeignStampOf(Apply(s, steps[0]), steps[1..], k) {
        assert NoForeignStampOf(s, steps, k);
      }
      StampsAreOfSomeKey(Apply(s, steps[0]), steps[1..]);
    }
  }

  /**
   From the empty hub, as long as no two prepares of one key are between check
   and commit at once, a finish that still runs never has its record expired,
   so pruning never forgets it.
  */
  lemma {:induction false} SeparatePreparesKeepRecords(steps: seq<Step>)
    requires Responder.Runs(INIT, steps) && forall k :: NoOverlap(INIT, steps, k)
    ensures AlwaysUnexpired(INIT, steps)
  {
    InitHasInv();
    forall k ensures NoForeignStampOf(INIT, steps, k) {
      assert NoOverlap(INIT, steps, k);
      NoOverlapNoForeignStamp(INIT, steps, k, Free);
    }
    StampsAreOfSomeKey(INIT, steps);
    UnexpiredUnlessStamped(INIT, steps);
  }
}
