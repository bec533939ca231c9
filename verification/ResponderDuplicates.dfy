/**
 How long a finish record lasts: while it does, every duplicate of the finish
 gets the first one's outcome, and once it is gone, the answer is that there is
 no such run.
*/
module ResponderDuplicates {
  import opened Options
  import opened RemoteRuns
  import opened Responder
  import opened ResponderInvariant
  import opened ResponderSafety
  import opened ResponderTheorems
  import opened ResponderRecords
  import opened ResponderAnswers

  // ----- What one step can do to a record ----------------------------------

  /** The step is a finish of `k` that ends, stamping the record of `k`. */
  ghost predicate Stamps(s: State, step: Step, k: Key) {
    step.Ack? && step.ack.FinishStamp? && CanStamp(s, step.ack.tid) && s.tasks[step.ack.tid].key == k
  }

  /** The step is the handler of the first finish of `r` vanishing before it has published. */
  ghost predicate Breaks(s: State, step: Step, r: RunName) {
    && step.Vanish? && step.tid in s.tasks && Sends(s.tasks[step.tid])
    && s.tasks[step.tid].run == r && !s.tasks[step.tid].FinishPublished?
  }

  /** The record of `k` does not change, and does not go while it is live. */
  ghost predicate Keeps(s: State, s': State, k: Key) {
    && (k in s'.tables.finished ==> k in s.tables.finished && s'.tables.finished[k] == s.tables.finished[k])
    && (k in s.tables.finished && Live(s.tables.finished[k], s.now, s.channels) ==> k in s'.tables.finished)
  }

  ghost predicate Open(channels: Channels, r: RunName) {
    r in channels && (channels[r].ack.Some? || channels[r].sender.Some?)
  }

  lemma PruneKeeps(s: State, k: Key)
    ensures Keeps(s, Pruned(s), k)
  {
  }

  lemma HubKeeps(s: State, m: HubMove, k: Key)
    requires CanHub(s, m)
    ensures Keeps(s, HubMoved(s, m), k) && HubMoved(s, m).channels == s.channels
  {
  }

  lemma PrepareKeeps(s: State, m: PrepareMove, k: Key)
    requires CanPrepare(s, m)
    ensures Keeps(s, PrepareMoved(s, m), k) && PrepareMoved(s, m).channels == s.channels
  {
    PruneKeeps(s, k);
  }

  lemma CommitKeeps(s: State, m: CommitMove, k: Key)
    requires CanCommit(s, m)
    ensures Keeps(s, CommitMoved(s, m), k) && CommitMoved(s, m).channels == s.channels
  {
    PruneKeeps(s, k);
  }

  lemma StartKeeps(s: State, m: StartMove, k: Key)
    requires CanStart(s, m)
    ensures Keeps(s, StartMoved(s, m), k) && StartMoved(s, m).channels == s.channels
  {
  }

  lemma AbortKeeps(s: State, m: AbortMove, k: Key)
    requires CanAbort(s, m)
    ensures Keeps(s, AbortMoved(s, m), k) && AbortMoved(s, m).channels == s.channels
  {
    PruneKeeps(s, k);
  }

  lemma StopKeeps(s: State, m: StopMove, k: Key)
    requires CanStop(s, m)
    ensures Keeps(s, StopMoved(s, m), k) && StopMoved(s, m).channels == s.channels
  {
  }

  /** A finish touches the record of its own key only if it takes the run, and opens no old channel. */
  lemma FinishKeeps(s: State, m: FinishMove, k: Key, r: RunName)
    requires CanFinish(s, m) && FinishesFit(s) && k !in s.tables.runs && r in s.channels
    ensures Keeps(s, FinishMoved(s, m), k)
    ensures r in FinishMoved(s, m).channels && FinishMoved(s, m).channels[r] == s.channels[r]
  {
    PruneKeeps(s, k);
  }

  lemma AckKeeps(s: State, m: AckMove, k: Key)
    requires CanAck(s, m) && !Stamps(s, Ack(m), k)
    ensures Keeps(s, AckMoved(s, m), k)
  {
  }

  lemma AckChannel(s: State, m: AckMove, r: RunName)
    requires CanAck(s, m) && FinishesFit(s) && r in s.channels
    ensures r in AckMoved(s, m).channels
    ensures Open(AckMoved(s, m).channels, r) <==> Open(s.channels, r)
  {
    if m.FinishPublish? || m.FinishStamp? {
      assert SenderFits(s.heap, s.channels, m.tid, s.tasks[m.tid]);
    }
  }

  lemma VanishKeeps(s: State, tid: TaskId, k: Key, r: RunName)
    requires tid in s.tasks && FinishesFit(s) && r in s.channels && !Breaks(s, Vanish(tid), r)
    ensures Keeps(s, Vanished(s, tid), k)
    ensures r in Vanished(s, tid).channels
    ensures Open(Vanished(s, tid).channels, r) <==> Open(s.channels, r)
  {
    assert SenderFits(s.heap, s.channels, tid, s.tasks[tid]);
  }

  /** A step that neither registers nor stamps `k` keeps its record, and no step but a break closes a channel. */
  lemma StepKeeps(s: State, step: Step, k: Key, r: RunName)
    requires Inv(s) && Enabled(s, step) && k !in s.tables.runs && r in s.channels && !Breaks(s, step, r)
    ensures !Stamps(s, step, k) ==> Keeps(s, Apply(s, step), k)
    ensures r in Apply(s, step).channels
    ensures Open(Apply(s, step).channels, r) <==> Open(s.channels, r)
  {
    var o :| All(s, o);
    match step
    case Hub(m) => HubKeeps(s, m, k);
    case Prepare(m) => PrepareKeeps(s, m, k);
    case Commit(m) => CommitKeeps(s, m, k);
    case Start(m) => StartKeeps(s, m, k);
    case Abort(m) => AbortKeeps(s, m, k);
    case Finish(m) => FinishKeeps(s, m, k, r);
    case Ack(m) =>
      AckChannel(s, m, r);
      if !Stamps(s, step, k) {
        AckKeeps(s, m, k);
      }
    case Stop(m) => StopKeeps(s, m, k);
    case Vanish(tid) => VanishKeeps(s, tid, k, r);
  }

  lemma StaysUnregistered(s: State, step: Step, k: Key)
    requires Inv(s) && Enabled(s, step) && k !in s.tables.runs && !Registers(s, step, k)
    ensures k !in Apply(s, step).tables.runs
  {
    StepShape(s, step);
    if !SubRuns(s, Apply(s, step)) {
      var key :| Registers(s, step, key);
      RegisteringStep(s, step, key);
    }
  }

  // ----- Exactly how long, until the next stamp ----------------------------

  ghost predicate NoneBreaks(s: State, steps: seq<Step>, r: RunName)
    requires Responder.Runs(s, steps)
    decreases |steps|
  {
    steps == [] || (!Breaks(s, steps[0], r) && NoneBreaks(Apply(s, steps[0]), steps[1..], r))
  }

  ghost predicate NoneStamps(s: State, steps: seq<Step>, k: Key)
    requires Responder.Runs(s, steps)
    decreases |steps|
  {
    steps == [] || (!Stamps(s, steps[0], k) && NoneStamps(Apply(s, steps[0]), steps[1..], k))
  }

  /** `rec` was the record of `k`, and is still unless it is dead. */
  ghost predicate Had(s: State, k: Key, rec: Record) {
    && k !in s.tables.runs && rec.run in s.channels
    && (k in s.tables.finished ==> s.tables.finished[k] == rec)
    && (Live(rec, s.now, s.channels) ==> k in s.tables.finished)
  }

  lemma StepKeepsHad(s: State, step: Step, k: Key, rec: Record)
    requires Inv(s) && Enabled(s, step) && Had(s, k, rec)
    requires !Registers(s, step, k) && !Stamps(s, step, k)
    ensures Had(Apply(s, step), k, rec)
    ensures Open(Apply(s, step).channels, rec.run) <==> Open(s.channels, rec.run) && !Breaks(s, step, rec.run)
  {
    StaysUnregistered(s, step, k);
    StepLedger(s, step);
    if Breaks(s, step, rec.run) {
      BreakCloses(s, step.tid, k, rec.run);
    } else {
      StepKeeps(s, step, k, rec.run);
    }
  }

  /** A first finish that goes without an outcome closes its channel for good. */
  lemma BreakCloses(s: State, tid: TaskId, k: Key, r: RunName)
    requires Inv(s) && tid in s.tasks && r in s.channels && Breaks(s, Vanish(tid), r)
    ensures Keeps(s, Vanished(s, tid), k) && r in Vanished(s, tid).channels
    ensures Open(s.channels, r) && !Open(Vanished(s, tid).channels, r)
  {
    var o :| All(s, o);
    assert SenderFits(s.heap, s.channels, tid, s.tasks[tid]);
  }

  /** Whether the record is found after the steps: by its stamp and the clock, or unstamped by its own finish. */
  ghost predicate Lasts(s: State, steps: seq<Step>, rec: Record)
    requires Responder.Runs(s, steps)
  {
    match rec.expires
    case Some(t) => After(s, steps).now < t
    case None => Open(s.channels, rec.run) && NoneBreaks(s, steps, rec.run)
  }

  lemma {:induction false} RunKeepsHad(s: State, steps: seq<Step>, k: Key, rec: Record)
    requires Inv(s) && Had(s, k, rec) && Responder.Runs(s, steps)
    requires NoneRegistered(s, steps, k) && NoneStamps(s, steps, k)
    ensures Had(After(s, steps), k, rec)
    ensures Live(rec, After(s, steps).now, After(s, steps).channels) <==> Lasts(s, steps, rec)
    decreases |steps|
  {
    if steps != [] {
      StepKeepsInv(s, steps[0]);
      StepKeepsHad(s, steps[0], k, rec);
      RunKeepsHad(Apply(s, steps[0]), steps[1..], k, rec);
    }
  }

  /**
   The fate of a record until its key is registered or stamped again: a finish
   of its key finds it if and only if it has not expired or, carrying no stamp,
   its own finish has published or still runs. Otherwise there is no run.
  */
  lemma {:induction false} RecordFate(s: State, steps: seq<Step>, k: Key, id: string)
    requires Reachable(s) && k !in s.tables.runs && k in s.tables.finished && Responder.Runs(s, steps)
    requires NoneRegistered(s, steps, k) && NoneStamps(s, steps, k)
    ensures var rec := s.tables.finished[k];
            FoundNow(After(s, steps), k, id)
            == if Lasts(s, steps, rec) then Duplicate(rec.id == id, rec.run) else Unknown
  {
    ReachableHasInv(s);
    var o :| All(s, o);
    assert RecordFits(s.heap, s.channels, k, s.tables.finished[k]);
    RunKeepsHad(s, steps, k, s.tables.finished[k]);
  }

  // ----- At least how long, whatever is stamped ----------------------------

  /** The record of `k` names `r` and lasts until `until` at least, which is within five minutes. */
  ghost predicate Answerable(s: State, k: Key, r: RunName, until: Time) {
    && k !in s.tables.runs && k in s.tables.finished && r in s.channels
    && s.tables.finished[k].run == r && s.now < until <= s.now + TOMBSTONE_TTL
    && (match s.tables.finished[k].expires
        case Some(t) => until <= t
        case None => Open(s.channels, r))
  }

  lemma AnswerableIsFound(s: State, k: Key, r: RunName, until: Time, id: string)
    requires Answerable(s, k, r, until)
    ensures FoundNow(s, k, id).Duplicate? && FoundNow(s, k, id).run == r
  {
  }

  lemma StepKeepsAnswerable(s: State, step: Step, k: Key, r: RunName, until: Time)
    requires Inv(s) && Enabled(s, step) && Answerable(s, k, r, until) && Apply(s, step).now < until
    requires !Registers(s, step, k) && !Breaks(s, step, r)
    ensures Answerable(Apply(s, step), k, r, until)
  {
    StaysUnregistered(s, step, k);
    StepKeeps(s, step, k, r);
    if Stamps(s, step, k) {
      StampKeepsAnswerable(s, step.ack.tid, k, r, until);
    } else {
      StepLedger(s, step);
      KeptIsAnswerable(s, Apply(s, step), k, r, until);
    }
  }

  lemma KeptIsAnswerable(s: State, s': State, k: Key, r: RunName, until: Time)
    requires Answerable(s, k, r, until) && Keeps(s, s', k) && k !in s'.tables.runs
    requires r in s'.channels && (Open(s'.channels, r) <==> Open(s.channels, r)) && s.now <= s'.now < until
    ensures Answerable(s', k, r, until)
  {
  }

  /** A stamp, whoever's, gives five minutes from now. */
  lemma StampKeepsAnswerable(s: State, tid: TaskId, k: Key, r: RunName, until: Time)
    requires Answerable(s, k, r, until) && CanStamp(s, tid) && s.tasks[tid].key == k
    ensures Answerable(Stamped(s, tid), k, r, until)
  {
  }

  /** Over any run that ends in time, with any stamps and prepares in it, the record is there to be found. */
  lemma {:induction false} RecordLasts(s: State, steps: seq<Step>, k: Key, r: RunName, until: Time, id: string)
    requires Inv(s) && Answerable(s, k, r, until) && Responder.Runs(s, steps) && After(s, steps).now < until
    requires NoneRegistered(s, steps, k) && NoneBreaks(s, steps, r)
    ensures Answerable(After(s, steps), k, r, until)
    ensures FoundNow(After(s, steps), k, id).Duplicate? && FoundNow(After(s, steps), k, id).run == r
    decreases |steps|
  {
    if steps != [] {
      TimeMovesOn(Apply(s, steps[0]), steps[1..]);
      StepKeepsInv(s, steps[0]);
      StepKeepsAnswerable(s, steps[0], k, r, until);
      RecordLasts(Apply(s, steps[0]), steps[1..], k, r, until, id);
    } else {
      AnswerableIsFound(s, k, r, until, id);
    }
  }

  ghost predicate AllFound(asked: seq<Request>, n: nat, k: Key, r: RunName) {
    forall q :: n <= q < |asked| && asked[q].key == k ==> asked[q].found.Duplicate? && asked[q].found.run == r
  }

  lemma StepKeepsFound(s: State, step: Step, n: nat, k: Key, r: RunName, until: Time)
    requires Enabled(s, step) && Answerable(s, k, r, until) && AllFound(s.asked, n, k, r)
    ensures AllFound(Apply(s, step).asked, n, k, r)
  {
    if Arrives(step) {
      ArrivalTraced(s, step.finish.tid, step.finish.key, step.finish.id);
      AnswerableIsFound(s, k, r, until, step.finish.id);
    } else {
      StepTraced(s, step);
    }
  }

  lemma {:induction false} RunKeepsFound(s: State, steps: seq<Step>, n: nat, k: Key, r: RunName, until: Time)
    requires Inv(s) && Answerable(s, k, r, until) && Responder.Runs(s, steps) && After(s, steps).now < until
    requires NoneRegistered(s, steps, k) && NoneBreaks(s, steps, r) && AllFound(s.asked, n, k, r)
    ensures AllFound(After(s, steps).asked, n, k, r)
    decreases |steps|
  {
    if steps != [] {
      TimeMovesOn(Apply(s, steps[0]), steps[1..]);
      StepKeepsInv(s, steps[0]);
      StepKeepsAnswerable(s, steps[0], k, r, until);
      StepKeepsFound(s, steps[0], n, k, r, until);
      RunKeepsFound(Apply(s, steps[0]), steps[1..], n, k, r, until);
    }
  }

  /**
   What the records are for. From a state whose record of `k` lasts, until that
   time and with no registration of `k` in between, every finish of `k` that
   arrives and is answered gets the first finish's outcome, never "no run", as
   long as the first finish's handler does not vanish before it has published.
  */
  lemma {:induction false} DuplicatesGetTheFirstOutcome(s: State, steps: seq<Step>, k: Key, r: RunName, until: Time,
                                                        i: nat)
    requires Reachable(s) && Answerable(s, k, r, until) && Responder.Runs(s, steps) && After(s, steps).now < until
    requires NoneRegistered(s, steps, k) && NoneBreaks(s, steps, r)
    requires var end := After(s, steps);
             i < |end.replies| && InWindow(end.asked, |s.asked|, k, end.replies[i].ask)
    ensures var end := After(s, steps);
            var reply := end.replies[i];
            && reply.Reply? && reply.run == r && r in end.heap && end.heap[r].result == Some(reply.outcome)
            && reply.id == end.asked[reply.ask].id
  {
    ReachableAsks(s);
    RunKeepsFound(s, steps, |s.asked|, k, r, until);
    RunKeepsAsks(s, steps);
    var end := After(s, steps);
    assert ReplyBears(end.asked, end.heap, end.replies[i]);
    ReplyIsResult(end, i);
  }

  // ----- And then it is forgotten ------------------------------------------

  lemma OnePrepared(k: Key) returns (s: State)
    ensures Reachable(s) && s.tasks == map[] && s.tables == NO_RUNS.(runs := map[k := 1])
    ensures 1 in s.heap && s.heap[1].lock.None? && s.heap[1].cell
    ensures s.slots.data.Some? && s.slots.data.value.0 == 1
    ensures s.channels == map[] && s.now == 0 && s.asked == [] && s.replies == [] && s.stopping == {}
  {
    assert Responder.Runs(INIT, []) && After(INIT, []) == INIT;
    var s1 := Reach(INIT, Prepare(PrepareEnter(0, k, 0)));
    var s2 := Reach(s1, Prepare(PrepareCheck(0)));
    s := PrepareThrough(s2, 0, k);
    assert s.tasks == map[];
  }

  /** A run prepared, finished, answered and stamped. */
  lemma OneFinished(k: Key) returns (s: State)
    ensures Reachable(s) && s.tasks == map[] && s.now == 0 && s.tables.runs == map[]
    ensures s.tables.finished == map[k := Record("a", 1, Some(TOMBSTONE_TTL))]
    ensures s.replies == [Reply("a", 1, Stats(""), 0)] && s.asked == [Request(k, "a", 2, First(1))]
    ensures 1 in s.heap && s.heap[1].result == Some(Stats(""))
  {
    var s0 := OnePrepared(k);
    var s1 := FinishThrough(s0, 2, k, 1, Stats(""));
    s := Reach(s1, Ack(FinishStamp(2)));
    assert s.tasks == map[];
    assert s.tables.runs == map[];
  }

  /** Five minutes later, with no registration in between, a second finish is told there is no run. */
  lemma ForgottenRunIsDenied(k: Key) returns (s: State)
    ensures Reachable(s) && s.replies == [Reply("a", 1, Stats(""), 0), NoRun("b", 1)]
    ensures |s.asked| == 2 && s.asked[0].key == k && s.asked[1].key == k
    ensures 1 in s.heap && s.heap[1].key == k && s.heap[1].result == Some(Stats(""))
  {
    var s0 := OneFinished(k);
    var s1 := Reach(s0, Hub(Tick(TOMBSTONE_TTL)));
    assert FoundNow(s1, k, "b") == Unknown;
    var s2 := Reach(s1, Finish(FinishArrive(3, k, "b")));
    s := Reach(s2, Ack(FinishDeny(3)));
    AnswersAreTheResult(s, 0, 0);
  }
}
