/**
 The answers to finish requests over runs of the responder: which request they
 answer, whose result they carry, when they deny the run, and that all finishes
 of one key answered with an outcome between two registrations of it are about
 one run.
*/
module ResponderAnswers {
  import opened Options
  import opened RemoteRuns
  import opened Responder
  import opened ResponderInvariant
  import opened ResponderSafety
  import opened ResponderTheorems

  /** Handlers of a finish that found a run, first or duplicate. */
  predicate Finishing(t: Task) {
    t.FinishTaken? || t.FinishEmptied? || t.FinishReleased? || t.FinishPublished? || t.FinishWaiting?
  }

  /** Handlers of any finish. */
  predicate Asking(t: Task) {
    Finishing(t) || t.FinishMissed?
  }

  /** The handler that a finish which found `found` gets. */
  predicate Found(found: FinishClaim, t: Task) {
    if found.Unknown? then t.FinishMissed? else Finishing(t) && t.run == found.run
  }

  // ----- What one step can do to requests and answers ----------------------

  ghost predicate SameAsk(t: Task, t': Task) {
    && Asking(t) && Asking(t') && t'.id == t.id && t'.ask == t.ask
    && (if t.FinishMissed? then t'.FinishMissed? else Finishing(t') && t'.run == t.run)
  }

  ghost predicate TasksTraced(tasks: map<TaskId, Task>, tasks': map<TaskId, Task>) {
    forall t :: t in tasks' && Asking(tasks'[t]) ==> t in tasks && SameAsk(tasks[t], tasks'[t])
  }

  ghost predicate RecordsTraced(finished: map<Key, Record>, finished': map<Key, Record>) {
    forall k :: k in finished' ==> k in finished && finished'[k].run == finished[k].run
  }

  /** Handler `t` of a finish ends, and answers its own request. */
  ghost predicate Answers(s: State, s': State, t: TaskId) {
    && t in s.tasks && Asking(s.tasks[t]) && t !in s'.tasks
    && |s'.replies| == |s.replies| + 1 && s'.replies[..|s.replies|] == s.replies
    && var reply := s'.replies[|s.replies|];
       && reply.id == s.tasks[t].id && reply.ask == s.tasks[t].ask
       && (if s.tasks[t].FinishMissed? then reply.NoRun? else reply.Reply? && reply.run == s.tasks[t].run)
  }

  /** No request arrives: handlers and records are those there were, and at most one answers. */
  ghost predicate Traced(s: State, s': State) {
    && s'.asked == s.asked
    && TasksTraced(s.tasks, s'.tasks) && RecordsTraced(s.tables.finished, s'.tables.finished)
    && (s'.replies == s.replies || exists t :: Answers(s, s', t))
  }

  lemma HubTraced(s: State, m: HubMove)
    requires CanHub(s, m)
    ensures Traced(s, HubMoved(s, m))
  {
  }

  lemma PrepareTraced(s: State, m: PrepareMove)
    requires CanPrepare(s, m)
    ensures Traced(s, PrepareMoved(s, m))
  {
  }

  lemma CommitTraced(s: State, m: CommitMove)
    requires CanCommit(s, m)
    ensures Traced(s, CommitMoved(s, m))
  {
  }

  lemma StartTraced(s: State, m: StartMove)
    requires CanStart(s, m)
    ensures Traced(s, StartMoved(s, m))
  {
  }

  lemma AbortTraced(s: State, m: AbortMove)
    requires CanAbort(s, m)
    ensures Traced(s, AbortMoved(s, m))
  {
  }

  lemma FinishTraced(s: State, m: FinishMove)
    requires CanFinish(s, m) && !m.FinishArrive?
    ensures Traced(s, FinishMoved(s, m))
  {
  }

  lemma AckTraced(s: State, m: AckMove)
    requires CanAck(s, m)
    ensures Traced(s, AckMoved(s, m))
  {
    if m.FinishStamp? || m.FinishAnswer? || m.FinishDeny? {
      assert Answers(s, AckMoved(s, m), m.tid);
    }
  }

  lemma StopTraced(s: State, m: StopMove)
    requires CanStop(s, m)
    ensures Traced(s, StopMoved(s, m))
  {
  }

  lemma VanishTraced(s: State, tid: TaskId)
    requires tid in s.tasks
    ensures Traced(s, Vanished(s, tid))
  {
  }

  predicate Arrives(step: Step) {
    step.Finish? && step.finish.FinishArrive?
  }

  lemma StepTraced(s: State, step: Step)
    requires Enabled(s, step) && !Arrives(step)
    ensures Traced(s, Apply(s, step))
  {
    match step
    case Hub(m) => HubTraced(s, m);
    case Prepare(m) => PrepareTraced(s, m);
    case Commit(m) => CommitTraced(s, m);
    case Start(m) => StartTraced(s, m);
    case Abort(m) => AbortTraced(s, m);
    case Finish(m) => FinishTraced(s, m);
    case Ack(m) => AckTraced(s, m);
    case Stop(m) => StopTraced(s, m);
    case Vanish(tid) => VanishTraced(s, tid);
  }

  /** What a finish of `key` finds now. */
  ghost function FoundNow(s: State, key: Key, id: string): FinishClaim {
    ClaimOf(Prune(s.tables, s.now, s.channels), key, id)
  }

  /** What a request's arrival does: it is noted, and its handler names the run it found. */
  lemma ArrivalTraced(s: State, tid: TaskId, key: Key, id: string)
    requires tid !in s.tasks
    ensures var s', found := FinishArrived(s, tid, key, id), FoundNow(s, key, id);
            && s'.asked == s.asked + [Request(key, id, tid, found)] && s'.replies == s.replies && s'.heap == s.heap
            && OnlyTask(s, s', tid)
            && tid in s'.tasks && Asking(s'.tasks[tid]) && Found(found, s'.tasks[tid])
            && s'.tasks[tid].id == id && s'.tasks[tid].ask == |s.asked|
            && s'.tables.runs == s.tables.runs - {key}
            && (forall k :: k in s'.tables.finished ==>
                  if k == key && key in s.tables.runs then s'.tables.finished[k].run == s.tables.runs[key]
                  else k in s.tables.finished && s'.tables.finished[k].run == s.tables.finished[k].run)
    ensures var found := FoundNow(s, key, id);
            if key in s.tables.runs then found == First(s.tables.runs[key])
            else found.Unknown? || (found.Duplicate? && key in s.tables.finished
                                    && found.run == s.tables.finished[key].run)
  {
    if key !in s.tables.runs {
      assert s.tables.runs - {key} == s.tables.runs;
    }
  }

  // ----- Requests and their answers ----------------------------------------

  /** A handler answers the request that made it, under its id and about the run of its key it found. */
  ghost predicate AskFits(asked: seq<Request>, heap: map<RunName, Run>, tid: TaskId, t: Task) {
    Asking(t) ==>
      && t.ask < |asked| && asked[t.ask].tid == tid && asked[t.ask].id == t.id && Found(asked[t.ask].found, t)
      && (Finishing(t) ==> t.run in heap && heap[t.run].key == asked[t.ask].key)
  }

  ghost predicate ReplyBears(asked: seq<Request>, heap: map<RunName, Run>, reply: Reply) {
    && reply.ask < |asked| && asked[reply.ask].id == reply.id
    && (if asked[reply.ask].found.Unknown? then reply.NoRun?
        else && reply.Reply? && reply.run == asked[reply.ask].found.run
             && reply.run in heap && heap[reply.run].key == asked[reply.ask].key)
  }

  ghost predicate NotYet(replies: seq<Reply>, ask: nat) {
    forall i :: 0 <= i < |replies| ==> replies[i].ask != ask
  }

  ghost predicate OnceEach(replies: seq<Reply>) {
    forall i, j :: 0 <= i < j < |replies| ==> replies[i].ask != replies[j].ask
  }

  ghost predicate Asks(s: State) {
    && (forall t :: t in s.tasks ==> AskFits(s.asked, s.heap, t, s.tasks[t]))
    && (forall t :: t in s.tasks && Asking(s.tasks[t]) ==> NotYet(s.replies, s.tasks[t].ask))
    && (forall i :: 0 <= i < |s.replies| ==> ReplyBears(s.asked, s.heap, s.replies[i]))
    && OnceEach(s.replies)
  }

  ghost predicate KeysKept(heap: map<RunName, Run>, heap': map<RunName, Run>) {
    forall r :: r in heap ==> r in heap' && heap'[r].key == heap[r].key
  }

  lemma TracedKeepsAsks(s: State, s': State)
    requires Asks(s) && Traced(s, s') && KeysKept(s.heap, s'.heap)
    ensures Asks(s')
  {
    forall t | t in s'.tasks ensures AskFits(s'.asked, s'.heap, t, s'.tasks[t]) {
      if Asking(s'.tasks[t]) {
        assert AskFits(s.asked, s.heap, t, s.tasks[t]);
      }
    }
    if s'.replies != s.replies {
      var a :| Answers(s, s', a);
      AnswerKeepsOnce(s, s', a);
    }
  }

  lemma AnswerKeepsOnce(s: State, s': State, a: TaskId)
    requires Asks(s) && s'.asked == s.asked && TasksTraced(s.tasks, s'.tasks) && KeysKept(s.heap, s'.heap)
    requires Answers(s, s', a)
    ensures OnceEach(s'.replies)
    ensures forall t :: t in s'.tasks && Asking(s'.tasks[t]) ==> NotYet(s'.replies, s'.tasks[t].ask)
    ensures forall i :: 0 <= i < |s'.replies| ==> ReplyBears(s'.asked, s'.heap, s'.replies[i])
  {
    var n := |s.replies|;
    assert AskFits(s.asked, s.heap, a, s.tasks[a]) && NotYet(s.replies, s.tasks[a].ask);
    forall i | 0 <= i < |s'.replies| ensures ReplyBears(s'.asked, s'.heap, s'.replies[i]) {
      if i < n {
        assert s'.replies[i] == s'.replies[..n][i] == s.replies[i];
        assert ReplyBears(s.asked, s.heap, s.replies[i]);
      }
    }
    forall t | t in s'.tasks && Asking(s'.tasks[t]) ensures NotYet(s'.replies, s'.tasks[t].ask) {
      assert AskFits(s.asked, s.heap, t, s.tasks[t]) && NotYet(s.replies, s.tasks[t].ask);
      forall i | 0 <= i < |s'.replies| ensures s'.replies[i].ask != s'.tasks[t].ask {
        if i < n {
          assert s'.replies[i] == s'.replies[..n][i] == s.replies[i];
        }
      }
    }
    forall i, j | 0 <= i < j < |s'.replies| ensures s'.replies[i].ask != s'.replies[j].ask {
      assert s'.replies[i] == s'.replies[..n][i] == s.replies[i];
      if j < n {
        assert s'.replies[j] == s'.replies[..n][j] == s.replies[j];
      }
    }
  }

  lemma ArrivalKeepsAsks(s: State, tid: TaskId, key: Key, id: string)
    requires Inv(s) && Asks(s) && tid !in s.tasks
    ensures Asks(FinishArrived(s, tid, key, id))
  {
    var s' := FinishArrived(s, tid, key, id);
    ArrivalTraced(s, tid, key, id);
    FoundRunFits(s, key);
    ArrivalFits(s, s', tid, key, id, FoundNow(s, key, id));
  }

  /** Whatever run a finish finds under a key is a run of that key. */
  lemma FoundRunFits(s: State, key: Key)
    requires Inv(s)
    ensures key in s.tables.runs ==> s.tables.runs[key] in s.heap && s.heap[s.tables.runs[key]].key == key
    ensures key in s.tables.finished ==>
              s.tables.finished[key].run in s.heap && s.heap[s.tables.finished[key].run].key == key
  {
    var o :| All(s, o);
    if key in s.tables.finished {
      assert RecordFits(s.heap, s.channels, key, s.tables.finished[key]);
    }
  }

  lemma ArrivalFits(s: State, s': State, tid: TaskId, key: Key, id: string, found: FinishClaim)
    requires Asks(s) && tid !in s.tasks && OnlyTask(s, s', tid) && s'.heap == s.heap && s'.replies == s.replies
    requires s'.asked == s.asked + [Request(key, id, tid, found)]
    requires tid in s'.tasks && Asking(s'.tasks[tid]) && Found(found, s'.tasks[tid])
    requires s'.tasks[tid].id == id && s'.tasks[tid].ask == |s.asked|
    requires !found.Unknown? ==> found.run in s.heap && s.heap[found.run].key == key
    ensures Asks(s')
  {
    forall t | t in s'.tasks ensures AskFits(s'.asked, s'.heap, t, s'.tasks[t]) {
      if t != tid {
        assert AskFits(s.asked, s.heap, t, s.tasks[t]);
      }
    }
    forall i | 0 <= i < |s.replies| ensures ReplyBears(s'.asked, s'.heap, s.replies[i]) {
      assert ReplyBears(s.asked, s.heap, s.replies[i]);
    }
  }

  lemma StepKeepsAsks(s: State, step: Step)
    requires Inv(s) && Asks(s) && Enabled(s, step)
    ensures Asks(Apply(s, step))
  {
    if Arrives(step) {
      ArrivalKeepsAsks(s, step.finish.tid, step.finish.key, step.finish.id);
    } else {
      StepTraced(s, step);
      StepShape(s, step);
      TracedKeepsAsks(s, Apply(s, step));
    }
  }

  lemma {:induction false} RunKeepsAsks(s: State, steps: seq<Step>)
    requires Inv(s) && Asks(s) && Responder.Runs(s, steps)
    ensures Inv(After(s, steps)) && Asks(After(s, steps))
    decreases |steps|
  {
    if steps != [] {
      StepKeepsInv(s, steps[0]);
      StepKeepsAsks(s, steps[0]);
      RunKeepsAsks(Apply(s, steps[0]), steps[1..]);
    }
  }

  lemma ReachableAsks(s: State)
    requires Reachable(s)
    ensures Inv(s) && Asks(s)
  {
    var steps :| Responder.Runs(INIT, steps) && After(INIT, steps) == s;
    InitHasInv();
    RunKeepsAsks(INIT, steps);
  }

  /**
   Every answer bears the id of the request it answers, and no request is
   answered twice. It says there is no run exactly when the request found
   none; otherwise it carries what the finish of the workload that the request
   found returned, a run of the request's key.
  */
  lemma AnswersAreTheResult(s: State, i: nat, j: nat)
    requires Reachable(s) && i < |s.replies| && j < |s.replies|
    ensures var reply := s.replies[i];
            && reply.ask < |s.asked| && s.asked[reply.ask].id == reply.id
            && (reply.NoRun? <==> s.asked[reply.ask].found.Unknown?)
            && (reply.Reply? ==>
                  && reply.run == s.asked[reply.ask].found.run && reply.run in s.heap
                  && s.heap[reply.run].key == s.asked[reply.ask].key
                  && s.heap[reply.run].result == Some(reply.outcome))
    ensures s.replies[i].ask == s.replies[j].ask ==> i == j
  {
    ReachableAsks(s);
    assert ReplyBears(s.asked, s.heap, s.replies[i]);
    ReplyIsResult(s, i);
  }

  lemma ReplyIsResult(s: State, i: nat)
    requires Inv(s) && i < |s.replies|
    ensures s.replies[i].Reply? ==>
              s.replies[i].run in s.heap && s.heap[s.replies[i].run].result == Some(s.replies[i].outcome)
  {
    var o :| All(s, o);
    if s.replies[i].Reply? {
      assert ReplyFits(s.channels, s.replies[i]);
      assert ChannelFits(s.heap, s.replies[i].run, s.channels[s.replies[i].run]);
    }
  }

  // ----- One run per window ------------------------------------------------

  /** Request `ask` is a finish of `k` that arrived as number `n` or later. */
  ghost predicate InWindow(asked: seq<Request>, n: nat, k: Key, ask: nat) {
    n <= ask < |asked| && asked[ask].key == k
  }

  ghost predicate AllName(s: State, n: nat, k: Key, x: RunName) {
    && (forall t :: t in s.tasks && Finishing(s.tasks[t]) && InWindow(s.asked, n, k, s.tasks[t].ask) ==>
                      s.tasks[t].run == x)
    && (forall i :: 0 <= i < |s.replies| && s.replies[i].Reply? && InWindow(s.asked, n, k, s.replies[i].ask) ==>
                      s.replies[i].run == x)
  }

  ghost predicate NoneNames(s: State, n: nat, k: Key) {
    && (forall t :: t in s.tasks && Finishing(s.tasks[t]) ==> !InWindow(s.asked, n, k, s.tasks[t].ask))
    && (forall i :: 0 <= i < |s.replies| && s.replies[i].Reply? ==> !InWindow(s.asked, n, k, s.replies[i].ask))
  }

  /** All name `x`, and so would whoever comes next; while the run is registered nobody has come. */
  ghost predicate OneName(s: State, n: nat, k: Key, x: RunName) {
    && AllName(s, n, k, x)
    && (if k in s.tables.runs then NoneNames(s, n, k)
        else k in s.tables.finished ==> s.tables.finished[k].run == x)
  }

  lemma TracedNames(s: State, s': State, n: nat, k: Key, x: RunName)
    requires Traced(s, s') && AllName(s, n, k, x)
    ensures AllName(s', n, k, x)
  {
    if s'.replies != s.replies {
      var a :| Answers(s, s', a);
      forall i | 0 <= i < |s'.replies| && s'.replies[i].Reply? && InWindow(s'.asked, n, k, s'.replies[i].ask)
        ensures s'.replies[i].run == x
      {
        if i < |s.replies| {
          assert s'.replies[i] == s'.replies[..|s.replies|][i] == s.replies[i];
        }
      }
    }
  }

  lemma TracedNamesNone(s: State, s': State, n: nat, k: Key)
    requires Traced(s, s') && NoneNames(s, n, k)
    ensures NoneNames(s', n, k)
  {
    if s'.replies != s.replies {
      var a :| Answers(s, s', a);
      forall i | 0 <= i < |s'.replies| && s'.replies[i].Reply? ensures !InWindow(s'.asked, n, k, s'.replies[i].ask) {
        if i < |s.replies| {
          assert s'.replies[i] == s'.replies[..|s.replies|][i] == s.replies[i];
        }
      }
    }
  }

  lemma NoneNamesAny(s: State, n: nat, k: Key, x: RunName)
    requires NoneNames(s, n, k)
    ensures AllName(s, n, k, x)
  {
  }

  lemma TracedKeepsOneName(s: State, step: Step, n: nat, k: Key, x: RunName) returns (y: RunName)
    requires Inv(s) && Enabled(s, step) && !Arrives(step) && !Registers(s, step, k) && OneName(s, n, k, x)
    ensures OneName(Apply(s, step), n, k, y)
  {
    var s' := Apply(s, step);
    StepTraced(s, step);
    StepShape(s, step);
    if !SubRuns(s, s') {
      var key :| Registers(s, step, key);
      RegisteringStep(s, step, key);
    }
    y := x;
    if k in s.tables.runs {
      TracedNamesNone(s, s', n, k);
      if k in s'.tables.finished {
        y := s'.tables.finished[k].run;
      }
      NoneNamesAny(s', n, k, y);
    } else {
      TracedNames(s, s', n, k, x);
    }
  }

  lemma ArrivalKeepsOneName(s: State, tid: TaskId, key: Key, id: string, n: nat, k: Key, x: RunName)
    returns (y: RunName)
    requires Asks(s) && tid !in s.tasks && n <= |s.asked| && OneName(s, n, k, x)
    ensures OneName(FinishArrived(s, tid, key, id), n, k, y)
  {
    var s' := FinishArrived(s, tid, key, id);
    ArrivalTraced(s, tid, key, id);
    OldRequestsStand(s, s', tid, n, k);
    y := if key == k && k in s.tables.runs then s.tables.runs[k] else x;
    if k in s.tables.runs {
      NoneNamesAny(s, n, k, y);
    }
  }

  /** A request more does not change which of the old ones are in the window. */
  lemma OldRequestsStand(s: State, s': State, tid: TaskId, n: nat, k: Key)
    requires Asks(s) && s.asked <= s'.asked && OnlyTask(s, s', tid) && s'.replies == s.replies
    ensures forall t :: t in s'.tasks && t != tid && Finishing(s'.tasks[t]) ==>
              (InWindow(s'.asked, n, k, s'.tasks[t].ask) <==> InWindow(s.asked, n, k, s.tasks[t].ask))
    ensures forall i :: 0 <= i < |s.replies| ==>
              (InWindow(s'.asked, n, k, s'.replies[i].ask) <==> InWindow(s.asked, n, k, s.replies[i].ask))
  {
    forall t | t in s'.tasks && t != tid && Finishing(s'.tasks[t])
      ensures InWindow(s'.asked, n, k, s'.tasks[t].ask) <==> InWindow(s.asked, n, k, s.tasks[t].ask)
    {
      assert AskFits(s.asked, s.heap, t, s.tasks[t]);
    }
    forall i | 0 <= i < |s.replies|
      ensures InWindow(s'.asked, n, k, s'.replies[i].ask) <==> InWindow(s.asked, n, k, s.replies[i].ask)
    {
      assert ReplyBears(s.asked, s.heap, s.replies[i]);
    }
  }

  lemma {:induction false} WindowKeepsOneName(s: State, steps: seq<Step>, n: nat, k: Key, x: RunName)
    returns (y: RunName)
    requires Inv(s) && Asks(s) && n <= |s.asked| && OneName(s, n, k, x)
    requires Responder.Runs(s, steps) && NoneRegistered(s, steps, k)
    ensures OneName(After(s, steps), n, k, y)
    decreases |steps|
  {
    y := x;
    if steps != [] {
      var step := steps[0];
      StepKeepsInv(s, step);
      StepKeepsAsks(s, step);
      if Arrives(step) {
        ArrivalTraced(s, step.finish.tid, step.finish.key, step.finish.id);
        y := ArrivalKeepsOneName(s, step.finish.tid, step.finish.key, step.finish.id, n, k, x);
      } else {
        StepTraced(s, step);
        y := TracedKeepsOneName(s, step, n, k, x);
      }
      y := WindowKeepsOneName(Apply(s, step), steps[1..], n, k, y);
    }
  }

  /**
   Between two registrations of a key, all finishes of it that arrive and are
   answered with an outcome, first or duplicate, are about one run and carry
   one outcome; each answer, with an outcome or without, bears its own id.
  */
  lemma {:induction false} OneOutcomePerWindow(s: State, steps: seq<Step>, k: Key, i: nat, j: nat)
    requires Reachable(s) && Responder.Runs(s, steps) && NoneRegistered(s, steps, k)
    requires var end := After(s, steps);
             && i < |end.replies| && InWindow(end.asked, |s.asked|, k, end.replies[i].ask)
             && j < |end.replies| && InWindow(end.asked, |s.asked|, k, end.replies[j].ask)
    ensures var end := After(s, steps);
            && end.replies[i].id == end.asked[end.replies[i].ask].id
            && end.replies[j].id == end.asked[end.replies[j].ask].id
            && (end.replies[i].NoRun? <==> end.asked[end.replies[i].ask].found.Unknown?)
            && (end.replies[i].Reply? && end.replies[j].Reply? ==>
                  end.replies[i].run == end.replies[j].run && end.replies[i].outcome == end.replies[j].outcome)
  {
    ReachableAsks(s);
    NothingYet(s, k);
    var x := if k in s.tables.finished then s.tables.finished[k].run else 0;
    NoneNamesAny(s, |s.asked|, k, x);
    var y := WindowKeepsOneName(s, steps, |s.asked|, k, x);
    RunKeepsAsks(s, steps);
    var end := After(s, steps);
    assert ReplyBears(end.asked, end.heap, end.replies[i]) && ReplyBears(end.asked, end.heap, end.replies[j]);
    ReplyIsResult(end, i);
    ReplyIsResult(end, j);
  }

  lemma NothingYet(s: State, k: Key)
    requires Asks(s)
    ensures NoneNames(s, |s.asked|, k)
  {
    forall t | t in s.tasks && Finishing(s.tasks[t]) ensures !InWindow(s.asked, |s.asked|, k, s.tasks[t].ask) {
      assert AskFits(s.asked, s.heap, t, s.tasks[t]);
    }
  }
}
