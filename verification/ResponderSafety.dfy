/**
 The rest of the responder's invariant, on top of exclusivity: who may start a
 workload, what finish channels and records say, and what a stopping session
 still has to tear down.
*/
module ResponderSafety {
  import opened Options
  import opened RemoteRuns
  import opened Responder
  import opened ResponderInvariant
  import Slots

  predicate Starting(t: Task) {
    t.StartClaimed? || t.StartRunning?
  }

  /** Tasks whose run was never claimed by a finish. */
  predicate Unclaimed(t: Task) {
    t.Built? || t.Refused? || t.AbortTaken? || t.AbortEmptied?
  }

  // ----- Starts ------------------------------------------------------------

  /** A start that won the stamp has not started the workload; a running one holds the cell. */
  ghost predicate StartFits(heap: map<RunName, Run>, tid: TaskId, t: Task) {
    Starting(t) ==>
      && t.run in heap && heap[t.run].started == Some(tid)
      && (t.StartClaimed? ==> CallStart !in heap[t.run].calls)
      && (t.StartRunning? ==> heap[t.run].lock == Some(tid) && heap[t.run].cell)
  }

  ghost predicate LockFits(tasks: map<TaskId, Task>, r: RunName, run: Run) {
    run.lock.Some? ==> run.lock.value in tasks && tasks[run.lock.value] == StartRunning(r)
  }

  ghost predicate StartsFit(s: State) {
    && (forall t :: t in s.tasks ==> StartFits(s.heap, t, s.tasks[t]))
    && (forall r :: r in s.heap ==> LockFits(s.tasks, r, s.heap[r]))
  }

  // ----- Finishes ----------------------------------------------------------

  /** A published outcome is the workload's own, of a run that has left the slot. */
  ghost predicate ChannelFits(heap: map<RunName, Run>, r: RunName, c: Channel) {
    && r in heap
    && (c.ack.Some? ==> !heap[r].token && FinishedWith(heap[r], c.ack.value))
  }

  ghost predicate SenderFits(heap: map<RunName, Run>, channels: Channels, tid: TaskId, t: Task) {
    && (Sends(t) ==>
          && t.run in channels && channels[t.run].sender == Some(tid)
          && channels[t.run].ack == (if t.FinishPublished? then Some(t.outcome) else None)
          && t.run in heap && heap[t.run].key == t.key)
    && (t.FinishWaiting? ==> t.run in channels)
    && (Unclaimed(t) ==> t.run !in channels)
  }

  ghost predicate RecordFits(heap: map<RunName, Run>, channels: Channels, k: Key, rec: Record) {
    rec.run in channels && rec.run in heap && heap[rec.run].key == k
  }

  ghost predicate ReplyFits(channels: Channels, reply: Reply) {
    reply.Reply? ==> reply.run in channels && channels[reply.run].ack == Some(reply.outcome)
  }

  ghost predicate FinishesFit(s: State) {
    && (forall r :: r in s.channels ==> ChannelFits(s.heap, r, s.channels[r]))
    && (forall t :: t in s.tasks ==> SenderFits(s.heap, s.channels, t, s.tasks[t]))
    && (forall k :: k in s.tables.finished ==> RecordFits(s.heap, s.channels, k, s.tables.finished[k]))
    && (forall k :: k in s.tables.runs ==> s.tables.runs[k] !in s.channels)
    && (forall i :: 0 <= i < |s.replies| ==> ReplyFits(s.channels, s.replies[i]))
  }

  // ----- Stops -------------------------------------------------------------

  /** A stop in progress still has every registered run of its session to take. */
  ghost predicate StopFits(runs: map<Key, RunName>, heap: map<RunName, Run>, stopping: set<Session>, t: Task) {
    t.StopLoop? ==>
      && t.session in stopping
      && forall k :: k in runs && runs[k] in heap ==> (heap[runs[k]].session == t.session ==> k in t.todo)
  }

  ghost predicate StopsFit(s: State) {
    && s.stopped <= s.stopping
    && (forall t :: t in s.tasks ==> StopFits(s.tables.runs, s.heap, s.stopping, s.tasks[t]))
    && (forall k :: k in s.tables.runs && s.tables.runs[k] in s.heap ==>
                      s.heap[s.tables.runs[k]].session !in s.stopped)
  }

  ghost predicate Layers(s: State) {
    StartsFit(s) && FinishesFit(s) && StopsFit(s)
  }

  // ----- Steps that leave a layer alone ------------------------------------

  ghost predicate OnlyTask(s: State, s': State, tid: TaskId) {
    && (forall t :: t != tid ==> (t in s'.tasks <==> t in s.tasks))
    && (forall t :: t != tid && t in s.tasks ==> s'.tasks[t] == s.tasks[t])
  }

  ghost predicate SubRuns(s: State, s': State) {
    forall k :: k in s'.tables.runs ==> k in s.tables.runs && s'.tables.runs[k] == s.tables.runs[k]
  }

  ghost predicate CalmRun(run: Run, run': Run) {
    && run'.lock == run.lock && run'.started == run.started
    && (CallStart in run'.calls <==> CallStart in run.calls)
    && (run'.cell == run.cell || run.lock.None?)
  }

  ghost predicate CalmStarts(s: State, s': State, tid: TaskId) {
    && OnlyTask(s, s', tid)
    && (forall r :: r in s.heap ==> r in s'.heap && CalmRun(s.heap[r], s'.heap[r]))
    && (forall r :: r in s'.heap && r !in s.heap ==> s'.heap[r].lock.None?)
    && (tid in s.tasks ==> !s.tasks[tid].StartRunning?)
    && (tid in s'.tasks ==> !Starting(s'.tasks[tid]))
  }

  ghost predicate MildRun(run: Run, run': Run) {
    && run'.key == run.key && run'.session == run.session
    && (CallFinish in run.calls ==> CallFinish in run'.calls && run'.result == run.result)
    && (run'.token ==> run.token) && (run'.cell ==> run.cell)
  }

  ghost predicate MildHeap(s: State, s': State) {
    forall r :: r in s.heap ==> r in s'.heap && MildRun(s.heap[r], s'.heap[r])
  }

  ghost predicate CalmFinishes(s: State, s': State, tid: TaskId) {
    && OnlyTask(s, s', tid) && MildHeap(s, s') && SubRuns(s, s')
    && s'.channels == s.channels && s'.replies == s.replies
    && (forall k :: k in s'.tables.finished ==>
                      k in s.tables.finished && s'.tables.finished[k].run == s.tables.finished[k].run)
    && (tid in s'.tasks ==> SenderFits(s'.heap, s'.channels, tid, s'.tasks[tid]))
  }

  ghost predicate CalmStops(s: State, s': State, tid: TaskId) {
    && OnlyTask(s, s', tid) && MildHeap(s, s') && SubRuns(s, s')
    && s.stopping <= s'.stopping && s'.stopped == s.stopped
    && (tid in s'.tasks ==> StopFits(s'.tables.runs, s'.heap, s'.stopping, s'.tasks[tid]))
  }

  lemma CalmKeepsStarts(s: State, s': State, tid: TaskId)
    requires StartsFit(s) && CalmStarts(s, s', tid)
    ensures StartsFit(s')
  {
  }

  lemma CalmKeepsFinishes(s: State, s': State, tid: TaskId)
    requires FinishesFit(s) && CalmFinishes(s, s', tid)
    ensures FinishesFit(s')
  {
  }

  lemma CalmKeepsStops(s: State, o: Owner, s': State, tid: TaskId)
    requires Core(s, o) && StopsFit(s) && CalmStops(s, s', tid)
    ensures StopsFit(s')
  {
  }

  ghost predicate Quiet(s: State, s': State, tid: TaskId) {
    CalmStarts(s, s', tid) && CalmFinishes(s, s', tid) && CalmStops(s, s', tid)
  }

  lemma QuietKeepsAll(s: State, o: Owner, s': State, o': Owner, tid: TaskId)
    requires All(s, o) && Core(s', o') && Quiet(s, s', tid)
    ensures All(s', o')
  {
    CalmKeepsStarts(s, s', tid);
    CalmKeepsFinishes(s, s', tid);
    CalmKeepsStops(s, o, s', tid);
  }

  ghost predicate All(s: State, o: Owner) {
    Core(s, o) && Layers(s)
  }

  /** Pruning, and other changes to tombstones alone. */
  lemma PruneKeepsAll(s: State, o: Owner, s': State)
    requires All(s, o)
    requires s' == s.(tables := s'.tables, asked := s'.asked) && s'.tables.runs == s.tables.runs
    requires forall k :: k in s'.tables.finished ==>
                           k in s.tables.finished && s'.tables.finished[k] == s.tables.finished[k]
    ensures All(s', o)
  {
  }

  ghost function Pruned(s: State): State {
    s.(tables := Prune(s.tables, s.now, s.channels))
  }

  ghost predicate SameBooks(s: State, s': State) {
    && s'.heap == s.heap && s'.tables == s.tables && s'.channels == s.channels
    && s'.stopping == s.stopping && s'.stopped == s.stopped && s'.replies == s.replies
  }

  /** A task appears or moves on; nothing it does shows in the books. */
  lemma GoKeepsLayers(s: State, tid: TaskId, t: Task, s': State)
    requires Layers(s) && SameBooks(s, s') && s'.tasks == s.tasks[tid := t]
    requires tid in s.tasks ==> !s.tasks[tid].StartRunning?
    requires !Starting(t) && SenderFits(s.heap, s.channels, tid, t)
    requires StopFits(s.tables.runs, s.heap, s.stopping, t)
    ensures Layers(s')
  {
  }

  lemma EndKeepsLayers(s: State, tid: TaskId, s': State)
    requires Layers(s) && SameBooks(s, s') && s'.tasks == s.tasks - {tid}
    requires tid in s.tasks ==> !s.tasks[tid].StartRunning?
    ensures Layers(s')
  {
  }

  lemma ConsumeIsQuiet(run: Run, call: Call)
    requires run.lock.None? && !call.CallStart?
    ensures CalmRun(run, Consume(run, call)) && MildRun(run, Consume(run, call))
  {
  }

  lemma FinishIsQuiet(run: Run, result: Outcome)
    requires run.lock.None? && (run.cell ==> CallFinish !in run.calls)
    ensures CalmRun(run, ConsumeByFinish(run, result)) && MildRun(run, ConsumeByFinish(run, result))
  {
  }

  /** One run is consumed or leaves the slot, and the task at it moves on. */
  lemma PutGoIsQuiet(s: State, tid: TaskId, r: RunName, run': Run, t: Task, s': State)
    requires r in s.heap && CalmRun(s.heap[r], run') && MildRun(s.heap[r], run')
    requires s' == Go(Put(s, r, run'), tid, t).(slots := s'.slots)
    requires tid in s.tasks && !s.tasks[tid].StartRunning? && !Starting(t) && !t.StopLoop?
    requires SenderFits(s'.heap, s'.channels, tid, t)
    ensures Quiet(s, s', tid)
  {
  }

  lemma PutEndIsQuiet(s: State, tid: TaskId, r: RunName, run': Run, s': State)
    requires r in s.heap && CalmRun(s.heap[r], run') && MildRun(s.heap[r], run')
    requires s' == End(Put(s, r, run'), tid).(slots := s'.slots)
    requires tid in s.tasks && !s.tasks[tid].StartRunning?
    ensures Quiet(s, s', tid)
  {
  }

  /** A start changes the stamp, the lock and the calls of one run. */
  lemma TouchIsCalm(s: State, tid: TaskId, r: RunName, run': Run, s': State)
    requires r in s.heap && MildRun(s.heap[r], run')
    requires s' == End(Put(s, r, run'), tid) || s' == Go(Put(s, r, run'), tid, StartClaimed(r))
             || s' == Go(Put(s, r, run'), tid, StartRunning(r))
    ensures CalmFinishes(s, s', tid) && CalmStops(s, s', tid)
  {
  }

  /** Steps on the channels, the records and the replies alone. */
  lemma ChannelStepIsCalm(s: State, tid: TaskId, s': State)
    requires s'.heap == s.heap && SubRuns(s, s') && OnlyTask(s, s', tid)
    requires s'.stopping == s.stopping && s'.stopped == s.stopped
    requires tid in s.tasks ==> !s.tasks[tid].StartRunning?
    requires tid in s'.tasks ==> !Starting(s'.tasks[tid]) && !s'.tasks[tid].StopLoop?
    ensures CalmStarts(s, s', tid) && CalmStops(s, s', tid)
  {
  }

  lemma TakeIsQuiet(s: State, tid: TaskId, key: Key)
    requires tid !in s.tasks && key in s.tables.runs && s.tables.runs[key] !in s.channels
    ensures Quiet(s, AbortBegun(s, tid, key), tid)
  {
  }

  lemma BuildIsQuiet(s: State, tid: TaskId)
    requires CanBuild(s, tid) && s.tasks[tid].token !in s.heap && s.tasks[tid].token !in s.channels
    ensures Quiet(s, RunBuilt(s, tid), tid)
  {
  }

  lemma TickKeepsAll(s: State, o: Owner, s': State)
    requires All(s, o) && s.stopping <= s'.stopping
    requires s' == s.(now := s'.now, stopping := s'.stopping)
    ensures All(s', o)
  {
  }

  // ----- Prepare -----------------------------------------------------------

  lemma AcquireKeepsAll(s: State, o: Owner, tid: TaskId, t: Task, role: Slots.Role)
    requires All(s, o) && s.slots.data.None?
    requires tid in s.tasks ==> s.tasks[tid].Checked?
    requires (t.Initiating? || t.Holding?) && t.token == s.slots.next + 1
    ensures All(Go(s.(slots := Acquire(s, role)), tid, t), ByTask(tid))
  {
    var s' := Go(s.(slots := Acquire(s, role)), tid, t);
    RegisterRegisters(s.slots, Some(Slots.Holder(role, "")));
    AcquireKeepsCore(s, o, tid, t, s'.slots);
    GoKeepsLayers(s, tid, t, s');
  }

  lemma ExemptAcquireKeepsAll(s: State, o: Owner, tid: TaskId)
    requires All(s, o) && tid !in s.tasks
    ensures All(Go(s.(slots := Slots.Register(s.slots, None)), tid, Exempt(s.slots.next + 1)), o)
  {
    RegisterRegisters(s.slots, None);
    ExemptAcquireKeepsCore(s, o, tid, Slots.Register(s.slots, None));
    GoKeepsLayers(s, tid, Exempt(s.slots.next + 1),
                  Go(s.(slots := Slots.Register(s.slots, None)), tid, Exempt(s.slots.next + 1)));
  }

  lemma TokenDropKeepsAll(s: State, o: Owner, tid: TaskId)
    requires All(s, o) && tid in s.tasks
    requires s.tasks[tid].Initiating? || s.tasks[tid].Exempt? || s.tasks[tid].Holding?
    ensures All(End(Free(s, s.tasks[tid].token), tid), if o == ByTask(tid) then Nobody else o)
  {
    TokenDropKeepsCore(s, o, tid);
    EndKeepsLayers(s, tid, End(Free(s, s.tasks[tid].token), tid));
  }

  lemma PlainEndKeepsAll(s: State, o: Owner, tid: TaskId)
    requires All(s, o)
    requires tid in s.tasks ==> !Holds(s.tasks[tid]) && !s.tasks[tid].StartRunning?
    ensures All(End(s, tid), o)
  {
    PlainEndKeepsCore(s, o, tid, End(s, tid));
    EndKeepsLayers(s, tid, End(s, tid));
  }

  lemma PlainGoKeepsAll(s: State, o: Owner, tid: TaskId, t: Task)
    requires All(s, o)
    requires tid in s.tasks ==> !Holds(s.tasks[tid]) && !s.tasks[tid].StartRunning?
    requires Plain(t) && !Starting(t) && TaskFits(s.heap, t) && SenderFits(s.heap, s.channels, tid, t)
    requires StopFits(s.tables.runs, s.heap, s.stopping, t)
    ensures All(Go(s, tid, t), o)
  {
    PlainGoKeepsCore(s, o, tid, t, Go(s, tid, t));
    GoKeepsLayers(s, tid, t, Go(s, tid, t));
  }

  lemma CheckKeepsAll(s: State, o: Owner, tid: TaskId)
    requires All(s, o) && CanCheck(s, tid)
    ensures All(KeyChecked(s, tid), o)
  {
    var t := s.tasks[tid];
    PruneKeepsAll(s, o, Pruned(s));
    if CheckKey(Pruned(s).tables, t.key) == Accepted {
      PlainGoKeepsAll(Pruned(s), o, tid, Checked(t.key, t.session));
    } else {
      PlainEndKeepsAll(Pruned(s), o, tid);
    }
  }

  lemma BuildKeepsAll(s: State, o: Owner, tid: TaskId)
    requires All(s, o) && CanBuild(s, tid)
    ensures All(RunBuilt(s, tid), o)
  {
    BuildKeepsCore(s, o, tid);
    BuildIsQuiet(s, tid);
    QuietKeepsAll(s, o, RunBuilt(s, tid), o, tid);
  }

  lemma CommitKeepsAll(s: State, o: Owner, tid: TaskId)
    requires All(s, o) && CanCommitRun(s, tid) && Admits(s, tid)
    ensures All(Committed(s, tid), ByTable(s.heap[s.tasks[tid].run].key))
  {
    CommitKeepsCore(s, o, tid);
    var s' := Committed(s, tid);
    CalmKeepsStarts(s, s', tid);
    assert s'.tables.runs == map[s.heap[s.tasks[tid].run].key := s.tasks[tid].run];
  }

  lemma RefuseKeepsAll(s: State, o: Owner, tid: TaskId)
    requires All(s, o) && CanCommitRun(s, tid) && !Admits(s, tid)
    ensures All(Committed(s, tid), o)
  {
    RefuseKeepsCore(s, o, tid);
    PruneKeepsAll(s, o, Pruned(s));
    assert SenderFits(s.heap, s.channels, tid, s.tasks[tid]);
    GoKeepsLayers(Pruned(s), tid, Refused(s.tasks[tid].run), Committed(s, tid));
  }

  lemma UndoKeepsAll(s: State, o: Owner, tid: TaskId)
    requires All(s, o) && CanUndo(s, tid)
    ensures All(Undone(s, tid), o)
  {
    UndoKeepsCore(s, o, tid);
    var r := s.tasks[tid].run;
    ConsumeIsQuiet(s.heap[r], CallCancel);
    PutGoIsQuiet(s, tid, r, Consume(s.heap[r], CallCancel), Dropping(r), Undone(s, tid));
    QuietKeepsAll(s, o, Undone(s, tid), o, tid);
  }

  lemma DropKeepsAll(s: State, o: Owner, tid: TaskId)
    requires All(s, o) && CanDrop(s, tid)
    ensures All(RunDropped(s, tid), Nobody)
  {
    DropKeepsCore(s, o, tid);
    var r := s.tasks[tid].run;
    PutEndIsQuiet(s, tid, r, RunDropped(s, tid).heap[r], RunDropped(s, tid));
    QuietKeepsAll(s, o, RunDropped(s, tid), Nobody, tid);
  }

  // ----- Start -------------------------------------------------------------

  lemma ClaimStartKeepsAll(s: State, o: Owner, tid: TaskId)
    requires All(s, o) && CanClaimStart(s, tid)
    ensures All(StartClaimedBy(s, tid), o)
  {
    ClaimStartKeepsCore(s, o, tid);
    var s' := StartClaimedBy(s, tid);
    TouchIsCalm(s, tid, s.tasks[tid].run, s'.heap[s.tasks[tid].run], s');
    CalmKeepsFinishes(s, s', tid);
    CalmKeepsStops(s, o, s', tid);
    ClaimStartKeepsStarts(s, tid);
  }

  lemma ClaimStartKeepsStarts(s: State, tid: TaskId)
    requires StartsFit(s) && CanClaimStart(s, tid)
    requires CallsFit(s.heap[s.tasks[tid].run])
    ensures StartsFit(StartClaimedBy(s, tid))
  {
  }

  lemma StartKeepsAll(s: State, o: Owner, tid: TaskId)
    requires All(s, o) && CanStartRun(s, tid)
    ensures All(Started(s, tid), o)
  {
    assert StartFits(s.heap, tid, s.tasks[tid]);
    StartKeepsCore(s, o, tid);
    var s' := Started(s, tid);
    TouchIsCalm(s, tid, s.tasks[tid].run, s'.heap[s.tasks[tid].run], s');
    CalmKeepsFinishes(s, s', tid);
    CalmKeepsStops(s, o, s', tid);
    StartKeepsStarts(s, tid);
  }

  lemma StartKeepsStarts(s: State, tid: TaskId)
    requires StartsFit(s) && CanStartRun(s, tid)
    ensures StartsFit(Started(s, tid))
  {
  }

  lemma ReturnKeepsAll(s: State, o: Owner, tid: TaskId)
    requires All(s, o) && CanReturn(s, tid)
    ensures All(StartReturned(s, tid), o)
  {
    ReturnKeepsCore(s, o, tid);
    var s' := StartReturned(s, tid);
    TouchIsCalm(s, tid, s.tasks[tid].run, s'.heap[s.tasks[tid].run], s');
    CalmKeepsFinishes(s, s', tid);
    CalmKeepsStops(s, o, s', tid);
    ReturnKeepsStarts(s, tid);
  }

  lemma ReturnKeepsStarts(s: State, tid: TaskId)
    requires StartsFit(s) && CanReturn(s, tid)
    ensures StartsFit(StartReturned(s, tid))
  {
  }

  // ----- Abort -------------------------------------------------------------

  lemma AbortTakeKeepsAll(s: State, o: Owner, tid: TaskId, key: Key)
    requires All(s, o) && tid !in s.tasks && key in s.tables.runs
    ensures All(AbortBegun(s, tid, key), ByTask(tid))
  {
    AbortTakeKeepsCore(s, o, tid, key);
    TakeIsQuiet(s, tid, key);
    QuietKeepsAll(s, o, AbortBegun(s, tid, key), ByTask(tid), tid);
  }

  lemma AbortKeepsAll(s: State, o: Owner, tid: TaskId)
    requires All(s, o) && CanAbortRun(s, tid)
    ensures All(Aborted(s, tid), o)
  {
    AbortKeepsCore(s, o, tid);
    var r := s.tasks[tid].run;
    ConsumeIsQuiet(s.heap[r], CallCancel);
    PutGoIsQuiet(s, tid, r, Consume(s.heap[r], CallCancel), AbortEmptied(r), Aborted(s, tid));
    QuietKeepsAll(s, o, Aborted(s, tid), o, tid);
  }

  lemma ReleaseKeepsAll(s: State, o: Owner, tid: TaskId)
    requires All(s, o) && CanRelease(s, tid)
    ensures All(Released(s, tid), Nobody)
  {
    ReleaseKeepsCore(s, o, tid);
    var r := s.tasks[tid].run;
    PutEndIsQuiet(s, tid, r, Released(s, tid).heap[r], Released(s, tid));
    QuietKeepsAll(s, o, Released(s, tid), Nobody, tid);
  }

  lemma BuryKeepsAll(s: State, o: Owner, tid: TaskId)
    requires All(s, o) && CanBury(s, tid)
    ensures All(Buried(s, tid), o)
  {
    PruneKeepsAll(s, o, s.(tables := Buried(s, tid).tables));
    PlainEndKeepsAll(s.(tables := Buried(s, tid).tables), o, tid);
  }

  // ----- Finish ------------------------------------------------------------

  lemma FirstFinishKeepsAll(s: State, o: Owner, tid: TaskId, key: Key, id: string)
    requires All(s, o) && tid !in s.tasks && key in s.tables.runs
    ensures All(FinishArrived(s, tid, key, id), ByTask(tid))
  {
    FirstFinishKeepsCore(s, o, tid, key, id);
    var s' := FinishArrived(s, tid, key, id);
    ChannelStepIsCalm(s, tid, s');
    CalmKeepsStarts(s, s', tid);
    CalmKeepsStops(s, o, s', tid);
    FirstFinishKeepsFinishes(s, o, tid, key, id);
  }

  lemma FirstFinishKeepsFinishes(s: State, o: Owner, tid: TaskId, key: Key, id: string)
    requires Core(s, o) && FinishesFit(s) && tid !in s.tasks && key in s.tables.runs
    ensures FinishesFit(FinishArrived(s, tid, key, id))
  {
    var s', r := FinishArrived(s, tid, key, id), s.tables.runs[key];
    FirstSenders(s, o, tid, key, id);
    forall k | k in s'.tables.finished ensures RecordFits(s'.heap, s'.channels, k, s'.tables.finished[k]) {
      if k != key {
        assert RecordFits(s.heap, s.channels, k, s.tables.finished[k]);
      }
    }
    forall i | 0 <= i < |s.replies| ensures ReplyFits(s'.channels, s'.replies[i]) {
      assert ReplyFits(s.channels, s.replies[i]);
    }
  }

  lemma FirstSenders(s: State, o: Owner, tid: TaskId, key: Key, id: string)
    requires Core(s, o) && FinishesFit(s) && tid !in s.tasks && key in s.tables.runs
    ensures var s' := FinishArrived(s, tid, key, id);
            forall t :: t in s'.tasks ==> SenderFits(s'.heap, s'.channels, t, s'.tasks[t])
  {
    var s' := FinishArrived(s, tid, key, id);
    assert o == ByTable(key);
    forall t | t in s'.tasks ensures SenderFits(s'.heap, s'.channels, t, s'.tasks[t]) {
      if t != tid {
        assert SenderFits(s.heap, s.channels, t, s.tasks[t]);
      }
    }
  }

  lemma DuplicateFinishKeepsAll(s: State, o: Owner, tid: TaskId, key: Key, id: string)
    requires All(s, o) && tid !in s.tasks && key !in s.tables.runs
    ensures All(FinishArrived(s, tid, key, id), o)
  {
    var p := Heard(s, tid, key, id);
    PruneKeepsAll(s, o, p);
    DuplicateArrives(s, tid, key, id);
    if key in p.tables.finished {
      DuplicateWaits(p, o, tid, key, id, |s.asked|);
    } else {
      PlainGoKeepsAll(p, o, tid, FinishMissed(id, |s.asked|));
    }
  }

  /** A finish that finds no registered run: noted, and the tables pruned. */
  ghost function Heard(s: State, tid: TaskId, key: Key, id: string): State {
    Pruned(s).(asked := s.asked + [Request(key, id, tid, ClaimOf(Pruned(s).tables, key, id))])
  }

  /** It waits for the outcome of the record it found, or found none. */
  lemma DuplicateArrives(s: State, tid: TaskId, key: Key, id: string)
    requires key !in s.tables.runs
    ensures var p, s' := Heard(s, tid, key, id), FinishArrived(s, tid, key, id);
            s' == Go(p, tid, if key in p.tables.finished
                             then FinishWaiting(id, p.tables.finished[key].run, |s.asked|)
                             else FinishMissed(id, |s.asked|))
  {
  }

  lemma DuplicateWaits(p: State, o: Owner, tid: TaskId, key: Key, id: string, ask: nat)
    requires All(p, o) && tid !in p.tasks && key in p.tables.finished
    ensures All(Go(p, tid, FinishWaiting(id, p.tables.finished[key].run, ask)), o)
  {
    assert RecordFits(p.heap, p.channels, key, p.tables.finished[key]);
    PlainGoKeepsAll(p, o, tid, FinishWaiting(id, p.tables.finished[key].run, ask));
  }

  lemma FinishKeepsAll(s: State, o: Owner, tid: TaskId, result: Outcome)
    requires All(s, o) && CanFinishRun(s, tid) && !result.AlreadyFinished?
    ensures All(Finished(s, tid, result), o)
  {
    FinishKeepsCore(s, o, tid, result);
    var r := s.tasks[tid].run;
    assert RunFits(s.slots, s.heap[r], r, Carried(s.tasks, s.tables.runs, o));
    FinishIsQuiet(s.heap[r], result);
    var s' := Finished(s, tid, result);
    PutGoIsQuiet(s, tid, r, ConsumeByFinish(s.heap[r], result), s'.tasks[tid], s');
    QuietKeepsAll(s, o, Finished(s, tid, result), o, tid);
  }

  lemma FreeSlotKeepsAll(s: State, o: Owner, tid: TaskId)
    requires All(s, o) && CanFreeSlot(s, tid)
    ensures All(SlotFreed(s, tid), Nobody)
  {
    FreeSlotKeepsCore(s, o, tid);
    var r := s.tasks[tid].run;
    var s' := SlotFreed(s, tid);
    PutGoIsQuiet(s, tid, r, s.heap[r].(token := false), s'.tasks[tid], s');
    QuietKeepsAll(s, o, SlotFreed(s, tid), Nobody, tid);
  }

  lemma ChannelStepKeepsAll(s: State, o: Owner, tid: TaskId, s': State)
    requires All(s, o) && Core(s', o) && FinishesFit(s')
    requires s'.heap == s.heap && SubRuns(s, s') && OnlyTask(s, s', tid)
    requires s'.stopping == s.stopping && s'.stopped == s.stopped
    requires tid in s.tasks ==> !s.tasks[tid].StartRunning?
    requires tid in s'.tasks ==> !Starting(s'.tasks[tid]) && !s'.tasks[tid].StopLoop?
    ensures All(s', o)
  {
    ChannelStepIsCalm(s, tid, s');
    CalmKeepsStarts(s, s', tid);
    CalmKeepsStops(s, o, s', tid);
  }

  lemma PublishKeepsAll(s: State, o: Owner, tid: TaskId)
    requires All(s, o) && CanPublish(s, tid)
    ensures All(Published(s, tid), o)
  {
    var s' := Published(s, tid);
    PlainGoKeepsCore(s, o, tid, s'.tasks[tid], s');
    PublishKeepsFinishes(s, o, tid);
    ChannelStepKeepsAll(s, o, tid, s');
  }

  lemma PublishKeepsFinishes(s: State, o: Owner, tid: TaskId)
    requires Core(s, o) && FinishesFit(s) && CanPublish(s, tid)
    ensures FinishesFit(Published(s, tid))
  {
    var s', t := Published(s, tid), s.tasks[tid];
    assert SenderFits(s.heap, s.channels, tid, t) && TaskFits(s.heap, t);
    SendersStand(s, s', tid, t.run);
    forall k | k in s'.tables.finished ensures RecordFits(s'.heap, s'.channels, k, s'.tables.finished[k]) {
      assert RecordFits(s.heap, s.channels, k, s.tables.finished[k]);
    }
    forall i | 0 <= i < |s.replies| ensures ReplyFits(s'.channels, s.replies[i]) {
      assert ReplyFits(s.channels, s.replies[i]);
    }
  }

  /** A change to the channel whose sender handler `tid` is leaves the other handlers fitting. */
  lemma SendersStand(s: State, s': State, tid: TaskId, r: RunName)
    requires FinishesFit(s) && s'.heap == s.heap && OnlyTask(s, s', tid)
    requires r in s.channels && s.channels[r].sender == Some(tid) && r in s'.channels
    requires s'.channels == s.channels[r := s'.channels[r]]
    ensures forall t :: t in s'.tasks && t != tid ==> SenderFits(s'.heap, s'.channels, t, s'.tasks[t])
  {
    forall t | t in s'.tasks && t != tid ensures SenderFits(s'.heap, s'.channels, t, s'.tasks[t]) {
      assert SenderFits(s.heap, s.channels, t, s.tasks[t]);
    }
  }

  lemma StampKeepsAll(s: State, o: Owner, tid: TaskId)
    requires All(s, o) && CanStamp(s, tid)
    ensures All(Stamped(s, tid), o)
  {
    var s' := Stamped(s, tid);
    PlainEndKeepsCore(s, o, tid, s');
    StampKeepsFinishes(s, o, tid);
    ChannelStepKeepsAll(s, o, tid, s');
  }

  lemma StampKeepsFinishes(s: State, o: Owner, tid: TaskId)
    requires Core(s, o) && FinishesFit(s) && CanStamp(s, tid)
    ensures FinishesFit(Stamped(s, tid))
  {
    var s', t := Stamped(s, tid), s.tasks[tid];
    assert SenderFits(s.heap, s.channels, tid, t);
    SendersStand(s, s', tid, t.run);
    forall k | k in s'.tables.finished ensures RecordFits(s'.heap, s'.channels, k, s'.tables.finished[k]) {
      assert RecordFits(s.heap, s.channels, k, s.tables.finished[k]);
    }
    forall i | 0 <= i < |s'.replies| ensures ReplyFits(s'.channels, s'.replies[i]) {
      if i < |s.replies| {
        assert ReplyFits(s.channels, s.replies[i]);
      }
    }
  }

  lemma AnswerKeepsAll(s: State, o: Owner, tid: TaskId)
    requires All(s, o) && CanAnswer(s, tid)
    ensures All(Answered(s, tid), o)
  {
    var s' := Answered(s, tid);
    PlainEndKeepsCore(s, o, tid, s');
    ChannelStepKeepsAll(s, o, tid, s');
  }

  lemma DenyKeepsAll(s: State, o: Owner, tid: TaskId)
    requires All(s, o) && CanDeny(s, tid)
    ensures All(Denied(s, tid), o)
  {
    var s' := Denied(s, tid);
    PlainEndKeepsCore(s, o, tid, s');
    ChannelStepKeepsAll(s, o, tid, s');
  }

  // ----- Stop and vanish ---------------------------------------------------

  lemma StopListKeepsAll(s: State, o: Owner, tid: TaskId, session: Session)
    requires All(s, o) && tid !in s.tasks && session in s.stopping
    ensures All(Go(s, tid, StopLoop(session, s.tables.runs.Keys)), o)
  {
    var t := StopLoop(session, s.tables.runs.Keys);
    PlainGoKeepsAll(s, o, tid, t);
  }

  lemma StopNextKeepsAll(s: State, o: Owner, tid: TaskId, key: Key, child: TaskId)
    requires All(s, o) && CanStopNext(s, tid, key, child)
    ensures All(StopNextTaken(s, tid, key, child), if key in s.tables.runs then ByTask(child) else o)
  {
    if key in s.tables.runs {
      AbortTakeKeepsAll(s, o, child, key);
      StopMovesOn(AbortBegun(s, child, key), ByTask(child), tid, key);
    } else {
      StopMovesOn(s, o, tid, key);
    }
  }

  ghost function StopMovedOn(s: State, tid: TaskId, key: Key): State
    requires tid in s.tasks && s.tasks[tid].StopLoop?
  {
    Go(s, tid, StopLoop(s.tasks[tid].session, s.tasks[tid].todo - {key}))
  }

  lemma StopMovesOn(s: State, o: Owner, tid: TaskId, key: Key)
    requires All(s, o) && tid in s.tasks && s.tasks[tid].StopLoop? && key !in s.tables.runs
    ensures All(StopMovedOn(s, tid, key), o)
  {
    assert StopFits(s.tables.runs, s.heap, s.stopping, s.tasks[tid]);
    PlainGoKeepsAll(s, o, tid, StopMovedOn(s, tid, key).tasks[tid]);
  }

  lemma StopEndKeepsAll(s: State, o: Owner, tid: TaskId)
    requires All(s, o) && CanStopEnd(s, tid)
    ensures All(StopEnded(s, tid), o)
  {
    var s' := StopEnded(s, tid);
    PlainEndKeepsCore(s, o, tid, s');
    CalmKeepsStarts(s, s', tid);
    CalmKeepsFinishes(s, s', tid);
    StopEndKeepsStops(s, tid);
  }

  lemma StopEndKeepsStops(s: State, tid: TaskId)
    requires StopsFit(s) && CanStopEnd(s, tid)
    ensures StopsFit(StopEnded(s, tid))
  {
    assert StopFits(s.tables.runs, s.heap, s.stopping, s.tasks[tid]);
  }

  /** A handler that carried a run leaves it to be dropped. */
  lemma LetGoKeepsAll(s: State, o: Owner, tid: TaskId, s': State)
    requires All(s, o) && tid in s.tasks && Carries(s.tasks[tid])
    requires s' == Go(if Sends(s.tasks[tid]) then Hush(s, s.tasks[tid].run) else s, tid,
                      Dropping(s.tasks[tid].run))
    ensures All(s', o)
  {
    LetGoKeepsCore(s, o, tid, s');
    HushKeepsFinishes(s, tid, s.tasks[tid].run, s');
    ChannelStepKeepsAll(s, o, tid, s');
  }

  lemma FinisherGoneKeepsAll(s: State, o: Owner, tid: TaskId, s': State)
    requires All(s, o) && tid in s.tasks && (s.tasks[tid].FinishReleased? || s.tasks[tid].FinishPublished?)
    requires s' == End(Hush(s, s.tasks[tid].run), tid)
    ensures All(s', o)
  {
    PlainEndKeepsCore(s, o, tid, s');
    HushKeepsFinishes(s, tid, s.tasks[tid].run, s');
    ChannelStepKeepsAll(s, o, tid, s');
  }

  lemma HushKeepsFinishes(s: State, tid: TaskId, r: RunName, s': State)
    requires FinishesFit(s) && OnlyTask(s, s', tid)
    requires tid in s.tasks && (Carries(s.tasks[tid]) || Sends(s.tasks[tid])) && s.tasks[tid].run == r
    requires tid in s'.tasks ==> s'.tasks[tid].Dropping?
    requires s'.heap == s.heap && s'.tables == s.tables && s'.replies == s.replies
    requires s'.channels == (if Sends(s.tasks[tid]) then Hush(s, r) else s).channels
    ensures FinishesFit(s')
  {
  }

  // ----- Every step, every run ---------------------------------------------

  ghost predicate Inv(s: State) {
    exists o :: All(s, o)
  }

  lemma InitHasInv()
    ensures Inv(INIT)
  {
    assert All(INIT, Nobody);
  }

  lemma HubMoveKeepsInv(s: State, o: Owner, m: HubMove)
    requires All(s, o) && CanHub(s, m)
    ensures Inv(HubMoved(s, m))
  {
    match m
    case Tick(later) => TickKeepsAll(s, o, s.(now := later));
    case HubAcquire(tid) => AcquireKeepsAll(s, o, tid, Initiating(s.slots.next + 1), Slots.Initiating);
    case ExemptAcquire(tid) => ExemptAcquireKeepsAll(s, o, tid);
    case TokenDrop(tid) => TokenDropKeepsAll(s, o, tid);
  }

  lemma PrepareMoveKeepsInv(s: State, o: Owner, m: PrepareMove)
    requires All(s, o) && CanPrepare(s, m)
    ensures Inv(PrepareMoved(s, m))
  {
    match m
    case PrepareEnter(tid, key, session) => PlainGoKeepsAll(s, o, tid, Entered(key, session));
    case PrepareCheck(tid) => CheckKeepsAll(s, o, tid);
    case PrepareAcquire(tid) =>
      if s.slots.data.Some? {
        PlainEndKeepsAll(s, o, tid);
      } else {
        AcquireKeepsAll(s, o, tid, Acquired(s, tid).tasks[tid], Slots.Responding);
      }
    case PrepareFail(tid) => TokenDropKeepsAll(s, o, tid);
    case PrepareBuild(tid) => BuildKeepsAll(s, o, tid);
  }

  lemma CommitMoveKeepsInv(s: State, o: Owner, m: CommitMove)
    requires All(s, o) && CanCommit(s, m)
    ensures Inv(CommitMoved(s, m))
  {
    match m
    case PrepareCommit(tid) =>
      if Admits(s, tid) {
        CommitKeepsAll(s, o, tid);
      } else {
        RefuseKeepsAll(s, o, tid);
      }
    case PrepareUndo(tid) => UndoKeepsAll(s, o, tid);
    case DropRun(tid) => DropKeepsAll(s, o, tid);
  }

  lemma StartMoveKeepsInv(s: State, o: Owner, m: StartMove)
    requires All(s, o) && CanStart(s, m)
    ensures Inv(StartMoved(s, m))
  {
    match m
    case StartFind(tid, key) => PlainGoKeepsAll(s, o, tid, StartFound(s.tables.runs[key]));
    case StartClaim(tid) => ClaimStartKeepsAll(s, o, tid);
    case StartLock(tid) => StartKeepsAll(s, o, tid);
    case StartReturn(tid) => ReturnKeepsAll(s, o, tid);
  }

  lemma AbortMoveKeepsInv(s: State, o: Owner, m: AbortMove)
    requires All(s, o) && CanAbort(s, m)
    ensures Inv(AbortMoved(s, m))
  {
    match m
    case AbortTake(tid, key) => AbortTakeKeepsAll(s, o, tid, key);
    case AbortEmpty(tid) => AbortKeepsAll(s, o, tid);
    case AbortRelease(tid) => ReleaseKeepsAll(s, o, tid);
    case CancelMiss(tid, key) => PlainGoKeepsAll(s, o, tid, CancelMissed(key));
    case CancelBury(tid) => BuryKeepsAll(s, o, tid);
  }

  lemma FinishMoveKeepsInv(s: State, o: Owner, m: FinishMove)
    requires All(s, o) && CanFinish(s, m)
    ensures Inv(FinishMoved(s, m))
  {
    match m
    case FinishArrive(tid, key, id) =>
      if key in s.tables.runs {
        FirstFinishKeepsAll(s, o, tid, key, id);
      } else {
        DuplicateFinishKeepsAll(s, o, tid, key, id);
      }
    case FinishEmpty(tid, result) => FinishKeepsAll(s, o, tid, result);
    case FinishRelease(tid) => FreeSlotKeepsAll(s, o, tid);
  }

  lemma AckMoveKeepsInv(s: State, o: Owner, m: AckMove)
    requires All(s, o) && CanAck(s, m)
    ensures Inv(AckMoved(s, m))
  {
    match m
    case FinishPublish(tid) => PublishKeepsAll(s, o, tid);
    case FinishStamp(tid) => StampKeepsAll(s, o, tid);
    case FinishAnswer(tid) => AnswerKeepsAll(s, o, tid);
    case FinishGiveUp(tid) => PlainEndKeepsAll(s, o, tid);
    case FinishDeny(tid) => DenyKeepsAll(s, o, tid);
  }

  lemma StopMoveKeepsInv(s: State, o: Owner, m: StopMove)
    requires All(s, o) && CanStop(s, m)
    ensures Inv(StopMoved(s, m))
  {
    match m
    case StopFlag(session) => TickKeepsAll(s, o, s.(stopping := s.stopping + {session}));
    case StopList(tid, session) => StopListKeepsAll(s, o, tid, session);
    case StopNext(tid, key, child) => StopNextKeepsAll(s, o, tid, key, child);
    case StopEnd(tid) => StopEndKeepsAll(s, o, tid);
  }

  lemma VanishKeepsInv(s: State, o: Owner, tid: TaskId)
    requires All(s, o) && tid in s.tasks
    ensures Inv(Vanished(s, tid))
  {
    var t := s.tasks[tid];
    if t.Initiating? || t.Exempt? || t.Holding? {
      TokenDropKeepsAll(s, o, tid);
    } else if Carries(t) {
      LetGoKeepsAll(s, o, tid, Vanished(s, tid));
    } else if t.StartRunning? {
      assert CanReturn(s, tid);
      ReturnKeepsAll(s, o, tid);
    } else if t.FinishReleased? || t.FinishPublished? {
      FinisherGoneKeepsAll(s, o, tid, Vanished(s, tid));
    } else {
      PlainEndKeepsAll(s, o, tid);
    }
  }

  lemma StepKeepsInv(s: State, step: Step)
    requires Inv(s) && Enabled(s, step)
    ensures Inv(Apply(s, step))
  {
    var o :| All(s, o);
    match step
    case Hub(m) => HubMoveKeepsInv(s, o, m);
    case Prepare(m) => PrepareMoveKeepsInv(s, o, m);
    case Commit(m) => CommitMoveKeepsInv(s, o, m);
    case Start(m) => StartMoveKeepsInv(s, o, m);
    case Abort(m) => AbortMoveKeepsInv(s, o, m);
    case Finish(m) => FinishMoveKeepsInv(s, o, m);
    case Ack(m) => AckMoveKeepsInv(s, o, m);
    case Stop(m) => StopMoveKeepsInv(s, o, m);
    case Vanish(tid) => VanishKeepsInv(s, o, tid);
  }

  lemma {:induction false} RunKeepsInv(s: State, steps: seq<Step>)
    requires Inv(s) && Responder.Runs(s, steps)
    ensures Inv(After(s, steps))
    decreases |steps|
  {
    if steps != [] {
      StepKeepsInv(s, steps[0]);
      RunKeepsInv(Apply(s, steps[0]), steps[1..]);
    }
  }
}
