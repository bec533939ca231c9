/**
 The responder's run protocol as a step machine. A step is one lock section or
 atomic operation of a handler, so handlers interleave freely between steps:
 prepare, start, finish, cancel, the watchdog, the hub's stop, and the hub's
 own runs competing for the slot. Any handler may also vanish at an await (a
 panic, or its runtime going away), dropping what it held.
*/
module Responder {
  import opened Options
  import opened RemoteRuns
  import Slots

  type TaskId = nat

  type Session = nat

  datatype Call = CallStart | CallFinish | CallCancel

  /** A prepared run, named by the slot token it was prepared under. */
  datatype Run = Run(
    key: Key,
    session: Session,
    token: bool,          // still holds its slot token
    cell: bool,           // the workload is still in its cell
    lock: Option<TaskId>, // who holds the cell's mutex across an await
    started: Option<TaskId>, // the start stamp: which start won it
    calls: seq<Call>,     // what the workload was asked to do, in order
    result: Option<Outcome>, // what its finish returned
    lost: bool)           // dropped with the workload still in its cell

  datatype Task =
    | Initiating(token: Slots.Token)
    | Exempt(token: Slots.Token)
    | Entered(key: Key, session: Session)
    | Checked(key: Key, session: Session)
    | Holding(key: Key, session: Session, token: Slots.Token)
    | Built(run: RunName)
    | Refused(run: RunName)
    | Dropping(run: RunName)
    | StartFound(run: RunName)
    | StartClaimed(run: RunName)
    | StartRunning(run: RunName)
    | AbortTaken(run: RunName)
    | AbortEmptied(run: RunName)
    | CancelMissed(key: Key)
    | FinishTaken(key: Key, id: string, run: RunName, ask: nat)
    | FinishEmptied(key: Key, id: string, run: RunName, outcome: Outcome, ask: nat)
    | FinishReleased(key: Key, id: string, run: RunName, outcome: Outcome, ask: nat)
    | FinishPublished(key: Key, id: string, run: RunName, outcome: Outcome, ask: nat)
    | FinishWaiting(id: string, run: RunName, ask: nat)
    | FinishMissed(id: string, ask: nat)
    | StopLoop(session: Session, todo: set<Key>)

  /** A `finish` that arrived, the handler it went to, and what it found under its key. */
  datatype Request = Request(key: Key, id: string, tid: TaskId, found: FinishClaim)

  /** A `finish.ack` sent by the handler of request `ask`: a run's outcome, or that there is no such run. */
  datatype Reply =
    | Reply(id: string, run: RunName, outcome: Outcome, ask: nat)
    | NoRun(id: string, ask: nat)

  datatype State = State(
    slots: Slots.State,
    tables: Tables,
    heap: map<RunName, Run>,
    channels: Channels,
    tasks: map<TaskId, Task>,
    stopping: set<Session>, // sessions whose stopping flag is set
    stopped: set<Session>,  // sessions whose stop tore down every run it listed
    now: Time,
    asked: seq<Request>,    // every finish that arrived, in order
    replies: seq<Reply>)

  const INIT := State(Slots.EMPTY, NO_RUNS, map[], map[], map[], {}, {}, 0, [], [])

  datatype HubMove =
    | Tick(later: Time)
    | HubAcquire(tid: TaskId)
    | ExemptAcquire(tid: TaskId)
    | TokenDrop(tid: TaskId)

  datatype PrepareMove =
    | PrepareEnter(tid: TaskId, key: Key, session: Session)
    | PrepareCheck(tid: TaskId)
    | PrepareAcquire(tid: TaskId)
    | PrepareFail(tid: TaskId)
    | PrepareBuild(tid: TaskId)

  datatype CommitMove =
    | PrepareCommit(tid: TaskId)
    | PrepareUndo(tid: TaskId)
    | DropRun(tid: TaskId)

  datatype StartMove =
    | StartFind(tid: TaskId, key: Key)
    | StartClaim(tid: TaskId)
    | StartLock(tid: TaskId)
    | StartReturn(tid: TaskId)

  datatype AbortMove =
    | AbortTake(tid: TaskId, key: Key)
    | AbortEmpty(tid: TaskId)
    | AbortRelease(tid: TaskId)
    | CancelMiss(tid: TaskId, key: Key)
    | CancelBury(tid: TaskId)

  datatype FinishMove =
    | FinishArrive(tid: TaskId, key: Key, id: string)
    | FinishEmpty(tid: TaskId, result: Outcome)
    | FinishRelease(tid: TaskId)

  datatype AckMove =
    | FinishPublish(tid: TaskId)
    | FinishStamp(tid: TaskId)
    | FinishAnswer(tid: TaskId)
    | FinishGiveUp(tid: TaskId)
    | FinishDeny(tid: TaskId)

  datatype StopMove =
    | StopFlag(session: Session)
    | StopList(tid: TaskId, session: Session)
    | StopNext(tid: TaskId, key: Key, child: TaskId)
    | StopEnd(tid: TaskId)

  datatype Step =
    | Hub(hub: HubMove)
    | Prepare(prepare: PrepareMove)
    | Commit(commit: CommitMove)
    | Start(start: StartMove)
    | Abort(abort: AbortMove)
    | Finish(finish: FinishMove)
    | Ack(ack: AckMove)
    | Stop(stop: StopMove)
    | Vanish(tid: TaskId)

  /** Handlers that own the run they name. */
  predicate Carries(t: Task) {
    || t.Built? || t.Refused? || t.Dropping?
    || t.AbortTaken? || t.AbortEmptied? || t.FinishTaken? || t.FinishEmptied?
  }

  /** Handlers that hold the sending half of the run's finish channel. */
  predicate Sends(t: Task) {
    t.FinishTaken? || t.FinishEmptied? || t.FinishReleased? || t.FinishPublished?
  }

  /** Tasks that reference a run keep it allocated. */
  predicate Names(t: Task, run: RunName) {
    match t
    case Built(r) => r == run
    case Refused(r) => r == run
    case Dropping(r) => r == run
    case StartFound(r) => r == run
    case StartClaimed(r) => r == run
    case StartRunning(r) => r == run
    case AbortTaken(r) => r == run
    case AbortEmptied(r) => r == run
    case FinishTaken(_, _, r, _) => r == run
    case FinishEmptied(_, _, r, _, _) => r == run
    case FinishReleased(_, _, r, _, _) => r == run
    case _ => false
  }

  // ----- Building blocks ---------------------------------------------------

  function Go(s: State, tid: TaskId, t: Task): State {
    s.(tasks := s.tasks[tid := t])
  }

  function End(s: State, tid: TaskId): State {
    s.(tasks := s.tasks - {tid})
  }

  function Free(s: State, token: Slots.Token): State {
    s.(slots := Slots.Release(s.slots, token))
  }

  function Put(s: State, r: RunName, run: Run): State {
    s.(heap := s.heap[r := run])
  }

  /** Take the workload out of its cell, if it is there, and call it. */
  function Consume(run: Run, call: Call): Run {
    if run.cell then run.(cell := false, calls := run.calls + [call]) else run
  }

  function ConsumeByFinish(run: Run, result: Outcome): Run {
    if run.cell then Consume(run, CallFinish).(result := Some(result)) else run
  }

  function Acquire(s: State, role: Slots.Role): Slots.State {
    Slots.Register(s.slots, Some(Slots.Holder(role, "")))
  }

  ghost predicate Unlocked(s: State, run: RunName) {
    run in s.heap && s.heap[run].lock.None?
  }

  // ----- The steps: each a guard, and what it does -------------------------

  ghost predicate CanTokenDrop(s: State, tid: TaskId) {
    tid in s.tasks && (s.tasks[tid].Initiating? || s.tasks[tid].Exempt?)
  }

  ghost function TokenDropped(s: State, tid: TaskId): State
    requires CanTokenDrop(s, tid)
  {
    End(Free(s, s.tasks[tid].token), tid)
  }

  ghost predicate CanCheck(s: State, tid: TaskId) {
    tid in s.tasks && s.tasks[tid].Entered?
  }

  ghost function KeyChecked(s: State, tid: TaskId): State
    requires CanCheck(s, tid)
  {
    var t := s.tasks[tid];
    var tables := Prune(s.tables, s.now, s.channels);
    if CheckKey(tables, t.key) == Accepted
    then Go(s.(tables := tables), tid, Checked(t.key, t.session))
    else End(s.(tables := tables), tid)
  }

  ghost predicate CanAcquire(s: State, tid: TaskId) {
    tid in s.tasks && s.tasks[tid].Checked?
  }

  ghost function Acquired(s: State, tid: TaskId): State
    requires CanAcquire(s, tid)
  {
    var t := s.tasks[tid];
    if s.slots.data.Some? then End(s, tid)
    else Go(s.(slots := Acquire(s, Slots.Responding)), tid,
            Holding(t.key, t.session, s.slots.next + 1))
  }

  ghost predicate CanBuild(s: State, tid: TaskId) {
    tid in s.tasks && s.tasks[tid].Holding?
  }

  ghost function PrepareFailed(s: State, tid: TaskId): State
    requires CanBuild(s, tid)
  {
    End(Free(s, s.tasks[tid].token), tid)
  }

  ghost function RunBuilt(s: State, tid: TaskId): State
    requires CanBuild(s, tid)
  {
    var t := s.tasks[tid];
    Go(Put(s, t.token, Run(t.key, t.session, true, true, None, None, [], None, false)), tid, Built(t.token))
  }

  ghost predicate CanCommitRun(s: State, tid: TaskId) {
    tid in s.tasks && s.tasks[tid].Built? && s.tasks[tid].run in s.heap
  }

  ghost predicate Admits(s: State, tid: TaskId)
    requires CanCommitRun(s, tid)
  {
    var run := s.heap[s.tasks[tid].run];
    CheckCommit(Prune(s.tables, s.now, s.channels), run.key, run.session in s.stopping) == Accepted
  }

  /** The commit rechecks the tombstone and the stopping flag, not the key. */
  ghost function Committed(s: State, tid: TaskId): State
    requires CanCommitRun(s, tid)
  {
    var r := s.tasks[tid].run;
    var tables := Prune(s.tables, s.now, s.channels);
    if Admits(s, tid)
    then End(s.(tables := Insert(tables, s.heap[r].key, r)), tid)
    else Go(s.(tables := tables), tid, Refused(r))
  }

  ghost predicate CanUndo(s: State, tid: TaskId) {
    tid in s.tasks && s.tasks[tid].Refused? && Unlocked(s, s.tasks[tid].run)
  }

  ghost function Undone(s: State, tid: TaskId): State
    requires CanUndo(s, tid)
  {
    var r := s.tasks[tid].run;
    Go(Put(s, r, Consume(s.heap[r], CallCancel)), tid, Dropping(r))
  }

  /** The last reference goes: nothing else names the run any more. */
  ghost predicate CanDrop(s: State, tid: TaskId) {
    && tid in s.tasks && s.tasks[tid].Dropping? && s.tasks[tid].run in s.heap
    && forall u :: u in s.tasks && Names(s.tasks[u], s.tasks[tid].run) ==> u == tid
  }

  ghost function RunDropped(s: State, tid: TaskId): State
    requires CanDrop(s, tid)
  {
    var r := s.tasks[tid].run;
    End(Free(Put(s, r, s.heap[r].(token := false, lost := s.heap[r].cell)), r), tid)
  }

  ghost predicate CanClaimStart(s: State, tid: TaskId) {
    tid in s.tasks && s.tasks[tid].StartFound? && s.tasks[tid].run in s.heap
  }

  ghost function StartClaimedBy(s: State, tid: TaskId): State
    requires CanClaimStart(s, tid)
  {
    var r := s.tasks[tid].run;
    if s.heap[r].started.Some? then End(s, tid)
    else Go(Put(s, r, s.heap[r].(started := Some(tid))), tid, StartClaimed(r))
  }

  ghost predicate CanStartRun(s: State, tid: TaskId) {
    tid in s.tasks && s.tasks[tid].StartClaimed? && Unlocked(s, s.tasks[tid].run)
  }

  /** `start` keeps the cell's mutex while the workload's start runs. */
  ghost function Started(s: State, tid: TaskId): State
    requires CanStartRun(s, tid)
  {
    var r := s.tasks[tid].run;
    var run := s.heap[r];
    if run.cell
    then Go(Put(s, r, run.(calls := run.calls + [CallStart], lock := Some(tid))), tid, StartRunning(r))
    else End(s, tid)
  }

  ghost predicate CanReturn(s: State, tid: TaskId) {
    tid in s.tasks && s.tasks[tid].StartRunning? && s.tasks[tid].run in s.heap
  }

  ghost function StartReturned(s: State, tid: TaskId): State
    requires CanReturn(s, tid)
  {
    var r := s.tasks[tid].run;
    End(Put(s, r, s.heap[r].(lock := None)), tid)
  }

  ghost function AbortBegun(s: State, tid: TaskId, key: Key): State
    requires key in s.tables.runs
  {
    Go(s.(tables := Take(s.tables, key)), tid, AbortTaken(s.tables.runs[key]))
  }

  ghost predicate CanAbortRun(s: State, tid: TaskId) {
    tid in s.tasks && s.tasks[tid].AbortTaken? && Unlocked(s, s.tasks[tid].run)
  }

  ghost function Aborted(s: State, tid: TaskId): State
    requires CanAbortRun(s, tid)
  {
    var r := s.tasks[tid].run;
    Go(Put(s, r, Consume(s.heap[r], CallCancel)), tid, AbortEmptied(r))
  }

  ghost predicate CanRelease(s: State, tid: TaskId) {
    tid in s.tasks && s.tasks[tid].AbortEmptied? && s.tasks[tid].run in s.heap
  }

  ghost function Released(s: State, tid: TaskId): State
    requires CanRelease(s, tid)
  {
    var r := s.tasks[tid].run;
    End(Free(Put(s, r, s.heap[r].(token := false)), r), tid)
  }

  ghost predicate CanBury(s: State, tid: TaskId) {
    tid in s.tasks && s.tasks[tid].CancelMissed?
  }

  ghost function Buried(s: State, tid: TaskId): State
    requires CanBury(s, tid)
  {
    End(s.(tables := Bury(Prune(s.tables, s.now, s.channels), s.tasks[tid].key, s.now)), tid)
  }

  /** The first finish takes the run; a duplicate waits for its outcome; another is told there is no run. */
  ghost function FinishArrived(s: State, tid: TaskId, key: Key, id: string): State {
    var pruned := Prune(s.tables, s.now, s.channels);
    var found := ClaimOf(pruned, key, id);
    var s1 := s.(tables := Claim(pruned, key, id), asked := s.asked + [Request(key, id, tid, found)]);
    match found
    case First(r) =>
      Go(s1.(channels := s.channels[r := Channel(None, Some(tid))]), tid, FinishTaken(key, id, r, |s.asked|))
    case Duplicate(_, r) => Go(s1, tid, FinishWaiting(id, r, |s.asked|))
    case Unknown => Go(s1, tid, FinishMissed(id, |s.asked|))
  }

  ghost predicate CanFinishRun(s: State, tid: TaskId) {
    tid in s.tasks && s.tasks[tid].FinishTaken? && Unlocked(s, s.tasks[tid].run)
  }

  ghost function Finished(s: State, tid: TaskId, result: Outcome): State
    requires CanFinishRun(s, tid)
  {
    var t := s.tasks[tid];
    Go(Put(s, t.run, ConsumeByFinish(s.heap[t.run], result)), tid,
       FinishEmptied(t.key, t.id, t.run, if s.heap[t.run].cell then result else AlreadyFinished, t.ask))
  }

  ghost predicate CanFreeSlot(s: State, tid: TaskId) {
    tid in s.tasks && s.tasks[tid].FinishEmptied? && s.tasks[tid].run in s.heap
  }

  ghost function SlotFreed(s: State, tid: TaskId): State
    requires CanFreeSlot(s, tid)
  {
    var t := s.tasks[tid];
    Go(Free(Put(s, t.run, s.heap[t.run].(token := false)), t.run), tid,
       FinishReleased(t.key, t.id, t.run, t.outcome, t.ask))
  }

  ghost predicate CanPublish(s: State, tid: TaskId) {
    tid in s.tasks && s.tasks[tid].FinishReleased? && s.tasks[tid].run in s.channels
  }

  ghost function Published(s: State, tid: TaskId): State
    requires CanPublish(s, tid)
  {
    var t := s.tasks[tid];
    Go(s.(channels := s.channels[t.run := s.channels[t.run].(ack := Some(t.outcome))]), tid,
       FinishPublished(t.key, t.id, t.run, t.outcome, t.ask))
  }

  ghost predicate CanStamp(s: State, tid: TaskId) {
    tid in s.tasks && s.tasks[tid].FinishPublished? && s.tasks[tid].run in s.channels
  }

  ghost function Stamped(s: State, tid: TaskId): State
    requires CanStamp(s, tid)
  {
    var t := s.tasks[tid];
    End(Hush(s, t.run).(tables := Expire(s.tables, t.key, s.now),
        replies := s.replies + [Reply(t.id, t.run, t.outcome, t.ask)]), tid)
  }

  ghost predicate CanAnswer(s: State, tid: TaskId) {
    && tid in s.tasks && s.tasks[tid].FinishWaiting?
    && s.tasks[tid].run in s.channels && s.channels[s.tasks[tid].run].ack.Some?
  }

  ghost function Answered(s: State, tid: TaskId): State
    requires CanAnswer(s, tid)
  {
    var t := s.tasks[tid];
    End(s.(replies := s.replies + [Reply(t.id, t.run, s.channels[t.run].ack.value, t.ask)]), tid)
  }

  ghost predicate CanDeny(s: State, tid: TaskId) {
    tid in s.tasks && s.tasks[tid].FinishMissed?
  }

  ghost function Denied(s: State, tid: TaskId): State
    requires CanDeny(s, tid)
  {
    End(s.(replies := s.replies + [NoRun(s.tasks[tid].id, s.tasks[tid].ask)]), tid)
  }

  ghost predicate CanStopNext(s: State, tid: TaskId, key: Key, child: TaskId) {
    tid in s.tasks && s.tasks[tid].StopLoop? && key in s.tasks[tid].todo && child !in s.tasks
  }

  ghost function StopNextTaken(s: State, tid: TaskId, key: Key, child: TaskId): State
    requires CanStopNext(s, tid, key, child)
  {
    var s1 := if key in s.tables.runs then AbortBegun(s, child, key) else s;
    Go(s1, tid, StopLoop(s.tasks[tid].session, s.tasks[tid].todo - {key}))
  }

  ghost predicate CanStopEnd(s: State, tid: TaskId) {
    tid in s.tasks && s.tasks[tid].StopLoop? && s.tasks[tid].todo == {}
  }

  ghost function StopEnded(s: State, tid: TaskId): State
    requires CanStopEnd(s, tid)
  {
    End(s.(stopped := s.stopped + {s.tasks[tid].session}), tid)
  }

  /** The sender of a finish channel goes away. */
  ghost function Hush(s: State, run: RunName): State {
    if run in s.channels
    then s.(channels := s.channels[run := s.channels[run].(sender := None)])
    else s
  }

  /** A handler's future is dropped: so is everything it held. */
  ghost function Vanished(s: State, tid: TaskId): State
    requires tid in s.tasks
  {
    var t := s.tasks[tid];
    var s1 := if Sends(t) then Hush(s, t.run) else s;
    if t.Initiating? || t.Exempt? || t.Holding? then End(Free(s, t.token), tid)
    else if Carries(t) then Go(s1, tid, Dropping(t.run))
    else if t.StartRunning? && t.run in s.heap then
      End(Put(s, t.run, s.heap[t.run].(lock := None)), tid)
    else End(s1, tid)
  }

  ghost predicate CanHub(s: State, m: HubMove) {
    match m
    case Tick(later) => later >= s.now
    case HubAcquire(tid) => tid !in s.tasks && s.slots.data.None?
    case ExemptAcquire(tid) => tid !in s.tasks
    case TokenDrop(tid) => CanTokenDrop(s, tid)
  }

  ghost function HubMoved(s: State, m: HubMove): State
    requires CanHub(s, m)
  {
    match m
    case Tick(later) => s.(now := later)
    case HubAcquire(tid) =>
      Go(s.(slots := Acquire(s, Slots.Initiating)), tid, Initiating(s.slots.next + 1))
    case ExemptAcquire(tid) =>
      Go(s.(slots := Slots.Register(s.slots, None)), tid, Exempt(s.slots.next + 1))
    case TokenDrop(tid) => TokenDropped(s, tid)
  }

  ghost predicate CanPrepare(s: State, m: PrepareMove) {
    match m
    case PrepareEnter(tid, _, session) => tid !in s.tasks && session !in s.stopping
    case PrepareCheck(tid) => CanCheck(s, tid)
    case PrepareAcquire(tid) => CanAcquire(s, tid)
    case PrepareFail(tid) => CanBuild(s, tid)
    case PrepareBuild(tid) => CanBuild(s, tid)
  }

  ghost function PrepareMoved(s: State, m: PrepareMove): State
    requires CanPrepare(s, m)
  {
    match m
    case PrepareEnter(tid, key, session) => Go(s, tid, Entered(key, session))
    case PrepareCheck(tid) => KeyChecked(s, tid)
    case PrepareAcquire(tid) => Acquired(s, tid)
    case PrepareFail(tid) => PrepareFailed(s, tid)
    case PrepareBuild(tid) => RunBuilt(s, tid)
  }

  ghost predicate CanCommit(s: State, m: CommitMove) {
    match m
    case PrepareCommit(tid) => CanCommitRun(s, tid)
    case PrepareUndo(tid) => CanUndo(s, tid)
    case DropRun(tid) => CanDrop(s, tid)
  }

  ghost function CommitMoved(s: State, m: CommitMove): State
    requires CanCommit(s, m)
  {
    match m
    case PrepareCommit(tid) => Committed(s, tid)
    case PrepareUndo(tid) => Undone(s, tid)
    case DropRun(tid) => RunDropped(s, tid)
  }

  ghost predicate CanStart(s: State, m: StartMove) {
    match m
    case StartFind(tid, key) => tid !in s.tasks && key in s.tables.runs
    case StartClaim(tid) => CanClaimStart(s, tid)
    case StartLock(tid) => CanStartRun(s, tid)
    case StartReturn(tid) => CanReturn(s, tid)
  }

  ghost function StartMoved(s: State, m: StartMove): State
    requires CanStart(s, m)
  {
    match m
    case StartFind(tid, key) => Go(s, tid, StartFound(s.tables.runs[key]))
    case StartClaim(tid) => StartClaimedBy(s, tid)
    case StartLock(tid) => Started(s, tid)
    case StartReturn(tid) => StartReturned(s, tid)
  }

  ghost predicate CanAbort(s: State, m: AbortMove) {
    match m
    case AbortTake(tid, key) => tid !in s.tasks && key in s.tables.runs
    case AbortEmpty(tid) => CanAbortRun(s, tid)
    case AbortRelease(tid) => CanRelease(s, tid)
    case CancelMiss(tid, key) => tid !in s.tasks && key !in s.tables.runs
    case CancelBury(tid) => CanBury(s, tid)
  }

  ghost function AbortMoved(s: State, m: AbortMove): State
    requires CanAbort(s, m)
  {
    match m
    case AbortTake(tid, key) => AbortBegun(s, tid, key)
    case AbortEmpty(tid) => Aborted(s, tid)
    case AbortRelease(tid) => Released(s, tid)
    case CancelMiss(tid, key) => Go(s, tid, CancelMissed(key))
    case CancelBury(tid) => Buried(s, tid)
  }

  ghost predicate CanFinish(s: State, m: FinishMove) {
    match m
    case FinishArrive(tid, _, _) => tid !in s.tasks
    case FinishEmpty(tid, result) => CanFinishRun(s, tid) && !result.AlreadyFinished?
    case FinishRelease(tid) => CanFreeSlot(s, tid)
  }

  ghost function FinishMoved(s: State, m: FinishMove): State
    requires CanFinish(s, m)
  {
    match m
    case FinishArrive(tid, key, id) => FinishArrived(s, tid, key, id)
    case FinishEmpty(tid, result) => Finished(s, tid, result)
    case FinishRelease(tid) => SlotFreed(s, tid)
  }

  ghost predicate CanAck(s: State, m: AckMove) {
    match m
    case FinishPublish(tid) => CanPublish(s, tid)
    case FinishStamp(tid) => CanStamp(s, tid)
    case FinishAnswer(tid) => CanAnswer(s, tid)
    case FinishGiveUp(tid) => tid in s.tasks && s.tasks[tid].FinishWaiting?
    case FinishDeny(tid) => CanDeny(s, tid)
  }

  ghost function AckMoved(s: State, m: AckMove): State
    requires CanAck(s, m)
  {
    match m
    case FinishPublish(tid) => Published(s, tid)
    case FinishStamp(tid) => Stamped(s, tid)
    case FinishAnswer(tid) => Answered(s, tid)
    case FinishGiveUp(tid) => End(s, tid)
    case FinishDeny(tid) => Denied(s, tid)
  }

  ghost predicate CanStop(s: State, m: StopMove) {
    match m
    case StopFlag(_) => true
    case StopList(tid, session) => tid !in s.tasks && session in s.stopping
    case StopNext(tid, key, child) => CanStopNext(s, tid, key, child)
    case StopEnd(tid) => CanStopEnd(s, tid)
  }

  ghost function StopMoved(s: State, m: StopMove): State
    requires CanStop(s, m)
  {
    match m
    case StopFlag(session) => s.(stopping := s.stopping + {session})
    case StopList(tid, session) => Go(s, tid, StopLoop(session, s.tables.runs.Keys))
    case StopNext(tid, key, child) => StopNextTaken(s, tid, key, child)
    case StopEnd(tid) => StopEnded(s, tid)
  }

  ghost predicate Enabled(s: State, step: Step) {
    match step
    case Hub(m) => CanHub(s, m)
    case Prepare(m) => CanPrepare(s, m)
    case Commit(m) => CanCommit(s, m)
    case Start(m) => CanStart(s, m)
    case Abort(m) => CanAbort(s, m)
    case Finish(m) => CanFinish(s, m)
    case Ack(m) => CanAck(s, m)
    case Stop(m) => CanStop(s, m)
    case Vanish(tid) => tid in s.tasks
  }

  ghost function Apply(s: State, step: Step): State
    requires Enabled(s, step)
  {
    match step
    case Hub(m) => HubMoved(s, m)
    case Prepare(m) => PrepareMoved(s, m)
    case Commit(m) => CommitMoved(s, m)
    case Start(m) => StartMoved(s, m)
    case Abort(m) => AbortMoved(s, m)
    case Finish(m) => FinishMoved(s, m)
    case Ack(m) => AckMoved(s, m)
    case Stop(m) => StopMoved(s, m)
    case Vanish(tid) => Vanished(s, tid)
  }

  // ----- Runs of the machine -----------------------------------------------

  ghost predicate Runs(s: State, steps: seq<Step>)
    decreases |steps|
  {
    steps == [] || (Enabled(s, steps[0]) && Runs(Apply(s, steps[0]), steps[1..]))
  }

  ghost function After(s: State, steps: seq<Step>): State
    requires Runs(s, steps)
    decreases |steps|
  {
    if steps == [] then s else After(Apply(s, steps[0]), steps[1..])
  }
}
