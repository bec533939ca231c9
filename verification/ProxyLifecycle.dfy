/**
 Proxy adds, removes and the node's stop, interleaved at their lock sections
 and blocking calls. Every add opens directory roots, later a listener, and
 must end with both closed or with both in a live entry.
*/
module ProxyLifecycle {
  import opened Options
  import opened ProxyTable

  /** Where an add stands; Deferred and Removing are its deferred cleanup. */
  datatype Point =
    | Bound | ToPlace | Placing | Unplacing | ToListen | Listened | ToReady | ToCancel | ToInstall
    | Serving | Deferred | Removing | Finished

  /** Local while only the add's task has it, Held by the pending add or its entry, Dropped if closed unheld. */
  datatype Listener = Unopened | Local | Held | Dropped

  /** `served` once the HTTP server has closed the listener it was given, when serving ended or was shut down. */
  datatype Add = Add(id: Id, port: nat, life: Option<nat>, point: Point, aborted: bool, transferred: bool,
                     listener: Listener, rootCloses: nat, listenerCloses: nat, served: bool)

  /**
   `dead` are the lifecycles cancelled, `swept` those a stop has since swept.
   `toAbort` awaits a stop's abort; `closing` are adds whose aborter has taken
   their handles; `toShut` are entries taken out of the table to be shut down.
  */
  datatype State = State(adds: seq<Add>, table: Table, life: Option<nat>, lives: nat, dead: set<nat>,
                         swept: set<nat>, toAbort: set<nat>, closing: set<nat>, toShut: set<nat>)

  const INIT := State([], EMPTY, None, 0, {}, {}, {}, {}, {})

  datatype Listening = Opened | Refused | RefusedOpen

  datatype Move =
    | Admit | Place | Dynamic(conflict: bool) | Unplace | Listen(outcome: Listening) | SetListener
    | Ready(named: bool) | SetCancel | Install | ServeEnds | DeferAbort | DeferRemove

  datatype Step =
    | New(id: Id, port: nat)
    | By(add: nat, move: Move)
    | StartNode
    | StopCancel
    | StopSnapshot
    | StopAbort(add: nat)
    | CloseTaken(add: nat)
    | Remove(id: Id)
    | Shut(add: nat, serving: bool)

  // ----- One add's moves ---------------------------------------------------

  predicate Alive(a: Add, dead: set<nat>) {
    a.life.Some? && a.life.value !in dead
  }

  predicate GaveUp(a: Add) {
    a.aborted || a.transferred
  }

  predicate PortInUse(s: State, port: nat) {
    exists id :: id in s.table.proxies && s.table.proxies[id].Some?
                 && s.table.proxies[id].value < |s.adds| && s.adds[s.table.proxies[id].value].port == port
  }

  function Before(m: Move): Point {
    match m
    case Admit => Bound
    case Place => ToPlace
    case Dynamic(_) => Placing
    case Unplace => Unplacing
    case Listen(_) => ToListen
    case SetListener => Listened
    case Ready(_) => ToReady
    case SetCancel => ToCancel
    case Install => ToInstall
    case ServeEnds => Serving
    case DeferAbort => Deferred
    case DeferRemove => Removing
  }

  predicate Places(s: State, a: Add) {
    a.id !in s.table.proxies && !PortInUse(s, a.port)
  }

  predicate Installs(s: State, i: nat, a: Add) {
    Alive(a, s.dead) && Installable(s.table, a.id, i) && !GaveUp(a)
  }

  /** The add after a move of its own. */
  function Moved(s: State, i: nat, a: Add, m: Move): Add {
    match m
    case Admit => a.(point := if Alive(a, s.dead) then ToPlace else Deferred)
    case Place => a.(point := if Places(s, a) then Placing else Deferred)
    case Dynamic(conflict) => a.(point := if conflict then Unplacing else ToListen)
    case Unplace => a.(point := Deferred)
    case Listen(outcome) =>
      (match outcome
       case Opened => a.(point := Listened, listener := Local)
       case Refused => a.(point := Deferred)
       case RefusedOpen => a.(point := Deferred, listener := Dropped, listenerCloses := a.listenerCloses + 1))
    case SetListener =>
      if GaveUp(a) then a.(point := Deferred, listener := Dropped, listenerCloses := a.listenerCloses + 1)
      else a.(point := ToReady, listener := Held)
    case Ready(named) => a.(point := if named then ToCancel else Deferred)
    case SetCancel => a.(point := if GaveUp(a) then Deferred else ToInstall)
    case Install => if Installs(s, i, a) then a.(point := Serving, transferred := true) else a.(point := Deferred)
    case ServeEnds => ServerCloses(a).(point := Deferred)
    case DeferAbort => a.(point := Removing, aborted := a.aborted || !a.transferred)
    case DeferRemove => a.(point := Finished)
  }

  /** The server closes its listener once, whether serving ends by itself or is shut down. */
  function ServerCloses(a: Add): Add {
    if a.served then a else a.(served := true, listenerCloses := a.listenerCloses + 1)
  }

  function TableMoved(s: State, i: nat, a: Add, m: Move): Table {
    match m
    case Place => if Places(s, a) then Placed(s.table, a.id, i) else s.table
    case Unplace => Unplaced(s.table, a.id, i)
    case Install => if Installs(s, i, a) then Installed(s.table, a.id, i) else s.table
    case DeferRemove => Unplaced(s.table, a.id, i)
    case _ => s.table
  }

  /** Taking the handles to close them happens with the flag; the closing itself comes later. */
  function Taken(s: State, i: nat, a: Add): set<nat> {
    if GaveUp(a) then s.closing else s.closing + {i}
  }

  function Closed(a: Add): Add {
    a.(rootCloses := a.rootCloses + 1,
       listenerCloses := if a.listener.Held? then a.listenerCloses + 1 else a.listenerCloses)
  }

  // ----- Steps -------------------------------------------------------------

  predicate Enabled(s: State, t: Step) {
    match t
    case New(_, _) => true
    case By(i, m) => i < |s.adds| && s.adds[i].point == Before(m)
    case StartNode => true
    case StopCancel => true
    case StopSnapshot => true
    case StopAbort(i) => i in s.toAbort && i < |s.adds|
    case CloseTaken(i) => i in s.closing && i < |s.adds|
    case Remove(id) => true
    case Shut(i, serving) => i in s.toShut && i < |s.adds| && (serving ==> s.adds[i].point.Serving?)
  }

  function Apply(s: State, t: Step): State
    requires Enabled(s, t)
  {
    match t
    case New(id, port) =>
      s.(adds := s.adds + [Add(id, port, s.life, Bound, false, false, Unopened, 0, 0, false)])
    case By(i, m) =>
      var a := s.adds[i];
      s.(adds := s.adds[i := Moved(s, i, a, m)], table := TableMoved(s, i, a, m),
         closing := if m.DeferAbort? then Taken(s, i, a) else s.closing)
    case StartNode => s.(life := Some(s.lives), lives := s.lives + 1)
    case StopCancel => s.(dead := if s.life.Some? then s.dead + {s.life.value} else s.dead)
    case StopSnapshot =>
      s.(table := EMPTY, toAbort := s.toAbort + s.table.pending.Values, toShut := s.toShut + LiveAdds(s.table),
         swept := s.dead)
    case StopAbort(i) =>
      var a := s.adds[i];
      s.(toAbort := s.toAbort - {i}, closing := Taken(s, i, a),
         adds := s.adds[i := a.(aborted := a.aborted || !a.transferred)])
    case CloseTaken(i) => s.(closing := s.closing - {i}, adds := s.adds[i := Closed(s.adds[i])])
    case Remove(id) =>
      if id in s.table.proxies && s.table.proxies[id].Some?
      then s.(table := Removed(s.table, id), toShut := s.toShut + {s.table.proxies[id].value})
      else s
    case Shut(i, serving) =>
      s.(toShut := s.toShut - {i},
         adds := s.adds[i := Closed(if serving then ServerCloses(s.adds[i]) else s.adds[i])])
  }

  ghost predicate Runs(s: State, steps: seq<Step>)
    decreases |steps|
  {
    steps == [] || (Enabled(s, steps[0]) && Runs(Apply(s, steps[0]), steps[1..]))
  }

  ghost function After(s: State, steps: seq<Step>): State
    requires Runs(s, steps)
    decreases |steps|
  {
    if steps == [] then s else After(Apply(s, steps[0]), steps[1..])
  }

  // ----- The invariant -----------------------------------------------------

  predicate Cleaning(p: Point) {
    p.Deferred? || p.Removing? || p.Finished?
  }

  /** An add between placing its id and dropping the placeholder. */
  predicate MayWait(p: Point) {
    p.Placing? || p.Unplacing? || p.ToListen? || p.Listened? || p.ToReady? || p.ToCancel? || p.ToInstall?
    || p.Deferred? || p.Removing?
  }

  /** The roots' one owner: the pending add, its aborter, the table's entry, a shutdown, or nobody once closed. */
  ghost predicate RootsFit(a: Add, live: bool, closing: bool, shutting: bool) {
    if a.aborted then !live && !shutting && a.rootCloses == (if closing then 0 else 1)
    else if a.transferred then
      !closing && !(live && shutting) && a.rootCloses == (if live || shutting then 0 else 1)
    else !live && !shutting && !closing && a.rootCloses == 0
  }

  ghost predicate ListenerFits(a: Add) {
    match a.listener
    case Unopened => a.listenerCloses == 0 && !a.transferred
    case Local => a.listenerCloses == 0 && !a.transferred && a.point.Listened?
    case Held => a.listenerCloses == a.rootCloses + (if a.served then 1 else 0)
    case Dropped => a.listenerCloses == 1 && !a.transferred && Cleaning(a.point)
  }

  ghost predicate PointFits(a: Add, waits: bool) {
    && !(a.aborted && a.transferred)
    && (a.transferred ==> a.point.Serving? || Cleaning(a.point))
    && (a.point.Serving? ==> a.transferred)
    && (a.served ==> a.transferred)
    && (a.transferred && Cleaning(a.point) ==> a.served)
    && (a.point.Removing? || a.point.Finished? ==> GaveUp(a))
    && (waits ==> MayWait(a.point) && !a.transferred)
    && (a.point.Listened? <==> a.listener.Local?)
    && (a.point.ToReady? || a.point.ToCancel? || a.point.ToInstall? ==> a.listener.Held?)
    && (a.listener.Held? ==> a.point.ToReady? || a.point.ToCancel? || a.point.ToInstall? || a.point.Serving?
                             || Cleaning(a.point))
  }

  ghost predicate Fit(a: Add, live: bool, waits: bool, closing: bool, shutting: bool) {
    RootsFit(a, live, closing, shutting) && ListenerFits(a) && PointFits(a, waits)
  }

  ghost predicate TableFits(t: Table, adds: seq<Add>) {
    && Consistent(t)
    && (forall id :: id in t.pending ==> t.pending[id] < |adds| && adds[t.pending[id]].id == id)
    && (forall id :: id in t.proxies && t.proxies[id].Some? ==>
          t.proxies[id].value < |adds| && adds[t.proxies[id].value].id == id)
  }

  ghost predicate AddFits(s: State, i: nat, a: Add) {
    && Fit(a, Live(s.table, a.id, i), Waits(s.table, a.id, i), i in s.closing, i in s.toShut)
    && (Live(s.table, a.id, i) && a.point.Serving? ==> !a.served)
    && (Live(s.table, a.id, i) ==> a.life.Some? && a.life.value !in s.swept)
  }

  ghost predicate Inv(s: State) {
    && TableFits(s.table, s.adds)
    && (forall i :: i in s.toAbort || i in s.closing || i in s.toShut ==> i < |s.adds|)
    && (forall i :: 0 <= i < |s.adds| ==> AddFits(s, i, s.adds[i]))
    && s.swept <= s.dead
  }

  /** A change to one add, its own id in the table and its own obligations leaves every other add fitting. */
  lemma OneAdd(s: State, s': State, i: nat)
    requires Inv(s) && i < |s.adds| == |s'.adds|
    requires forall j :: 0 <= j < |s.adds| && j != i ==> s'.adds[j] == s.adds[j]
    requires forall j :: 0 <= j < |s.adds| && j != i ==>
               && (j in s'.closing <==> j in s.closing) && (j in s'.toShut <==> j in s.toShut)
               && Live(s'.table, s.adds[j].id, j) == Live(s.table, s.adds[j].id, j)
               && (Waits(s'.table, s.adds[j].id, j) ==> Waits(s.table, s.adds[j].id, j))
    requires forall j :: j in s'.toAbort || j in s'.closing || j in s'.toShut ==> j < |s.adds|
    requires s'.swept == s.swept <= s'.dead
    requires TableFits(s'.table, s'.adds) && AddFits(s', i, s'.adds[i])
    ensures Inv(s')
  {
  }

  ghost predicate OthersStand(t: Table, t': Table, adds: seq<Add>, i: nat) {
    forall j :: 0 <= j < |adds| && j != i ==>
      && Live(t', adds[j].id, j) == Live(t, adds[j].id, j)
      && (Waits(t', adds[j].id, j) ==> Waits(t, adds[j].id, j))
  }

  lemma TableOperations(t: Table, adds: seq<Add>, i: nat)
    requires TableFits(t, adds) && i < |adds|
    ensures var id := adds[i].id;
            && (id !in t.proxies ==> TableFits(Placed(t, id, i), adds) && OthersStand(t, Placed(t, id, i), adds, i))
            && TableFits(Unplaced(t, id, i), adds) && OthersStand(t, Unplaced(t, id, i), adds, i)
            && (Installable(t, id, i) ==>
                  TableFits(Installed(t, id, i), adds) && OthersStand(t, Installed(t, id, i), adds, i))
  {
    ConsistencyKept(t, adds[i].id, i);
  }

  lemma SameIds(t: Table, adds: seq<Add>, i: nat, a: Add)
    requires TableFits(t, adds) && i < |adds| && a.id == adds[i].id
    ensures TableFits(t, adds[i := a])
  {
  }

  lemma MoveKeepsTable(s: State, i: nat, m: Move)
    requires TableFits(s.table, s.adds) && i < |s.adds|
    ensures var t := TableMoved(s, i, s.adds[i], m);
            TableFits(t, s.adds[i := Moved(s, i, s.adds[i], m)]) && OthersStand(s.table, t, s.adds, i)
  {
    var t := TableMoved(s, i, s.adds[i], m);
    assert TableFits(t, s.adds) && OthersStand(s.table, t, s.adds, i) by {
      TableOperations(s.table, s.adds, i);
    }
    SameIds(t, s.adds, i, Moved(s, i, s.adds[i], m));
  }

  predicate MovesTable(m: Move) {
    m.Place? || m.Unplace? || m.Install? || m.DeferRemove?
  }

  lemma TableMoveKeepsAdd(s: State, i: nat, a: Add, m: Move)
    requires TableFits(s.table, s.adds) && AddFits(s, i, a) && a.point == Before(m) && MovesTable(m)
    requires s.swept <= s.dead
    ensures AddFits(s.(table := TableMoved(s, i, a, m)), i, Moved(s, i, a, m))
  {
  }

  lemma OwnMoveKeepsAdd(s: State, i: nat, a: Add, m: Move)
    requires AddFits(s, i, a) && a.point == Before(m) && !MovesTable(m)
    ensures AddFits(s.(closing := if m.DeferAbort? then Taken(s, i, a) else s.closing), i, Moved(s, i, a, m))
  {
  }

  lemma MoveKeepsAdd(s: State, i: nat, m: Move)
    requires Inv(s) && Enabled(s, By(i, m))
    ensures AddFits(Apply(s, By(i, m)), i, Moved(s, i, s.adds[i], m))
  {
    var a := s.adds[i];
    assert AddFits(s, i, a);
    if MovesTable(m) {
      TableMoveKeepsAdd(s, i, a, m);
    } else {
      OwnMoveKeepsAdd(s, i, a, m);
    }
  }

  lemma MoveKeepsInv(s: State, i: nat, m: Move)
    requires Inv(s) && Enabled(s, By(i, m))
    ensures Inv(Apply(s, By(i, m)))
  {
    MoveKeepsTable(s, i, m);
    MoveKeepsAdd(s, i, m);
    OneAdd(s, Apply(s, By(i, m)), i);
  }

  lemma SnapshotKeepsInv(s: State)
    requires Inv(s)
    ensures Inv(Apply(s, StopSnapshot))
  {
    var s' := Apply(s, StopSnapshot);
    forall i | 0 <= i < |s.adds| ensures AddFits(s', i, s'.adds[i]) {
      assert AddFits(s, i, s.adds[i]);
      assert i in LiveAdds(s.table) <==> Live(s.table, s.adds[i].id, i);
    }
  }

  lemma RemoveKeepsInv(s: State, id: Id)
    requires Inv(s)
    ensures Inv(Apply(s, Remove(id)))
  {
    if id in s.table.proxies && s.table.proxies[id].Some? {
      var i := s.table.proxies[id].value;
      assert AddFits(s, i, s.adds[i]);
      OneAdd(s, Apply(s, Remove(id)), i);
    }
  }

  lemma StepKeepsInv(s: State, t: Step)
    requires Inv(s) && Enabled(s, t)
    ensures Inv(Apply(s, t))
  {
    match t
    case New(id, port) => NewKeepsInv(s, id, port);
    case By(i, m) => MoveKeepsInv(s, i, m);
    case StartNode => Unmoved(s, Apply(s, t));
    case StopCancel => Unmoved(s, Apply(s, t));
    case StopSnapshot => SnapshotKeepsInv(s);
    case StopAbort(i) =>
      assert AddFits(s, i, s.adds[i]);
      OneAdd(s, Apply(s, t), i);
    case CloseTaken(i) =>
      assert AddFits(s, i, s.adds[i]);
      OneAdd(s, Apply(s, t), i);
    case Remove(id) => RemoveKeepsInv(s, id);
    case Shut(i, _) =>
      assert AddFits(s, i, s.adds[i]);
      OneAdd(s, Apply(s, t), i);
  }

  lemma Unmoved(s: State, s': State)
    requires Inv(s) && s' == s.(life := s'.life, lives := s'.lives, dead := s'.dead) && s.dead <= s'.dead
    ensures Inv(s')
  {
    forall i | 0 <= i < |s.adds| ensures AddFits(s', i, s'.adds[i]) {
      assert AddFits(s, i, s.adds[i]);
    }
  }

  lemma NewKeepsInv(s: State, id: Id, port: nat)
    requires Inv(s)
    ensures Inv(Apply(s, New(id, port)))
  {
    var s' := Apply(s, New(id, port));
    forall i | 0 <= i < |s'.adds| ensures AddFits(s', i, s'.adds[i]) {
      if i < |s.adds| {
        assert AddFits(s, i, s.adds[i]);
      }
    }
  }

  lemma {:induction false} RunKeepsInv(s: State, steps: seq<Step>)
    requires Inv(s) && Runs(s, steps)
    ensures Inv(After(s, steps))
    decreases |steps|
  {
    if steps != [] {
      StepKeepsInv(s, steps[0]);
      RunKeepsInv(Apply(s, steps[0]), steps[1..]);
    }
  }

  // ----- What follows ------------------------------------------------------

  ghost predicate Reachable(s: State, steps: seq<Step>) {
    Runs(INIT, steps) && s == After(INIT, steps)
  }

  datatype Owner = PendingAdd | Aborter | Entry | Shutdown

  /** Who will close the roots of add `i`. */
  ghost predicate Owns(s: State, i: nat, o: Owner)
    requires i < |s.adds|
  {
    match o
    case PendingAdd => !GaveUp(s.adds[i])
    case Aborter => i in s.closing
    case Entry => Live(s.table, s.adds[i].id, i)
    case Shutdown => i in s.toShut
  }

  /**
   In every reachable state each add's roots are open and have exactly one
   closing owner, or are closed, once, and have none. A listener held has the
   same owner, who closes it once; an installed one is closed once more by the
   HTTP server it was given to.
  */
  lemma OneOwner(s: State, steps: seq<Step>, i: nat)
    requires Reachable(s, steps) && i < |s.adds|
    ensures s.adds[i].rootCloses <= 1
    ensures s.adds[i].rootCloses == 0 <==> exists o :: Owns(s, i, o)
    ensures forall o, o' :: Owns(s, i, o) && Owns(s, i, o') ==> o == o'
    ensures var a := s.adds[i];
            match a.listener
            case Unopened => a.listenerCloses == 0
            case Local => a.listenerCloses == 0 && a.point.Listened?
            case Held =>
              a.listenerCloses == a.rootCloses + (if a.served then 1 else 0) && (a.served ==> a.transferred)
            case Dropped => a.listenerCloses == 1 && !a.transferred
  {
    RunKeepsInv(INIT, steps);
    var a := s.adds[i];
    assert AddFits(s, i, a);
    assert a.rootCloses == 0 ==>
             Owns(s, i, PendingAdd) || Owns(s, i, Aborter) || Owns(s, i, Entry) || Owns(s, i, Shutdown);
  }

  /** In every reachable state the ids mapped to nil are exactly the pending ids, each its own add's. */
  lemma PlaceholdersArePending(s: State, steps: seq<Step>, id: Id)
    requires Reachable(s, steps)
    ensures id in s.table.pending <==> id in s.table.proxies && s.table.proxies[id].None?
    ensures id in s.table.pending ==>
              s.table.pending[id] < |s.adds| && s.adds[s.table.pending[id]].id == id
              && !s.adds[s.table.pending[id]].transferred
  {
    RunKeepsInv(INIT, steps);
    if id in s.table.pending {
      assert AddFits(s, s.table.pending[id], s.adds[s.table.pending[id]]);
    }
  }

  /** An add's cleanup removes its own placeholder and nothing else. */
  lemma CleanupSparesOthers(s: State, steps: seq<Step>, i: nat, m: Move, other: Id)
    requires Reachable(s, steps) && Enabled(s, By(i, m)) && (m.DeferRemove? || m.Unplace?)
    ensures var t := Apply(s, By(i, m)).table;
            && (other in t.proxies <==> other in s.table.proxies && !Waits(s.table, other, i))
            && (other in t.proxies ==> t.proxies[other] == s.table.proxies[other])
            && (forall a :: Live(s.table, other, a) ==> Live(t, other, a))
            && (forall a :: Waits(s.table, other, a) && a != i ==> Waits(t, other, a))
  {
    RunKeepsInv(INIT, steps);
    UnplacedSparesOthers(s.table, s.adds[i].id, i, other);
  }

  lemma {:induction false} SweptStays(s: State, steps: seq<Step>, life: nat)
    requires Runs(s, steps) && life in s.swept && s.swept <= s.dead
    ensures life in After(s, steps).swept
    decreases |steps|
  {
    if steps != [] {
      SweptStays(Apply(s, steps[0]), steps[1..], life);
    }
  }

  /** Once a stop has taken its snapshot, no proxy of the cancelled lifecycle is ever live again. */
  lemma {:induction false} NoInstallAfterStop(s: State, steps: seq<Step>, later: seq<Step>, id: Id, i: nat)
    requires Reachable(s, steps) && Runs(Apply(s, StopSnapshot), later)
    ensures var end := After(Apply(s, StopSnapshot), later);
            Live(end.table, id, i) ==> i < |end.adds| && end.adds[i].life.Some? && end.adds[i].life.value !in s.dead
  {
    RunKeepsInv(INIT, steps);
    StepKeepsInv(s, StopSnapshot);
    RunKeepsInv(Apply(s, StopSnapshot), later);
    var end := After(Apply(s, StopSnapshot), later);
    if Live(end.table, id, i) {
      assert AddFits(end, i, end.adds[i]);
      if end.adds[i].life.value in s.dead {
        SweptStays(Apply(s, StopSnapshot), later, end.adds[i].life.value);
      }
    }
  }

  /** Nothing is in flight: every add serves or has finished, and nothing waits to be closed. */
  ghost predicate AtRest(s: State) {
    && (forall i :: 0 <= i < |s.adds| ==> s.adds[i].point.Serving? || s.adds[i].point.Finished?)
    && s.closing == {} && s.toShut == {}
  }

  /**
   At rest no handle leaks: the open roots are those of the table's entries, and
   the open listeners those of the entries that still serve. An entry whose
   serving has ended stays in the table with its listener closed.
  */
  lemma NothingLeaks(s: State, steps: seq<Step>, i: nat)
    requires Reachable(s, steps) && AtRest(s) && i < |s.adds|
    ensures s.adds[i].rootCloses == 0 <==> Live(s.table, s.adds[i].id, i)
    ensures !s.adds[i].listener.Unopened? ==>
              (s.adds[i].listenerCloses == 0 <==> Live(s.table, s.adds[i].id, i) && s.adds[i].point.Serving?)
    ensures s.table.pending == map[]
  {
    RunKeepsInv(INIT, steps);
    assert AddFits(s, i, s.adds[i]);
    WaitingMoves(s);
  }

  lemma WaitingMoves(s: State)
    requires Inv(s)
    ensures forall id :: id in s.table.pending ==>
              s.table.pending[id] < |s.adds| && MayWait(s.adds[s.table.pending[id]].point)
  {
    forall id | id in s.table.pending ensures MayWait(s.adds[s.table.pending[id]].point) {
      assert AddFits(s, s.table.pending[id], s.adds[s.table.pending[id]]);
    }
  }
}
