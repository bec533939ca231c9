/**
 Egress routes: adds, removes and the node's stop, interleaved at their lock
 sections. One table maps an id to the placeholder of an add in flight or to
 its live route; adds are known by number.
*/
module EgressRoutes {
  import opened Options

  type Id = string

  datatype Slot = Placeholder(add: nat) | Live(add: nat)

  type Routes = map<Id, Slot>

  datatype Point = ToPlace | ToListen | ToInstall | Serving | Failing | Finished

  /** `closes` counts the closing of the add's listener, once `bound`. */
  datatype Add = Add(id: Id, life: nat, point: Point, bound: bool, closes: nat)

  /** `dead` are the lifecycles cancelled, `swept` those a stop has since swept; `toShut` awaits shutdown. */
  datatype State = State(adds: seq<Add>, routes: Routes, life: Option<nat>, lives: nat, dead: set<nat>,
                         swept: set<nat>, toShut: set<nat>)

  const INIT := State([], map[], None, 0, {}, {}, {})

  datatype Move = Place | Listen(ok: bool) | Install | Unplace

  datatype Step =
    | New(id: Id)
    | By(add: nat, move: Move)
    | StartNode
    | StopCancel
    | StopSweep
    | Remove(id: Id)
    | Shut(add: nat)

  predicate Has(routes: Routes, id: Id, slot: Slot) {
    id in routes && routes[id] == slot
  }

  /** Releases an id its own add reserved; never a live route or another add's placeholder. */
  function Released(routes: Routes, id: Id, add: nat): Routes {
    if Has(routes, id, Placeholder(add)) then routes - {id} else routes
  }

  predicate Installs(s: State, i: nat, a: Add) {
    a.life !in s.dead && Has(s.routes, a.id, Placeholder(i))
  }

  function Before(m: Move): Point {
    match m
    case Place => ToPlace
    case Listen(_) => ToListen
    case Install => ToInstall
    case Unplace => Failing
  }

  /** A route that cannot be installed is shut down on the spot. */
  function Moved(s: State, i: nat, a: Add, m: Move): Add {
    match m
    case Place => a.(point := if a.id in s.routes then Finished else ToListen)
    case Listen(ok) => if ok then a.(point := ToInstall, bound := true) else a.(point := Failing)
    case Install =>
      if Installs(s, i, a) then a.(point := Serving) else a.(point := Failing, closes := a.closes + 1)
    case Unplace => a.(point := Finished)
  }

  function RoutesMoved(s: State, i: nat, a: Add, m: Move): Routes {
    match m
    case Place => if a.id in s.routes then s.routes else s.routes[a.id := Placeholder(i)]
    case Listen(_) => s.routes
    case Install => if Installs(s, i, a) then s.routes[a.id := Live(i)] else s.routes
    case Unplace => Released(s.routes, a.id, i)
  }

  function LiveAdds(routes: Routes): set<nat> {
    set id | id in routes && routes[id].Live? :: routes[id].add
  }

  predicate Running(s: State) {
    s.life.Some? && s.life.value !in s.dead
  }

  predicate Enabled(s: State, t: Step) {
    match t
    case By(i, m) => i < |s.adds| && s.adds[i].point == Before(m)
    case Shut(i) => i in s.toShut && i < |s.adds|
    case _ => true
  }

  function Apply(s: State, t: Step): State
    requires Enabled(s, t)
  {
    match t
    case New(id) =>
      if Running(s) then s.(adds := s.adds + [Add(id, s.life.value, ToPlace, false, 0)]) else s
    case By(i, m) =>
      var a := s.adds[i];
      s.(adds := s.adds[i := Moved(s, i, a, m)], routes := RoutesMoved(s, i, a, m))
    case StartNode => s.(life := Some(s.lives), lives := s.lives + 1)
    case StopCancel => s.(dead := if s.life.Some? then s.dead + {s.life.value} else s.dead)
    case StopSweep => s.(routes := map[], toShut := s.toShut + LiveAdds(s.routes), swept := s.dead)
    case Remove(id) =>
      if id in s.routes && s.routes[id].Live?
      then s.(routes := s.routes - {id}, toShut := s.toShut + {s.routes[id].add})
      else s
    case Shut(i) =>
      s.(toShut := s.toShut - {i}, adds := s.adds[i := s.adds[i].(closes := s.adds[i].closes + 1)])
  }

  ghost predicate Runs(s: State, steps: seq<Step>)
    decreases |steps|
  {
    steps == [] || (Enabled(s, steps[0]) && Runs(Apply(s, steps[0]), steps[1..]))
  }

  ghost function After(s: State, steps: seq<Step>): State
    requires Runs(s, steps)
    decreases |steps|
  {
    if steps == [] then s else After(Apply(s, steps[0]), steps[1..])
  }

  // ----- What every run keeps ----------------------------------------------

  /** The listener's one closing owner: the add's task, the table's route, a shutdown, or nobody once closed. */
  ghost predicate Fit(a: Add, live: bool, waits: bool, shutting: bool) {
    && (waits ==> a.point.ToListen? || a.point.ToInstall? || a.point.Failing?)
    && (match a.point
        case ToPlace => !a.bound && a.closes == 0 && !live && !shutting
        case ToListen => !a.bound && a.closes == 0 && !live && !shutting
        case ToInstall => a.bound && a.closes == 0 && !live && !shutting
        case Serving => a.bound && !(live && shutting) && a.closes == (if live || shutting then 0 else 1)
        case _ => !live && !shutting && a.closes == (if a.bound then 1 else 0))
  }

  ghost predicate AddFits(s: State, i: nat, a: Add) {
    && Fit(a, Has(s.routes, a.id, Live(i)), Has(s.routes, a.id, Placeholder(i)), i in s.toShut)
    && (Has(s.routes, a.id, Live(i)) ==> a.life !in s.swept)
  }

  ghost predicate Inv(s: State) {
    && (forall id :: id in s.routes ==> s.routes[id].add < |s.adds| && s.adds[s.routes[id].add].id == id)
    && (forall i :: i in s.toShut ==> i < |s.adds|)
    && (forall i :: 0 <= i < |s.adds| ==> AddFits(s, i, s.adds[i]))
    && s.swept <= s.dead
  }

  lemma MoveKeepsInv(s: State, i: nat, m: Move)
    requires Inv(s) && Enabled(s, By(i, m))
    ensures Inv(Apply(s, By(i, m)))
  {
    var s' := Apply(s, By(i, m));
    assert AddFits(s, i, s.adds[i]);
    forall j | 0 <= j < |s.adds| ensures AddFits(s', j, s'.adds[j]) {
      assert AddFits(s, j, s.adds[j]);
    }
  }

  lemma SweepKeepsInv(s: State)
    requires Inv(s)
    ensures Inv(Apply(s, StopSweep))
  {
    var s' := Apply(s, StopSweep);
    forall i | 0 <= i < |s.adds| ensures AddFits(s', i, s'.adds[i]) {
      assert AddFits(s, i, s.adds[i]);
      assert i in LiveAdds(s.routes) <==> Has(s.routes, s.adds[i].id, Live(i));
    }
  }

  lemma StepKeepsInv(s: State, t: Step)
    requires Inv(s) && Enabled(s, t)
    ensures Inv(Apply(s, t))
  {
    if t.By? {
      MoveKeepsInv(s, t.add, t.move);
    } else if t.StopSweep? {
      SweepKeepsInv(s);
    } else {
      var s' := Apply(s, t);
      forall i | 0 <= i < |s'.adds| ensures AddFits(s', i, s'.adds[i]) {
        if i < |s.adds| {
          assert AddFits(s, i, s.adds[i]);
        }
      }
    }
  }

  lemma {:induction false} RunKeepsInv(s: State, steps: seq<Step>)
    requires Inv(s) && Runs(s, steps)
    ensures Inv(After(s, steps))
    decreases |steps|
  {
    if steps != [] {
      StepKeepsInv(s, steps[0]);
      RunKeepsInv(Apply(s, steps[0]), steps[1..]);
    }
  }

  lemma {:induction false} SweptStays(s: State, steps: seq<Step>, life: nat)
    requires Runs(s, steps) && life in s.swept && s.swept <= s.dead
    ensures life in After(s, steps).swept
    decreases |steps|
  {
    if steps != [] {
      SweptStays(Apply(s, steps[0]), steps[1..], life);
    }
  }

  /** Once a stop has emptied the table, no route of the cancelled lifecycle goes live again. */
  lemma {:induction false} NoRouteAfterStop(steps: seq<Step>, later: seq<Step>, id: Id, i: nat)
    requires Runs(INIT, steps) && Runs(Apply(After(INIT, steps), StopSweep), later)
    ensures var s := After(INIT, steps);
            var end := After(Apply(s, StopSweep), later);
            Has(end.routes, id, Live(i)) ==> i < |end.adds| && end.adds[i].life !in s.dead
  {
    RunKeepsInv(INIT, steps);
    var s := After(INIT, steps);
    StepKeepsInv(s, StopSweep);
    RunKeepsInv(Apply(s, StopSweep), later);
    var end := After(Apply(s, StopSweep), later);
    if Has(end.routes, id, Live(i)) {
      assert AddFits(end, i, end.adds[i]);
      if end.adds[i].life in s.dead {
        SweptStays(Apply(s, StopSweep), later, end.adds[i].life);
      }
    }
  }

  /** A failed add's cleanup removes its own placeholder and nothing else. */
  lemma {:induction false} CleanupSparesOthers(steps: seq<Step>, i: nat, other: Id)
    requires Runs(INIT, steps) && Enabled(After(INIT, steps), By(i, Unplace))
    ensures var s := After(INIT, steps);
            var routes := Apply(s, By(i, Unplace)).routes;
            && (other in routes <==> other in s.routes && !Has(s.routes, other, Placeholder(i)))
            && (other in routes ==> routes[other] == s.routes[other])
  {
    RunKeepsInv(INIT, steps);
  }

  ghost predicate AtRest(s: State) {
    && (forall i :: 0 <= i < |s.adds| ==> s.adds[i].point.Serving? || s.adds[i].point.Finished?)
    && s.toShut == {}
  }

  /** At every moment a listener is closed at most once; at rest the open ones are those of the table's routes. */
  lemma {:induction false} NothingLeaks(steps: seq<Step>, i: nat)
    requires Runs(INIT, steps) && i < |After(INIT, steps).adds|
    ensures var s := After(INIT, steps);
            var a := s.adds[i];
            && a.closes <= 1 && (Has(s.routes, a.id, Live(i)) ==> a.bound && a.closes == 0)
            && (AtRest(s) ==> (a.bound && a.closes == 0 <==> Has(s.routes, a.id, Live(i))))
            && (AtRest(s) ==> forall id :: id in s.routes ==> s.routes[id].Live?)
  {
    RunKeepsInv(INIT, steps);
    var s := After(INIT, steps);
    assert AddFits(s, i, s.adds[i]);
    Waiting(s);
  }

  lemma Waiting(s: State)
    requires Inv(s)
    ensures forall id :: id in s.routes && s.routes[id].Placeholder? ==>
              && s.routes[id].add < |s.adds|
              && !s.adds[s.routes[id].add].point.Serving? && !s.adds[s.routes[id].add].point.Finished?
  {
    forall id | id in s.routes && s.routes[id].Placeholder?
      ensures !s.adds[s.routes[id].add].point.Serving? && !s.adds[s.routes[id].add].point.Finished?
    {
      assert AddFits(s, s.routes[id].add, s.adds[s.routes[id].add]);
    }
  }
}
