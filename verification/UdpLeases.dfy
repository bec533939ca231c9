/**
 UDP relays: a lease reserves its id before it binds, so that a cancellation
 that comes first closes this lease and not one that reuses its port. Leases
 are known by number; `open` says that a lease's two sockets are.
*/
module UdpLeases {
  import opened Conns
  import opened Options

  type Id = string

  // ----- One relay ---------------------------------------------------------

  class Relay {
    var closed: bool
    var tsnet: Option<Conn>
    var local: Option<Conn>

    /** A closed relay holds only closed sockets. */
    ghost predicate Valid()
      reads this
      reads if tsnet.Some? then {tsnet.value} else {}
      reads if local.Some? then {local.value} else {}
    {
      && (closed && tsnet.Some? ==> tsnet.value.closed)
      && (closed && local.Some? ==> local.value.closed)
    }

    constructor ()
      ensures Valid() && !closed && tsnet.None? && local.None?
    {
      closed, tsnet, local := false, None, None;
    }

    method Close()
      requires Valid()
      modifies this`closed
      modifies if tsnet.Some? then {tsnet.value} else {}
      modifies if local.Some? then {local.value} else {}
      ensures Valid() && closed
    {
      if closed {
        return;
      }
      closed := true;
      if tsnet.Some? {
        tsnet.value.Close();
      }
      if local.Some? {
        local.value.Close();
      }
    }

    /** Sockets that come after the close are closed here and not kept. */
    method Attach(ts: Conn, lo: Conn) returns (ok: bool)
      requires Valid()
      modifies this`tsnet, this`local, ts, lo
      ensures Valid() && ok == !closed
      ensures if ok then tsnet == Some(ts) && local == Some(lo)
                         && ts.closed == old(ts.closed) && lo.closed == old(lo.closed)
              else tsnet == old(tsnet) && local == old(local) && ts.closed && lo.closed
    {
      if closed {
        ts.Close();
        lo.Close();
        return false;
      }
      tsnet, local := Some(ts), Some(lo);
      return true;
    }
  }

  // ----- All leases --------------------------------------------------------

  datatype Point = Binding | Bound | Running | Exiting | ToClose | Finished

  datatype Lease = Lease(id: Id, point: Point, closed: bool, attached: bool, open: bool)

  datatype State = State(leases: seq<Lease>, table: map<Id, nat>, toClose: set<nat>)

  const INIT := State([], map[], {})

  datatype Step =
    | Reserve(id: Id)
    | Bind(lease: nat, ok: bool)
    | Attach(lease: nat)
    | RunEnds(lease: nat)
    | CloseAny(lease: nat)
    | Unreserve(lease: nat)
    | LastClose(lease: nat)
    | Unlisten(id: Id)
    | Stop
    | CloseTaken(lease: nat)

  function CloseLease(l: Lease): Lease {
    if l.closed then l else l.(closed := true, open := l.open && !l.attached)
  }

  predicate At(s: State, i: nat, p: Point) {
    i < |s.leases| && s.leases[i].point == p
  }

  predicate Enabled(s: State, t: Step) {
    match t
    case Bind(i, _) => At(s, i, Binding)
    case Attach(i) => At(s, i, Bound)
    case RunEnds(i) => At(s, i, Running)
    case CloseAny(i) => At(s, i, Running)
    case Unreserve(i) => At(s, i, Exiting)
    case LastClose(i) => At(s, i, ToClose)
    case CloseTaken(i) => i in s.toClose && i < |s.leases|
    case _ => true
  }

  function With(s: State, i: nat, l: Lease): State
    requires i < |s.leases|
  {
    s.(leases := s.leases[i := l])
  }

  /** Only this very lease's reservation goes. */
  function Unreserved(table: map<Id, nat>, id: Id, i: nat): map<Id, nat> {
    if id in table && table[id] == i then table - {id} else table
  }

  function Apply(s: State, t: Step): State
    requires Enabled(s, t)
  {
    match t
    case Reserve(id) =>
      if id in s.table then s
      else State(s.leases + [Lease(id, Binding, false, false, false)], s.table[id := |s.leases|], s.toClose)
    case Bind(i, ok) => With(s, i, s.leases[i].(point := if ok then Bound else Exiting, open := ok))
    case Attach(i) =>
      With(s, i, if s.leases[i].closed then s.leases[i].(point := Exiting, open := false)
                 else s.leases[i].(point := Running, attached := true))
    case RunEnds(i) => With(s, i, s.leases[i].(point := Exiting))
    case CloseAny(i) => With(s, i, CloseLease(s.leases[i]))
    case Unreserve(i) =>
      With(s, i, s.leases[i].(point := ToClose)).(table := Unreserved(s.table, s.leases[i].id, i))
    case LastClose(i) => With(s, i, CloseLease(s.leases[i]).(point := Finished))
    case Unlisten(id) =>
      if id in s.table then s.(table := s.table - {id}, toClose := s.toClose + {s.table[id]}) else s
    case Stop => s.(table := map[], toClose := s.toClose + s.table.Values)
    case CloseTaken(i) => With(s, i, CloseLease(s.leases[i])).(toClose := s.toClose - {i})
  }

  ghost predicate Runs(s: State, steps: seq<Step>)
    decreases |steps|
  {
    steps == [] || (Enabled(s, steps[0]) && Runs(Apply(s, steps[0]), steps[1..]))
  }

  ghost function After(s: State, steps: seq<Step>): State
    requires Runs(s, steps)
    decreases |steps|
  {
    if steps == [] then s else After(Apply(s, steps[0]), steps[1..])
  }

  ghost predicate Reserves(s: State, i: nat, l: Lease) {
    l.id in s.table && s.table[l.id] == i
  }

  /** Sockets are open unattached only between bind and attach; a lease not closed is one somebody will close. */
  ghost predicate LeaseFits(s: State, i: nat, l: Lease) {
    && (!l.attached ==> (l.open <==> l.point.Bound?))
    && (l.attached ==> (l.open <==> !l.closed))
    && (l.attached ==> !l.point.Binding? && !l.point.Bound?)
    && (l.point.Running? ==> l.attached)
    && (l.point.Finished? ==> l.closed)
    && (Reserves(s, i, l) ==> !l.point.ToClose? && !l.point.Finished?)
    && (!l.closed ==> Reserves(s, i, l) || i in s.toClose || l.point.ToClose?)
  }

  ghost predicate Inv(s: State) {
    && (forall id :: id in s.table ==> s.table[id] < |s.leases| && s.leases[s.table[id]].id == id)
    && (forall i :: i in s.toClose ==> i < |s.leases|)
    && (forall i :: 0 <= i < |s.leases| ==> LeaseFits(s, i, s.leases[i]))
  }

  /** A change to one lease leaves every other lease fitting. */
  lemma OneLease(s: State, s': State, i: nat)
    requires Inv(s) && i < |s.leases| == |s'.leases|
    requires forall j :: 0 <= j < |s.leases| && j != i ==> s'.leases[j] == s.leases[j]
    requires s'.leases[i].id == s.leases[i].id && LeaseFits(s', i, s'.leases[i])
    requires s'.table == s.table || s'.table == Unreserved(s.table, s.leases[i].id, i)
    requires s'.toClose == s.toClose || s'.toClose == s.toClose - {i}
    ensures Inv(s')
  {
    forall j | 0 <= j < |s'.leases| ensures LeaseFits(s', j, s'.leases[j]) {
      if j != i {
        assert LeaseFits(s, j, s.leases[j]);
      }
    }
  }

  predicate OfTable(t: Step) {
    t.Reserve? || t.Unlisten? || t.Stop?
  }

  lemma LeaseStepKeepsInv(s: State, t: Step)
    requires Inv(s) && Enabled(s, t) && !OfTable(t)
    ensures Inv(Apply(s, t))
  {
    assert LeaseFits(s, t.lease, s.leases[t.lease]);
    OneLease(s, Apply(s, t), t.lease);
  }

  lemma TableStepKeepsInv(s: State, t: Step)
    requires Inv(s) && Enabled(s, t) && OfTable(t)
    ensures Inv(Apply(s, t))
  {
    var s' := Apply(s, t);
    forall i | 0 <= i < |s'.leases| ensures LeaseFits(s', i, s'.leases[i]) {
      if i < |s.leases| {
        assert LeaseFits(s, i, s.leases[i]);
      }
    }
  }

  lemma StepKeepsInv(s: State, t: Step)
    requires Inv(s) && Enabled(s, t)
    ensures Inv(Apply(s, t))
  {
    if OfTable(t) {
      TableStepKeepsInv(s, t);
    } else {
      LeaseStepKeepsInv(s, t);
    }
  }

  lemma {:induction false} RunKeepsInv(s: State, steps: seq<Step>)
    requires Inv(s) && Runs(s, steps)
    ensures Inv(After(s, steps))
    decreases |steps|
  {
    if steps != [] {
      StepKeepsInv(s, steps[0]);
      RunKeepsInv(Apply(s, steps[0]), steps[1..]);
    }
  }

  /** A lease that ends releases its own reservation, never that of a lease that took the id since. */
  lemma {:induction false} ExitSparesOthers(steps: seq<Step>, i: nat, other: Id)
    requires Runs(INIT, steps) && Enabled(After(INIT, steps), Unreserve(i))
    ensures var s := After(INIT, steps);
            var table := Apply(s, Unreserve(i)).table;
            && (other in table <==> other in s.table && s.table[other] != i)
            && (other in table ==> table[other] == s.table[other])
  {
    RunKeepsInv(INIT, steps);
  }

  lemma {:induction false} ClosedForGood(s: State, steps: seq<Step>, i: nat)
    requires Inv(s) && Runs(s, steps) && i < |s.leases| && s.leases[i].closed
    ensures var end := After(s, steps);
            i < |end.leases| && end.leases[i].closed && (end.leases[i].open ==> end.leases[i].point.Bound?)
    decreases |steps|
  {
    if steps != [] {
      StepKeepsInv(s, steps[0]);
      ClosedForGood(Apply(s, steps[0]), steps[1..], i);
    } else {
      assert LeaseFits(s, i, s.leases[i]);
    }
  }

  /**
   An id unlistened: when that lease has been closed, then for ever after its
   sockets are closed, or were just bound and are closed by the attach to come.
  */
  lemma {:induction false} UnlistenCloses(steps: seq<Step>, id: Id, between: seq<Step>, later: seq<Step>)
    requires Runs(INIT, steps) && id in After(INIT, steps).table
    requires var i := After(INIT, steps).table[id];
             && Runs(Apply(After(INIT, steps), Unlisten(id)), between)
             && Enabled(After(Apply(After(INIT, steps), Unlisten(id)), between), CloseTaken(i))
             && Runs(Apply(After(Apply(After(INIT, steps), Unlisten(id)), between), CloseTaken(i)), later)
    ensures var i := After(INIT, steps).table[id];
            var end := After(Apply(After(Apply(After(INIT, steps), Unlisten(id)), between), CloseTaken(i)), later);
            i < |end.leases| && end.leases[i].closed && (end.leases[i].open ==> end.leases[i].point.Bound?)
  {
    RunKeepsInv(INIT, steps);
    var s := After(INIT, steps);
    var i := s.table[id];
    StepKeepsInv(s, Unlisten(id));
    RunKeepsInv(Apply(s, Unlisten(id)), between);
    var mid := After(Apply(s, Unlisten(id)), between);
    StepKeepsInv(mid, CloseTaken(i));
    ClosedForGood(Apply(mid, CloseTaken(i)), later, i);
  }

  /** At rest a lease with open sockets is relaying and still reserved, and every reservation is such a lease. */
  lemma NothingLeaks(steps: seq<Step>, i: nat)
    requires Runs(INIT, steps) && i < |After(INIT, steps).leases|
    requires After(INIT, steps).toClose == {}
    requires forall j :: 0 <= j < |After(INIT, steps).leases| ==>
               After(INIT, steps).leases[j].point.Finished?
               || (After(INIT, steps).leases[j].point.Running? && !After(INIT, steps).leases[j].closed)
    ensures var s := After(INIT, steps);
            && (s.leases[i].open <==> s.leases[i].point.Running?)
            && (s.leases[i].open <==> Reserves(s, i, s.leases[i]))
  {
    RunKeepsInv(INIT, steps);
    var s := After(INIT, steps);
    assert LeaseFits(s, i, s.leases[i]);
  }
}
