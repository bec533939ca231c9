/**
 The connections of one egress route (or of the CONNECT proxy): tracked while
 they live, so that a shutdown can close them all. A shutdown takes the tracked
 set in one lock section and closes its members afterwards.
*/
module EgressConns {
  import opened Conns

  // ----- The tracker -------------------------------------------------------

  class Tracker {
    var closed: bool
    var conns: set<Conn>

    ghost predicate Valid()
      reads this
    {
      closed ==> conns == {}
    }

    constructor ()
      ensures Valid() && !closed && conns == {}
    {
      closed, conns := false, {};
    }

    /** After a shutdown the connection is closed instead of kept. */
    method Track(c: Conn) returns (ok: bool)
      requires Valid()
      modifies this`conns, c
      ensures Valid() && ok == !closed
      ensures if ok then conns == old(conns) + {c} && c.closed == old(c.closed) else conns == {} && c.closed
    {
      if closed {
        c.Close();
        return false;
      }
      conns := conns + {c};
      return true;
    }

    method Untrack(c: Conn)
      requires Valid()
      modifies this`conns
      ensures Valid() && conns == old(conns) - {c}
    {
      conns := conns - {c};
    }

    /** Everything tracked is closed, nothing stays tracked, and nothing else is touched. */
    method Shutdown()
      requires Valid()
      modifies this, conns
      ensures Valid() && closed && conns == {}
      ensures forall c :: c in old(conns) ==> c.closed
    {
      if closed {
        return;
      }
      var all := conns;
      closed, conns := true, {};
      var left := all;
      while left != {}
        invariant left <= all && closed && conns == {}
        invariant forall c :: c in all - left ==> c.closed
        decreases |left|
      {
        var c :| c in left;
        c.Close();
        left := left - {c};
      }
    }
  }

  // ----- Connections being served ------------------------------------------

  /**
   One client. Task `k` has connection 2k to its client and 2k + 1 upstream. A
   route's client is accepted and tracked before its target is dialed; the
   CONNECT proxy dials first, takes the client over from its HTTP server, and
   then tracks both.
  */
  datatype Task =
    | Accepted | Admitting
    | Connecting | Reached | Hijacked | UpstreamLeft
    | Dialed | Refused | Bridging | Unbridged | ClientDone | Ended

  /** `open` are the connections open; `taken` those a shutdown still has to close. */
  datatype Route = Route(closed: bool, tracked: set<nat>, taken: set<nat>, open: set<nat>, tasks: seq<Task>)

  const INIT := Route(false, {}, {}, {}, [])

  function Client(k: nat): nat {
    2 * k
  }

  function Upstream(k: nat): nat {
    2 * k + 1
  }

  datatype Step =
    | Accept
    | TrackClient(task: nat)
    | Refuse(task: nat)
    | Dial(task: nat)
    | Connect
    | Reach(task: nat, ok: bool)
    | Hijack(task: nat, ok: bool)
    | TrackHijacked(task: nat)
    | CloseUpstream(task: nat)
    | TrackUpstream(task: nat)
    | CloseClient(task: nat)
    | BridgeEnds(task: nat)
    | UntrackUpstream(task: nat)
    | UntrackClient(task: nat)
    | ShutTake
    | ShutClose(conn: nat)

  predicate At(r: Route, k: nat, t: Task) {
    k < |r.tasks| && r.tasks[k] == t
  }

  predicate Enabled(r: Route, s: Step) {
    match s
    case Accept => true
    case TrackClient(k) => At(r, k, Accepted)
    case Refuse(k) => At(r, k, Admitting)
    case Dial(k) => At(r, k, Admitting)
    case Connect => true
    case Reach(k, _) => At(r, k, Connecting)
    case Hijack(k, _) => At(r, k, Reached)
    case TrackHijacked(k) => At(r, k, Hijacked)
    case CloseUpstream(k) => At(r, k, UpstreamLeft)
    case TrackUpstream(k) => At(r, k, Dialed)
    case CloseClient(k) => At(r, k, Refused)
    case BridgeEnds(k) => At(r, k, Bridging)
    case UntrackUpstream(k) => At(r, k, Unbridged)
    case UntrackClient(k) => At(r, k, ClientDone)
    case ShutTake => true
    case ShutClose(c) => c in r.taken
  }

  function Track(r: Route, c: nat): Route {
    if r.closed then r.(open := r.open - {c}) else r.(tracked := r.tracked + {c})
  }

  function Goes(r: Route, k: nat, t: Task): Route
    requires k < |r.tasks|
  {
    r.(tasks := r.tasks[k := t])
  }

  function Apply(r: Route, s: Step): Route
    requires Enabled(r, s)
  {
    match s
    case Accept => r.(tasks := r.tasks + [Accepted], open := r.open + {Client(|r.tasks|)})
    case TrackClient(k) => Goes(Track(r, Client(k)), k, if r.closed then Ended else Admitting)
    case Refuse(k) => Goes(r.(open := r.open - {Client(k)}), k, ClientDone)
    case Dial(k) => Goes(r.(open := r.open + {Upstream(k)}), k, Dialed)
    case Connect => r.(tasks := r.tasks + [Connecting])
    case Reach(k, ok) => if ok then Goes(r.(open := r.open + {Upstream(k)}), k, Reached) else Goes(r, k, Ended)
    case Hijack(k, ok) =>
      if ok then Goes(r.(open := r.open + {Client(k)}), k, Hijacked)
      else Goes(r.(open := r.open - {Upstream(k)}), k, Ended)
    case TrackHijacked(k) => Goes(Track(r, Client(k)), k, if r.closed then UpstreamLeft else Dialed)
    case CloseUpstream(k) => Goes(r.(open := r.open - {Upstream(k)}), k, Ended)
    case TrackUpstream(k) => Goes(Track(r, Upstream(k)), k, if r.closed then Refused else Bridging)
    case CloseClient(k) => Goes(r.(open := r.open - {Client(k)}), k, ClientDone)
    case BridgeEnds(k) => Goes(r.(open := r.open - {Client(k), Upstream(k)}), k, Unbridged)
    case UntrackUpstream(k) => Goes(r.(tracked := r.tracked - {Upstream(k)}), k, ClientDone)
    case UntrackClient(k) => Goes(r.(tracked := r.tracked - {Client(k)}), k, Ended)
    case ShutTake => if r.closed then r else r.(closed := true, taken := r.tracked, tracked := {})
    case ShutClose(c) => r.(taken := r.taken - {c}, open := r.open - {c})
  }

  ghost predicate Runs(r: Route, steps: seq<Step>)
    decreases |steps|
  {
    steps == [] || (Enabled(r, steps[0]) && Runs(Apply(r, steps[0]), steps[1..]))
  }

  ghost function After(r: Route, steps: seq<Step>): Route
    requires Runs(r, steps)
    decreases |steps|
  {
    if steps == [] then r else After(Apply(r, steps[0]), steps[1..])
  }

  // ----- What every run keeps ----------------------------------------------

  /** An open connection that a shutdown will close, or already has in hand. */
  ghost predicate Covered(r: Route, c: nat) {
    c in r.open ==> c in r.tracked || c in r.taken
  }

  ghost predicate TaskFits(r: Route, k: nat, t: Task) {
    match t
    case Accepted => Upstream(k) !in r.open
    case Admitting => Covered(r, Client(k)) && Upstream(k) !in r.open
    case Connecting => Client(k) !in r.open && Upstream(k) !in r.open
    case Reached => Client(k) !in r.open
    case Hijacked => true
    case UpstreamLeft => Client(k) !in r.open
    case Dialed => Covered(r, Client(k))
    case Refused => Covered(r, Client(k)) && Upstream(k) !in r.open
    case Bridging => Covered(r, Client(k)) && Covered(r, Upstream(k))
    case Unbridged => Client(k) !in r.open && Upstream(k) !in r.open
    case ClientDone => Client(k) !in r.open && Upstream(k) !in r.open
    case Ended => Client(k) !in r.open && Upstream(k) !in r.open
  }

  ghost predicate Inv(r: Route) {
    && (r.closed ==> r.tracked == {})
    && (!r.closed ==> r.taken == {})
    && (forall c :: c in r.open ==> c < 2 * |r.tasks|)
    && forall k :: 0 <= k < |r.tasks| ==> TaskFits(r, k, r.tasks[k])
  }

  ghost predicate SameConn(r: Route, r': Route, c: nat) {
    && (c in r'.open <==> c in r.open) && (c in r'.tracked <==> c in r.tracked)
    && (c in r'.taken <==> c in r.taken)
  }

  /** A step of one task leaves the connections of the others alone. */
  lemma OneTask(r: Route, r': Route, k: nat)
    requires Inv(r) && k < |r.tasks| == |r'.tasks| && r'.tasks == r.tasks[k := r'.tasks[k]]
    requires forall c :: c != Client(k) && c != Upstream(k) ==> SameConn(r, r', c)
    requires r'.closed == r.closed && (r.closed ==> r'.tracked == {}) && r'.taken == r.taken
    requires TaskFits(r', k, r'.tasks[k])
    ensures Inv(r')
  {
    forall j | 0 <= j < |r'.tasks| ensures TaskFits(r', j, r'.tasks[j]) {
      if j != k {
        assert TaskFits(r, j, r.tasks[j]) && SameConn(r, r', Client(j)) && SameConn(r, r', Upstream(j));
      }
    }
    forall c | c in r'.open ensures c < 2 * |r'.tasks| {
      if c != Client(k) && c != Upstream(k) {
        assert SameConn(r, r', c);
      }
    }
  }

  predicate OfTask(s: Step) {
    !s.Accept? && !s.Connect? && !s.ShutTake? && !s.ShutClose?
  }

  lemma TaskStepKeepsInv(r: Route, s: Step)
    requires Inv(r) && Enabled(r, s) && OfTask(s)
    ensures Inv(Apply(r, s))
  {
    assert TaskFits(r, s.task, r.tasks[s.task]);
    OneTask(r, Apply(r, s), s.task);
  }

  lemma StepKeepsInv(r: Route, s: Step)
    requires Inv(r) && Enabled(r, s)
    ensures Inv(Apply(r, s))
  {
    if OfTask(s) {
      TaskStepKeepsInv(r, s);
    } else {
      var r' := Apply(r, s);
      forall k | 0 <= k < |r'.tasks| ensures TaskFits(r', k, r'.tasks[k]) {
        if k < |r.tasks| {
          assert TaskFits(r, k, r.tasks[k]);
        }
      }
    }
  }

  lemma {:induction false} RunKeepsInv(r: Route, steps: seq<Step>)
    requires Inv(r) && Runs(r, steps)
    ensures Inv(After(r, steps))
    decreases |steps|
  {
    if steps != [] {
      StepKeepsInv(r, steps[0]);
      RunKeepsInv(Apply(r, steps[0]), steps[1..]);
    }
  }

  /**
   Once a shutdown has run to its end, whatever raced with it, the only open
   connections are those never yet offered to the tracker: a client just
   accepted or taken over, or an upstream dialed and not offered since.
   Offering them closes them.
  */
  lemma ShutdownClosesAll(steps: seq<Step>, c: nat)
    requires Runs(INIT, steps)
    ensures var r := After(INIT, steps);
            r.closed && r.taken == {} && c in r.open ==>
              && c / 2 < |r.tasks|
              && r.tasks[c / 2] in (if c % 2 == 0 then {Accepted, Hijacked}
                                    else {Dialed, Reached, Hijacked, UpstreamLeft})
              && c !in Track(r, c).open && Track(r, c).tracked == {}
  {
    RunKeepsInv(INIT, steps);
    var r := After(INIT, steps);
    if r.closed && r.taken == {} && c in r.open {
      assert TaskFits(r, c / 2, r.tasks[c / 2]);
      assert c == (if c % 2 == 0 then Client(c / 2) else Upstream(c / 2));
    }
  }

  /** A shutdown already under way takes nothing back: closed stays closed, and nothing is tracked again. */
  lemma {:induction false} ClosedForGood(r: Route, steps: seq<Step>)
    requires Inv(r) && r.closed && Runs(r, steps)
    ensures After(r, steps).closed && After(r, steps).tracked == {} && After(r, steps).taken <= r.taken
    decreases |steps|
  {
    if steps != [] {
      StepKeepsInv(r, steps[0]);
      ClosedForGood(Apply(r, steps[0]), steps[1..]);
    }
  }

  /** With or without a shutdown, a served client leaves no connection open. */
  lemma {:induction false} EndedLeavesNothing(steps: seq<Step>, k: nat)
    requires Runs(INIT, steps)
    ensures At(After(INIT, steps), k, Ended) ==>
              Client(k) !in After(INIT, steps).open && Upstream(k) !in After(INIT, steps).open
  {
    RunKeepsInv(INIT, steps);
  }
}
