/**
 The hub's run bookkeeping: the single data-plane slot, and for every live run
 token the number of other runs that were active at some time during its life.

 `State` and its functions say what each lock section does to the bookkeeping;
 the class `Slots` performs them in place. The reference the counters are
 measured against is the log of acquisitions and drops.
*/
module Slots {
  import opened Options

  datatype Role = Initiating | Responding

  datatype Holder = Holder(role: Role, runId: string)

  datatype Refusal = Busy | BeingMeasured

  type Token = nat

  datatype State = State(data: Option<(Token, Holder)>, runs: map<Token, nat>, next: nat)

  const EMPTY := State(None, map[], 0)

  /** A new token: every live token gains one overlap, the new one starts with them all. */
  function Register(s: State, data: Option<Holder>): State {
    var id := s.next + 1;
    State(
      if data.Some? then Some((id, data.value)) else s.data,
      (map r | r in s.runs :: s.runs[r] + 1)[id := |s.runs|],
      id)
  }

  function Refuses(current: Holder, asked: Holder): Refusal {
    if asked.role.Initiating? && current.role.Responding? then BeingMeasured else Busy
  }

  function Release(s: State, id: Token): State {
    State(if s.data.Some? && s.data.value.0 == id then None else s.data, s.runs - {id}, s.next)
  }

  class Slots {
    var data: Option<(Token, Holder)>
    var runs: map<Token, nat>
    var next: nat

    constructor ()
      ensures Abs() == EMPTY
    {
      data, runs, next := None, map[], 0;
    }

    ghost function Abs(): State
      reads this
    {
      State(data, runs, next)
    }

    method Insert(asked: Option<Holder>) returns (id: Token)
      modifies this
      ensures Abs() == Register(old(Abs()), asked)
      ensures id == old(next) + 1
    {
      next := next + 1;
      id := next;
      var todo := runs.Keys;
      while todo != {}
        invariant todo <= runs.Keys == old(runs.Keys)
        invariant forall r :: r in runs ==>
                                runs[r] == old(runs)[r] + if r in todo then 0 else 1
        invariant data == old(data) && next == id == old(next) + 1
        decreases |todo|
      {
        var r :| r in todo;
        runs := runs[r := runs[r] + 1];
        todo := todo - {r};
      }
      var overlap := |runs|;
      assert runs == map r | r in old(runs) :: old(runs)[r] + 1;
      assert overlap == |runs.Keys| == |old(runs).Keys|;
      runs := runs[id := overlap];
      if asked.Some? {
        data := Some((id, asked.value));
      }
    }

    method AcquireData(holder: Holder) returns (token: Option<Token>, refusal: Option<Refusal>)
      modifies this
      ensures old(data).None? ==> token == Some(old(next) + 1) && refusal.None?
                                  && Abs() == Register(old(Abs()), Some(holder))
      ensures old(data).Some? ==> token.None? && Abs() == old(Abs())
                                  && refusal == Some(Refuses(old(data).value.1, holder))
    {
      match data {
        case Some((_, current)) =>
          return None, Some(Refuses(current, holder));
        case None =>
          var id := Insert(Some(holder));
          return Some(id), None;
      }
    }

    method AcquireExempt() returns (token: Token)
      modifies this
      ensures token == old(next) + 1 && Abs() == Register(old(Abs()), None)
    {
      token := Insert(None);
    }

    method Drop(id: Token)
      modifies this
      ensures Abs() == Release(old(Abs()), id)
    {
      runs := runs - {id};
      if data.Some? && data.value.0 == id {
        data := None;
      }
    }
  }

  // ----- Histories ---------------------------------------------------------

  datatype Op = AcquireData(holder: Holder) | AcquireExempt | Drop(id: Token)

  /** What happened to tokens, oldest first. */
  datatype Log = Start | Acquired(before: Log, id: Token, data: bool) | Dropped(before: Log, id: Token)

  datatype World = World(state: State, log: Log)

  function Apply(w: World, op: Op): World {
    match op
    case AcquireData(h) =>
      if w.state.data.Some? then w
      else World(Register(w.state, Some(h)), Acquired(w.log, w.state.next + 1, true))
    case AcquireExempt =>
      World(Register(w.state, None), Acquired(w.log, w.state.next + 1, false))
    case Drop(id) =>
      World(Release(w.state, id), Dropped(w.log, id))
  }

  function Replay(ops: seq<Op>): World {
    if ops == [] then World(EMPTY, Start)
    else Apply(Replay(ops[..|ops| - 1]), ops[|ops| - 1])
  }

  /** The tokens acquired and not yet dropped. */
  ghost function Alive(log: Log): set<Token> {
    match log
    case Start => {}
    case Acquired(before, id, _) => Alive(before) + {id}
    case Dropped(before, id) => Alive(before) - {id}
  }

  /** At some moment of the log both tokens were alive. */
  ghost predicate Met(log: Log, a: Token, b: Token) {
    || (a in Alive(log) && b in Alive(log))
    || (!log.Start? && Met(log.before, a, b))
  }

  ghost predicate AskedForData(log: Log, t: Token) {
    match log
    case Start => false
    case Acquired(before, id, data) => (id == t && data) || AskedForData(before, t)
    case Dropped(before, _) => AskedForData(before, t)
  }

  ghost function Others(w: World, a: Token): set<Token> {
    set b: Token | b <= w.state.next && b != a && Met(w.log, a, b)
  }

  ghost function Ever(log: Log): set<Token> {
    match log
    case Start => {}
    case Acquired(before, id, _) => Ever(before) + {id}
    case Dropped(before, _) => Ever(before)
  }

  lemma {:induction false} OnlyTokensMeet(log: Log, a: Token, b: Token)
    ensures Alive(log) <= Ever(log)
    ensures Met(log, a, b) ==> a in Ever(log) && b in Ever(log)
    ensures AskedForData(log, a) ==> a in Ever(log)
  {
    if !log.Start? {
      OnlyTokensMeet(log.before, a, b);
    }
  }

  ghost predicate Exact(w: World) {
    && TokensFit(w)
    && Counted(w)
    && SlotExact(w)
  }

  ghost predicate TokensFit(w: World) {
    && (forall t :: t in Alive(w.log) <==> t in w.state.runs)
    && (forall t :: t in Ever(w.log) ==> t <= w.state.next)
  }

  ghost predicate Counted(w: World) {
    forall a :: a in w.state.runs ==> w.state.runs[a] == |Others(w, a)|
  }

  ghost predicate SlotExact(w: World) {
    forall t :: (w.state.data.Some? && w.state.data.value.0 == t)
                <==> (t in Alive(w.log) && AskedForData(w.log, t))
  }

  lemma DropKeepsExact(w: World, id: Token)
    requires Exact(w)
    ensures Exact(Apply(w, Drop(id)))
  {
    var w' := Apply(w, Drop(id));
    forall a | a in w'.state.runs ensures Others(w', a) == Others(w, a) {
    }
  }

  /** A world and one token more. */
  ghost function Grown(w: World, data: Option<Holder>): World {
    World(Register(w.state, data), Acquired(w.log, w.state.next + 1, data.Some?))
  }

  lemma GrownKeepsTokens(w: World, data: Option<Holder>)
    requires TokensFit(w)
    ensures TokensFit(Grown(w, data))
  {
    assert forall t :: t in Register(w.state, data).runs <==> t in w.state.runs || t == w.state.next + 1;
  }

  lemma GrownKeepsCounted(w: World, data: Option<Holder>)
    requires Exact(w)
    ensures Counted(Grown(w, data))
  {
    var w' := Grown(w, data);
    forall a | a in w'.state.runs ensures w'.state.runs[a] == |Others(w', a)| {
      if a == w'.log.id {
        NewcomerMeetsTheLiving(w, w');
      } else {
        LivingMeetTheNewcomer(w, w', a);
      }
    }
  }

  lemma GrownKeepsSlot(w: World, data: Option<Holder>)
    requires Exact(w) && (data.Some? ==> w.state.data.None?)
    ensures SlotExact(Grown(w, data))
  {
    var w' := Grown(w, data);
    OnlyTokensMeet(w.log, w'.log.id, w'.log.id);
    forall t ensures (w'.state.data.Some? && w'.state.data.value.0 == t)
                     <==> (t in Alive(w'.log) && AskedForData(w'.log, t))
    {
      assert (w.state.data.Some? && w.state.data.value.0 == t) <==> (t in Alive(w.log) && AskedForData(w.log, t));
    }
  }

  lemma GrownKeepsExact(w: World, data: Option<Holder>)
    requires Exact(w) && (data.Some? ==> w.state.data.None?)
    ensures Exact(Grown(w, data))
  {
    GrownKeepsTokens(w, data);
    GrownKeepsCounted(w, data);
    GrownKeepsSlot(w, data);
  }

  lemma AcquireKeepsExact(w: World, op: Op)
    requires Exact(w) && !op.Drop?
    ensures Exact(Apply(w, op))
  {
    if op.AcquireExempt? {
      GrownKeepsExact(w, None);
    } else if w.state.data.None? {
      GrownKeepsExact(w, Some(op.holder));
    }
  }

  lemma LivingMeetTheNewcomer(w: World, w': World, a: Token)
    requires Exact(w) && w'.log.Acquired? && w'.log.before == w.log
    requires w'.state.next == w'.log.id == w.state.next + 1
    requires a in w.state.runs
    ensures |Others(w', a)| == |Others(w, a)| + 1
  {
    forall b: Token ensures b in Others(w', a) <==> b in Others(w, a) + {w'.log.id} {
      OnlyTokensMeet(w.log, a, b);
    }
    assert Others(w', a) == Others(w, a) + {w'.log.id};
  }

  lemma NewcomerMeetsTheLiving(w: World, w': World)
    requires Exact(w) && w'.log.Acquired? && w'.log.before == w.log
    requires w'.state.next == w'.log.id == w.state.next + 1
    ensures Others(w', w'.log.id) == w.state.runs.Keys
  {
    var id := w'.log.id;
    forall b: Token ensures b in Others(w', id) <==> b in w.state.runs {
      OnlyTokensMeet(w.log, id, b);
    }
  }

  lemma {:induction false} ReplayIsExact(ops: seq<Op>)
    ensures Exact(Replay(ops))
  {
    if ops != [] {
      var before, op := ops[..|ops| - 1], ops[|ops| - 1];
      ReplayIsExact(before);
      if op.Drop? {
        DropKeepsExact(Replay(before), op.id);
      } else {
        AcquireKeepsExact(Replay(before), op);
      }
    }
  }

  /**
   After any history, a live token's counter is the number of other tokens
   whose lives have shared a moment with its own; two tokens, dropped or not,
   are each in the other's count or neither is; and two live ones always are.
  */
  lemma {:induction false} OverlapIsExact(ops: seq<Op>, a: Token, b: Token)
    requires a in Replay(ops).state.runs
    ensures Replay(ops).state.runs[a] == |Others(Replay(ops), a)|
    ensures a in Others(Replay(ops), b) <==> b in Others(Replay(ops), a)
    ensures b in Replay(ops).state.runs && a != b ==> b in Others(Replay(ops), a)
  {
    ReplayIsExact(ops);
    MetIsMutual(Replay(ops).log, a, b);
    OnlyTokensMeet(Replay(ops).log, a, b);
  }

  lemma {:induction false} MetIsMutual(log: Log, a: Token, b: Token)
    ensures Met(log, a, b) <==> Met(log, b, a)
  {
    if !log.Start? {
      MetIsMutual(log.before, a, b);
    }
  }

  /**
   After any history the slot is held by exactly the live data token: there is
   never a second one, a drop of any other token leaves the slot alone, and a
   drop of that one frees it.
  */
  lemma {:induction false} SlotIsTheLiveDataToken(ops: seq<Op>, t: Token)
    ensures var w := Replay(ops);
            (w.state.data.Some? && w.state.data.value.0 == t)
            <==> (t in Alive(w.log) && AskedForData(w.log, t))
  {
    ReplayIsExact(ops);
  }
}
