/**
 The bridged copy of the sidecar: two pumps, one per direction, share one
 activity clock; each arms its deadlines lazily, and reaps the connection when
 neither direction moved a byte for the timeout. Times are nanoseconds on the
 monotonic clock. Recording activity is one step with the bytes it records.
*/
module BridgeCopy {
  import opened Options
  import opened Words

  const SMALL: nat := 32768

  const LARGE: nat := 262144

  /** How a read or write ended. */
  datatype Error = NoError | Timeout | Eof | Failed

  /** The time, and the last time bytes moved in either direction. */
  datatype Clock = Clock(now: int, last: int)

  /** Where a pump is between two steps; a read's own error waits for its bytes to be written. */
  datatype Phase =
    | ToRead
    | Reading
    | ToWrite(rest: seq<Byte>, filled: bool, rerr: Error)
    | Writing(rest: seq<Byte>, filled: bool, rerr: Error)
    | ReadFailed(err: Error)
    | WriteFailed(err: Error, rest: seq<Byte>, filled: bool, rerr: Error)
    | Done(idle: bool, clean: bool)

  datatype Pump = Pump(phase: Phase, readDL: Option<int>, writeDL: Option<int>, large: bool,
                       read: seq<Byte>, written: seq<Byte>)

  const START := Pump(ToRead, None, None, false, [], [])

  function Slack(timeout: nat): nat {
    Min(SECOND_NS, timeout / 8)
  }

  function IdleAt(c: Clock, timeout: nat): int {
    c.last + timeout
  }

  predicate Active(c: Clock, timeout: nat) {
    c.now < IdleAt(c, timeout)
  }

  /** The armed deadline is kept while it is within the slack of the wanted one. */
  function Armed(d: Option<int>, want: int, slack: nat): Option<int> {
    if d.Some? && want - d.value < slack then d else Some(want)
  }

  function BufferLength(p: Pump): nat {
    if p.large then LARGE else SMALL
  }

  // ----- Steps of one pump -------------------------------------------------

  datatype PumpStep = Arm | Receive(data: seq<Byte>, err: Error) | Send(n: nat, err: Error) | Check

  predicate CanStep(p: Pump, s: PumpStep) {
    match s
    case Arm => p.phase.ToRead? || p.phase.ToWrite?
    case Receive(data, err) => p.phase.Reading? && |data| <= BufferLength(p)
    case Send(n, err) => p.phase.Writing? && n <= |p.phase.rest|
    case Check => p.phase.ReadFailed? || p.phase.WriteFailed?
  }

  /** Everything of a chunk is written: the bulk switch, then the read's own end. */
  function ChunkDone(p: Pump, filled: bool, rerr: Error): Pump {
    p.(large := p.large || filled, phase := if rerr.NoError? then ToRead else ReadFailed(rerr))
  }

  function Wrote(p: Pump, rest: seq<Byte>, filled: bool, rerr: Error): Pump {
    if rest == [] then ChunkDone(p, filled, rerr) else p.(phase := ToWrite(rest, filled, rerr))
  }

  function Blocked(p: Pump, c: Clock, timeout: nat): Pump
    requires CanStep(p, Arm)
  {
    var want, slack := IdleAt(c, timeout), Slack(timeout);
    match p.phase
    case ToRead => p.(readDL := Armed(p.readDL, want, slack), phase := Reading)
    case ToWrite(rest, filled, rerr) =>
      p.(writeDL := Armed(p.writeDL, want, slack), phase := Writing(rest, filled, rerr))
  }

  function Received(p: Pump, data: seq<Byte>, err: Error): Pump
    requires CanStep(p, Receive(data, err))
  {
    if data != [] then
      p.(read := p.read + data, phase := ToWrite(data, |data| == BufferLength(p), err))
    else if err.NoError? then p.(phase := ToRead)
    else p.(phase := ReadFailed(err))
  }

  function Sent(p: Pump, n: nat, err: Error): Pump
    requires CanStep(p, Send(n, err))
  {
    var Writing(rest, filled, rerr) := p.phase;
    var q := p.(written := p.written + rest[..n]);
    if err.NoError? then Wrote(q, rest[n..], filled, rerr)
    else q.(phase := WriteFailed(err, rest[n..], filled, rerr))
  }

  function Checked(p: Pump, c: Clock, timeout: nat): Pump
    requires CanStep(p, Check)
  {
    match p.phase
    case ReadFailed(err) =>
      if err.Timeout? && Active(c, timeout) then p.(readDL := None, phase := ToRead)
      else p.(phase := Done(err.Timeout?, err.Eof?))
    case WriteFailed(err, rest, filled, rerr) =>
      if err.Timeout? && Active(c, timeout) then Wrote(p.(writeDL := None), rest, filled, rerr)
      else p.(phase := Done(err.Timeout?, false))
  }

  function Step(p: Pump, s: PumpStep, c: Clock, timeout: nat): Pump
    requires CanStep(p, s)
  {
    match s
    case Arm => Blocked(p, c, timeout)
    case Receive(data, err) => Received(p, data, err)
    case Send(n, err) => Sent(p, n, err)
    case Check => Checked(p, c, timeout)
  }

  predicate Moves(s: PumpStep) {
    (s.Receive? && s.data != []) || (s.Send? && s.n > 0)
  }

  // ----- Both pumps --------------------------------------------------------

  /** `moved` lists when bytes moved, either way; `closed` once both sides are shut. */
  datatype World = World(clock: Clock, up: Pump, down: Pump, born: int, moved: seq<int>, closed: bool)

  datatype WorldStep = Tick(ns: nat) | Up(s: PumpStep) | Down(s: PumpStep)

  predicate Enabled(w: World, s: WorldStep) {
    match s
    case Tick(ns) => true
    case Up(s) => CanStep(w.up, s)
    case Down(s) => CanStep(w.down, s)
  }

  function Touched(w: World, moves: bool): World {
    if moves then w.(clock := w.clock.(last := w.clock.now), moved := w.moved + [w.clock.now]) else w
  }

  /** An idle reap, or both directions done, closes everything. */
  function Settled(w: World): World {
    var up, down := w.up.phase, w.down.phase;
    w.(closed := w.closed || (up.Done? && up.idle) || (down.Done? && down.idle) || (up.Done? && down.Done?))
  }

  function Apply(w: World, s: WorldStep, timeout: nat): World
    requires Enabled(w, s)
  {
    match s
    case Tick(ns) => w.(clock := w.clock.(now := w.clock.now + ns))
    case Up(s) => Settled(Touched(w.(up := Step(w.up, s, w.clock, timeout)), Moves(s)))
    case Down(s) => Settled(Touched(w.(down := Step(w.down, s, w.clock, timeout)), Moves(s)))
  }

  function Begin(now: int): World {
    World(Clock(now, now), START, START, now, [], false)
  }

  ghost predicate Runs(w: World, steps: seq<WorldStep>, timeout: nat)
    decreases |steps|
  {
    steps == [] || (Enabled(w, steps[0]) && Runs(Apply(w, steps[0], timeout), steps[1..], timeout))
  }

  ghost function After(w: World, steps: seq<WorldStep>, timeout: nat): World
    requires Runs(w, steps, timeout)
    decreases |steps|
  {
    if steps == [] then w else After(Apply(w, steps[0], timeout), steps[1..], timeout)
  }

  // ----- What every run keeps ----------------------------------------------

  function Pending(ph: Phase): seq<Byte> {
    match ph
    case ToWrite(rest, _, _) => rest
    case Writing(rest, _, _) => rest
    case WriteFailed(_, rest, _, _) => rest
    case _ => []
  }

  /** Nothing is lost, repeated or reordered: what was read is what was written and what waits. */
  ghost predicate InOrder(p: Pump) {
    && (!p.phase.Done? ==> p.read == p.written + Pending(p.phase))
    && (p.phase.ToWrite? || p.phase.Writing? ==> p.phase.rest != [])
    && p.written <= p.read
    && (p.phase.Done? && p.phase.clean ==> p.written == p.read)
  }

  ghost predicate NoLater(d: Option<int>, at: int) {
    d.Some? ==> d.value <= at
  }

  /** No armed deadline is later than wanted, and a blocked pump has one armed. */
  ghost predicate Deadlines(p: Pump, idleAt: int) {
    && NoLater(p.readDL, idleAt) && NoLater(p.writeDL, idleAt)
    && (p.phase.Reading? ==> p.readDL.Some?)
    && (p.phase.Writing? ==> p.writeDL.Some?)
  }

  ghost predicate Timeline(w: World) {
    && w.clock.last <= w.clock.now
    && w.clock.last == (if w.moved == [] then w.born else w.moved[|w.moved| - 1])
    && w.born <= w.clock.last
    && forall i :: 0 <= i < |w.moved| ==> w.moved[i] <= w.clock.last
  }

  /** While anything is copying, only an idle reap closes the connection. */
  ghost predicate ClosedRightly(w: World) {
    w.closed <==> || (w.up.phase.Done? && w.up.phase.idle) || (w.down.phase.Done? && w.down.phase.idle)
                  || (w.up.phase.Done? && w.down.phase.Done?)
  }

  ghost predicate Inv(w: World, timeout: nat) {
    && InOrder(w.up) && InOrder(w.down) && Timeline(w) && ClosedRightly(w)
    && Deadlines(w.up, IdleAt(w.clock, timeout)) && Deadlines(w.down, IdleAt(w.clock, timeout))
  }

  lemma {:induction false} StepKeepsOrder(p: Pump, s: PumpStep, c: Clock, timeout: nat)
    requires InOrder(p) && CanStep(p, s)
    ensures InOrder(Step(p, s, c, timeout))
  {
    if s.Receive? && s.data != [] {
      assert p.read + s.data == p.written + s.data;
    } else if s.Send? {
      var rest := p.phase.rest;
      assert p.written + rest == (p.written + rest[..s.n]) + rest[s.n..];
    }
  }

  lemma StepKeepsDeadlines(p: Pump, s: PumpStep, c: Clock, timeout: nat)
    requires Deadlines(p, IdleAt(c, timeout)) && CanStep(p, s)
    ensures Deadlines(Step(p, s, c, timeout), IdleAt(c, timeout))
  {
  }

  lemma UpKeepsInv(w: World, s: PumpStep, timeout: nat)
    requires Inv(w, timeout) && CanStep(w.up, s)
    ensures Inv(Apply(w, Up(s), timeout), timeout)
  {
    StepKeepsOrder(w.up, s, w.clock, timeout);
    StepKeepsDeadlines(w.up, s, w.clock, timeout);
  }

  function Mirror(w: World): World {
    w.(up := w.down, down := w.up)
  }

  lemma StepKeepsInv(w: World, s: WorldStep, timeout: nat)
    requires Inv(w, timeout) && Enabled(w, s)
    ensures Inv(Apply(w, s, timeout), timeout)
  {
    match s
    case Tick(ns) =>
    case Up(s) => UpKeepsInv(w, s, timeout);
    case Down(s) =>
      UpKeepsInv(Mirror(w), s, timeout);
      assert Apply(w, Down(s), timeout) == Mirror(Apply(Mirror(w), Up(s), timeout));
  }

  /** Over every interleaving of the two pumps and the clock. */
  lemma {:induction false} RunKeepsInv(w: World, steps: seq<WorldStep>, timeout: nat)
    requires Inv(w, timeout) && Runs(w, steps, timeout)
    ensures Inv(After(w, steps, timeout), timeout)
    decreases |steps|
  {
    if steps != [] {
      StepKeepsInv(w, steps[0], timeout);
      RunKeepsInv(Apply(w, steps[0], timeout), steps[1..], timeout);
    }
  }

  // ----- Reaping -----------------------------------------------------------

  ghost predicate TimedOut(p: Pump) {
    (p.phase.ReadFailed? || p.phase.WriteFailed?) && p.phase.err.Timeout?
  }

  /** The connection was opened, and every byte in either direction moved, at least `timeout` ago. */
  ghost predicate Quiet(w: World, timeout: nat) {
    && w.born + timeout <= w.clock.now
    && forall i :: 0 <= i < |w.moved| ==> w.moved[i] + timeout <= w.clock.now
  }

  lemma QuietIffInactive(w: World, timeout: nat)
    requires Timeline(w)
    ensures Quiet(w, timeout) <==> !Active(w.clock, timeout)
  {
    if w.moved != [] {
      assert w.moved[|w.moved| - 1] == w.clock.last;
    }
  }

  /**
   In every run, a check after an expired deadline reaps the connection if
   nothing moved in either direction for the full timeout, and otherwise only
   disarms that deadline, keeping every byte; no other step reaps.
  */
  lemma {:induction false} ReapedIffIdle(born: int, steps: seq<WorldStep>, timeout: nat, s: PumpStep)
    requires Runs(Begin(born), steps, timeout)
    requires CanStep(After(Begin(born), steps, timeout).up, s)
    ensures var w := After(Begin(born), steps, timeout);
            var p := Apply(w, Up(s), timeout).up;
            && (p.phase.Done? && p.phase.idle <==> s.Check? && TimedOut(w.up) && Quiet(w, timeout))
            && (s.Check? && TimedOut(w.up) && !Quiet(w, timeout) ==>
                  && p.read == w.up.read && p.written == w.up.written
                  && (if w.up.phase.ReadFailed? then p.phase.ToRead? && p.readDL.None?
                      else p.writeDL.None? && !p.phase.Done?))
  {
    RunKeepsInv(Begin(born), steps, timeout);
    QuietIffInactive(After(Begin(born), steps, timeout), timeout);
  }

  /** The other direction is the same pump. */
  lemma {:induction false} DirectionsAlike(w: World, steps: seq<WorldStep>, timeout: nat)
    requires Runs(w, steps, timeout)
    ensures Runs(Mirror(w), MirrorSteps(steps), timeout)
    ensures After(Mirror(w), MirrorSteps(steps), timeout) == Mirror(After(w, steps, timeout))
    decreases |steps|
  {
    if steps != [] {
      DirectionsAlike(Apply(w, steps[0], timeout), steps[1..], timeout);
      assert MirrorSteps(steps)[1..] == MirrorSteps(steps[1..]);
      assert Apply(Mirror(w), MirrorSteps(steps)[0], timeout) == Mirror(Apply(w, steps[0], timeout));
    }
  }

  function MirrorStep(s: WorldStep): WorldStep {
    match s
    case Tick(ns) => s
    case Up(t) => Down(t)
    case Down(t) => Up(t)
  }

  function MirrorSteps(steps: seq<WorldStep>): seq<WorldStep> {
    seq(|steps|, i requires 0 <= i < |steps| => MirrorStep(steps[i]))
  }

  /** In every run the destination holds a prefix of the source, and all of it after a clean end. */
  lemma {:induction false} WrittenIsPrefix(born: int, steps: seq<WorldStep>, timeout: nat)
    requires Runs(Begin(born), steps, timeout)
    ensures var w := After(Begin(born), steps, timeout);
            && w.up.written <= w.up.read && w.down.written <= w.down.read
            && (w.up.phase.Done? && w.up.phase.clean ==> w.up.written == w.up.read)
            && (w.down.phase.Done? && w.down.phase.clean ==> w.down.written == w.down.read)
            && (w.closed ==> || (w.up.phase.Done? && w.up.phase.idle) || (w.down.phase.Done? && w.down.phase.idle)
                             || (w.up.phase.Done? && w.down.phase.Done?))
  {
    RunKeepsInv(Begin(born), steps, timeout);
  }

  /** A blocked call times out exactly at its armed deadline, and is checked there. */
  ghost function Expired(p: Pump, c: Clock, timeout: nat): (Pump, Clock)
    requires Blocking(p)
  {
    var fired := c.(now := Max(c.now, (if p.phase.Reading? then p.readDL else p.writeDL).value));
    var q := if p.phase.Reading? then Received(p, [], Timeout) else Sent(p, 0, Timeout);
    (Checked(q, fired, timeout), fired)
  }

  ghost predicate Blocking(p: Pump) {
    (p.phase.Reading? && p.readDL.Some?) || (p.phase.Writing? && p.writeDL.Some?)
  }

  /**
   If nothing moves and timers fire when they are set for, the copy ends idle
   after at most two expiries, at last activity + timeout (or at once, if that
   has passed).
  */
  ghost predicate EndsOnTime(p: Pump, c: Clock, timeout: nat)
    requires Blocking(p)
  {
    var (once, later) := Expired(p, c, timeout);
    if once.phase.Done? then once.phase.idle && later.now == Max(c.now, IdleAt(c, timeout))
    else
      && CanStep(once, Arm) && later.now < IdleAt(c, timeout)
      && Blocking(Blocked(once, later, timeout))
      && (var (twice, end) := Expired(Blocked(once, later, timeout), later, timeout);
          twice.phase.Done? && twice.phase.idle && end.now == IdleAt(c, timeout))
  }

  lemma {:induction false} QuietReap(p: Pump, c: Clock, timeout: nat)
    requires Deadlines(p, IdleAt(c, timeout)) && InOrder(p) && Blocking(p)
    ensures EndsOnTime(p, c, timeout)
  {
  }

  /** Every blocked call of every run would be reaped on time. */
  lemma {:induction false} ReapOnTime(born: int, steps: seq<WorldStep>, timeout: nat)
    requires Runs(Begin(born), steps, timeout)
    ensures var w := After(Begin(born), steps, timeout);
            && (w.up.phase.Reading? || w.up.phase.Writing? ==>
                  Blocking(w.up) && EndsOnTime(w.up, w.clock, timeout))
            && (w.down.phase.Reading? || w.down.phase.Writing? ==>
                  Blocking(w.down) && EndsOnTime(w.down, w.clock, timeout))
  {
    RunKeepsInv(Begin(born), steps, timeout);
    var w := After(Begin(born), steps, timeout);
    if w.up.phase.Reading? || w.up.phase.Writing? {
      QuietReap(w.up, w.clock, timeout);
    }
    if w.down.phase.Reading? || w.down.phase.Writing? {
      QuietReap(w.down, w.clock, timeout);
    }
  }

  // ----- The copy loops ----------------------------------------------------

  /** What a pump's next step may meet: the clock it looks at, and what its call returns. */
  datatype Event = Event(clock: Clock, data: seq<Byte>, taken: nat, err: Error)

  /** The one step a pump that is not done takes next. */
  function NextStep(p: Pump, e: Event): PumpStep {
    match p.phase
    case Reading => Receive(e.data[..Min(|e.data|, BufferLength(p))], e.err)
    case Writing(rest, _, _) => Send(Min(e.taken, |rest|), e.err)
    case ToRead => Arm
    case ToWrite(_, _, _) => Arm
    case _ => Check
  }

  ghost function Driven(env: nat -> Event, timeout: nat, n: nat): Pump {
    if n == 0 then START else Next(Driven(env, timeout, n - 1), env(n - 1), timeout)
  }

  ghost function Next(p: Pump, e: Event, timeout: nat): Pump {
    if p.phase.Done? then p else Step(p, NextStep(p, e), e.clock, timeout)
  }

  ghost predicate Hop(path: nat -> Pump, env: nat -> Event, timeout: nat, n: nat) {
    path(n + 1) == Next(path(n), env(n), timeout)
  }

  lemma {:induction false} DrivenInOrder(env: nat -> Event, timeout: nat, n: nat)
    ensures InOrder(Driven(env, timeout, n))
  {
    if n > 0 {
      DrivenInOrder(env, timeout, n - 1);
      var p, e := Driven(env, timeout, n - 1), env(n - 1);
      if !p.phase.Done? {
        StepKeepsOrder(p, NextStep(p, e), e.clock, timeout);
      }
    }
  }

  /** `path` is a pump's whole way through the events, step by step. */
  ghost predicate Follows(path: nat -> Pump, env: nat -> Event, timeout: nat) {
    path(0) == START && forall n: nat :: Hop(path, env, timeout, n)
  }

  class ArmedDeadline {
    var at: Option<int>

    constructor ()
      ensures at == None
    {
      at := None;
    }

    method Arm(want: int, slack: nat)
      modifies this
      ensures at == Armed(old(at), want, slack)
      ensures at.Some? && want - at.value <= slack && (at.value <= want || at == old(at))
    {
      if at.Some? && want - at.value < slack {
        return;
      }
      at := Some(want);
    }

    method Forget()
      modifies this
      ensures at == None
    {
      at := None;
    }
  }

  class Destination {
    var got: seq<Byte>

    constructor ()
      ensures got == []
    {
      got := [];
    }

    method Write(b: seq<Byte>)
      modifies this
      ensures got == old(got) + b
    {
      got := got + b;
    }
  }

  /** One round of the write loop: arm, write, and after an error look at the clock. */
  lemma WriteRound(path: nat -> Pump, env: nat -> Event, timeout: nat, n: nat, p: Pump)
    requires Follows(path, env, timeout) && p == path(n) && p.phase.ToWrite?
    ensures var ToWrite(rest, filled, rerr) := p.phase;
            var e := env(n + 1);
            var k := Min(e.taken, |rest|);
            var q := p.(writeDL := Armed(p.writeDL, IdleAt(env(n).clock, timeout), Slack(timeout)),
                        written := p.written + rest[..k]);
            if e.err.NoError? then path(n + 2) == Wrote(q, rest[k..], filled, rerr)
            else
              path(n + 3)
              == if e.err.Timeout? && Active(env(n + 2).clock, timeout)
                 then Wrote(q.(writeDL := None), rest[k..], filled, rerr)
                 else q.(phase := Done(e.err.Timeout?, false))
  {
    assert Hop(path, env, timeout, n) && Hop(path, env, timeout, n + 1) && Hop(path, env, timeout, n + 2);
  }

  /** The head of the read loop: arm, and read into what the buffer holds. */
  lemma ReadRound(path: nat -> Pump, env: nat -> Event, timeout: nat, n: nat, p: Pump)
    requires Follows(path, env, timeout) && p == path(n) && p.phase.ToRead?
    ensures var e := env(n + 1);
            var q := p.(readDL := Armed(p.readDL, IdleAt(env(n).clock, timeout), Slack(timeout)), phase := Reading);
            path(n + 2) == Received(q, e.data[..Min(|e.data|, BufferLength(p))], e.err)
  {
    assert Hop(path, env, timeout, n) && Hop(path, env, timeout, n + 1);
  }

  /** Pump `p` as its direction's own state says it now is. */
  ghost function Now(p: Pump, dst: Destination, dl: ArmedDeadline): Pump
    reads dst, dl
  {
    p.(writeDL := dl.at, written := dst.got)
  }

  /** One write, with the look at the clock that an error calls for. */
  method WriteOnce(dst: Destination, b: seq<Byte>, timeout: nat, dl: ArmedDeadline,
                   env: nat -> Event, at: nat, ghost p: Pump, ghost path: nat -> Pump)
    returns (stopped: bool, idle: bool, rest: seq<Byte>, next: nat)
    requires b != [] && p.phase.ToWrite? && p.phase.rest == b
    requires Follows(path, env, timeout) && path(at) == Now(p, dst, dl)
    modifies dst, dl
    ensures next > at
    ensures path(next)
            == if stopped then Now(p, dst, dl).(phase := Done(idle, false))
               else Wrote(Now(p, dst, dl), rest, p.phase.filled, p.phase.rerr)
  {
    WriteRound(path, env, timeout, at, path(at));
    dl.Arm(IdleAt(env(at).clock, timeout), Slack(timeout));
    var e := env(at + 1);
    var n := Min(e.taken, |b|);
    dst.Write(b[..n]);
    rest := b[n..];
    if e.err.NoError? {
      return false, false, rest, at + 2;
    }
    if e.err.Timeout? && Active(env(at + 2).clock, timeout) {
      dl.Forget();
      return false, false, rest, at + 3;
    }
    return true, e.err.Timeout?, rest, at + 3;
  }

  /**
   Writes all of `b`, from event `from` on, as far as `limit` allows. It takes
   exactly the pump's steps.
  */
  method WriteActive(dst: Destination, b: seq<Byte>, timeout: nat, dl: ArmedDeadline,
                     env: nat -> Event, from: nat, limit: nat, ghost p: Pump, ghost path: nat -> Pump)
    returns (idle: bool, ok: bool, rest: seq<Byte>, next: nat)
    requires b != [] && p.phase.ToWrite? && p.phase.rest == b
    requires Follows(path, env, timeout) && path(from) == Now(p, dst, dl)
    modifies dst, dl
    ensures next >= from && (rest != [] && ok ==> next >= limit)
    ensures path(next)
            == if ok then Wrote(Now(p, dst, dl), rest, p.phase.filled, p.phase.rerr)
               else Now(p, dst, dl).(phase := Done(idle, false))
  {
    rest, next, idle := b, from, false;
    var stopped := false;
    while rest != [] && next < limit && !stopped
      invariant next >= from
      invariant path(next)
                == if stopped then Now(p, dst, dl).(phase := Done(idle, false))
                   else Wrote(Now(p, dst, dl), rest, p.phase.filled, p.phase.rerr)
      decreases if next < limit then limit - next else 0
    {
      stopped, idle, rest, next := WriteOnce(dst, rest, timeout, dl, env, next,
                                             p.(phase := ToWrite(rest, p.phase.filled, p.phase.rerr)), path);
    }
    ok := !stopped;
  }

  /** One read, before its bytes are written or its error looked at. */
  method ReadOnce(large: bool, timeout: nat, dl: ArmedDeadline, env: nat -> Event, at: nat, ghost p: Pump,
                  ghost path: nat -> Pump)
    returns (data: seq<Byte>, err: Error)
    requires p.phase.ToRead? && p.large == large && p.readDL == dl.at
    requires Follows(path, env, timeout) && path(at) == p
    modifies dl
    ensures |data| <= BufferLength(p)
    ensures path(at + 2) == Received(p.(readDL := dl.at, phase := Reading), data, err)
  {
    ReadRound(path, env, timeout, at, p);
    dl.Arm(IdleAt(env(at).clock, timeout), Slack(timeout));
    var e := env(at + 1);
    data, err := e.data[..Min(|e.data|, if large then LARGE else SMALL)], e.err;
  }

  /** After a read's error: go on while the connection is active, otherwise end. */
  method AfterError(err: Error, timeout: nat, dl: ArmedDeadline, env: nat -> Event, at: nat, ghost p: Pump,
                    ghost path: nat -> Pump)
    returns (ended: bool)
    requires p.phase == ReadFailed(err) && p.readDL == dl.at
    requires Follows(path, env, timeout) && path(at) == p
    modifies dl
    ensures path(at + 1)
            == p.(readDL := dl.at, phase := if ended then Done(err.Timeout?, err.Eof?) else ToRead)
  {
    assert Hop(path, env, timeout, at);
    ended := !(err.Timeout? && Active(env(at).clock, timeout));
    if !ended {
      dl.Forget();
    }
  }

  /** One direction, for as many events as `limit` allows. */
  method Copy(dst: Destination, timeout: nat, env: nat -> Event, limit: nat, ghost path: nat -> Pump)
    returns (idle: bool, finished: bool, steps: nat)
    requires dst.got == [] && Follows(path, env, timeout)
    modifies dst
    ensures dst.got == path(steps).written
    ensures if finished then path(steps).phase.Done? && path(steps).phase.idle == idle
            else steps >= limit && !path(steps).phase.Done?
  {
    var large := false;
    var readDL := new ArmedDeadline();
    var writeDL := new ArmedDeadline();
    ghost var p := START;
    steps := 0;
    while steps < limit
      invariant path(steps) == p
      invariant p == Pump(ToRead, readDL.at, writeDL.at, large, p.read, dst.got)
      decreases limit - steps
    {
      var data, err := ReadOnce(large, timeout, readDL, env, steps, p, path);
      steps, p := steps + 2, path(steps + 2);
      if data != [] {
        var ok, rest;
        idle, ok, rest, steps := WriteActive(dst, data, timeout, writeDL, env, steps, limit, p, path);
        p := path(steps);
        if !ok {
          return idle, true, steps;
        }
        if rest != [] {
          return false, false, steps;
        }
        large := large || |data| == (if large then LARGE else SMALL);
      }
      if !err.NoError? {
        var ended := AfterError(err, timeout, readDL, env, steps, p, path);
        steps, p := steps + 1, path(steps + 1);
        if ended {
          return err.Timeout?, true, steps;
        }
      }
    }
    return false, false, steps;
  }

  /**
   The loops do what the pump's steps do, however the calls turn out, so
   everything proved of the pumps holds of the loops.
  */
  method IdleCopy(dst: Destination, timeout: nat, env: nat -> Event, limit: nat)
    returns (idle: bool, finished: bool, steps: nat)
    requires dst.got == []
    modifies dst
    ensures var p := Driven(env, timeout, steps);
            && dst.got == p.written <= p.read
            && (if finished then p.phase.Done? && p.phase.idle == idle && (p.phase.clean ==> dst.got == p.read)
                else steps >= limit && !p.phase.Done?)
  {
    ghost var path := (n: nat) => Driven(env, timeout, n);
    forall n: nat ensures Hop(path, env, timeout, n) {
    }
    idle, finished, steps := Copy(dst, timeout, env, limit, path);
    DrivenInOrder(env, timeout, steps);
  }
}
