/** idlePump in relay/relay.go: two goroutines copy, one each way, while the main loop closes both ends
    after `idle` without a byte. Times are nanoseconds. A goroutine reads, then bumps the time of the
    last byte, then writes. Ticks are ideal: time does not pass a tick the main loop still waits for. */
module IdlePump {
  import opened Basics

  /** One direction's goroutine: reading, about to bump after a read made at `since`, about to write what
      it read, or finished. */
  datatype Phase =
    | Reading
    | Bumping(chunk: seq<Byte>, last: bool, since: int)
    | Writing(chunk: seq<Byte>, last: bool)
    | Finished

  /** `broken` after a write that failed, possibly part-way. */
  datatype Line = Line(got: seq<Byte>, sent: seq<Byte>, phase: Phase, broken: bool)

  datatype Main = Selecting | Closed(at: int, silent: bool, returned: bool)

  type Dir = d: int | 0 <= d < 2

  /** `heard` holds the time of every read that returned bytes, `bumped` the time of every bump, in either
      direction. */
  datatype Pump = Pump(idle: int, start: int, now: int, last: int, nextTick: int,
                       lines: seq<Line>, main: Main, heard: seq<int>, bumped: seq<int>)

  datatype Action =
    | Advance(to: int)
    | Read(d: Dir, chunk: seq<Byte>, err: bool)
    | Bump(d: Dir)
    | Write(d: Dir, n: nat, ok: bool)
    | Tick
    | Receive(d: Dir)                  // the main loop takes a finished direction's token

  const FRESH := Line([], [], Reading, false)

  function Start(idle: int, start: int): Pump {
    Pump(idle, start, start, start, start + idle / 2, [FRESH, FRESH], Selecting, [], [])
  }

  predicate Enabled(p: Pump, a: Action)
    requires |p.lines| == 2
  {
    match a
    case Advance(to) => p.now <= to && (p.main.Selecting? ==> to <= p.nextTick)
    case Read(d, _, _) => p.lines[d].phase.Reading?
    case Bump(d) => p.lines[d].phase.Bumping?
    case Write(d, n, ok) =>
      p.lines[d].phase.Writing? && n <= |p.lines[d].phase.chunk| && (ok ==> n == |p.lines[d].phase.chunk|)
    case Tick => p.main.Selecting? && p.now == p.nextTick
    case Receive(d) => p.lines[d].phase.Finished? && (p.main.Closed? ==> p.main.silent && !p.main.returned)
  }

  function AfterRead(l: Line, chunk: seq<Byte>, err: bool, now: int): Line {
    if chunk != [] then l.(got := l.got + chunk, phase := Bumping(chunk, err, now))
    else if err then l.(phase := Finished) else l
  }

  function AfterBump(l: Line): Line
    requires l.phase.Bumping?
  {
    l.(phase := Writing(l.phase.chunk, l.phase.last))
  }

  function AfterWrite(l: Line, n: nat, ok: bool): Line
    requires l.phase.Writing? && n <= |l.phase.chunk|
  {
    l.(sent := l.sent + l.phase.chunk[..n],
       phase := if !ok || l.phase.last then Finished else Reading,
       broken := !ok)
  }

  function Do(p: Pump, a: Action): Pump
    requires |p.lines| == 2 && Enabled(p, a)
  {
    match a
    case Advance(to) => p.(now := to)
    case Read(d, chunk, err) =>
      p.(lines := p.lines[d := AfterRead(p.lines[d], chunk, err, p.now)],
         heard := if chunk != [] then p.heard + [p.now] else p.heard)
    case Bump(d) => p.(lines := p.lines[d := AfterBump(p.lines[d])], last := p.now, bumped := p.bumped + [p.now])
    case Write(d, n, ok) => p.(lines := p.lines[d := AfterWrite(p.lines[d], n, ok)])
    case Tick =>
      if p.now - p.last >= p.idle then p.(main := Closed(p.now, true, false))
      else p.(nextTick := p.nextTick + p.idle / 2)
    case Receive(_) =>
      if p.main.Selecting? then p.(main := Closed(p.now, false, true)) else p.(main := p.main.(returned := true))
  }

  function Next(p: Pump, a: Action): (q: Pump)
    requires |p.lines| == 2
    ensures |q.lines| == 2
  {
    if Enabled(p, a) then Do(p, a) else p
  }

  function Run(p: Pump, acts: seq<Action>): (q: Pump)
    requires |p.lines| == 2
    ensures |q.lines| == 2
    decreases |acts|
  {
    if acts == [] then p else Run(Next(p, acts[0]), acts[1..])
  }

  // ----- What every step keeps -----

  predicate LineSound(l: Line) {
    && l.sent <= l.got
    && (l.broken ==> l.phase.Finished?)
    && (!l.broken ==> l.got == l.sent + if l.phase.Writing? || l.phase.Bumping? then l.phase.chunk else [])
  }

  /** `last` is when the latest bump was made, or the start. */
  predicate LastBump(p: Pump) {
    && p.start <= p.last <= p.now
    && (forall i :: 0 <= i < |p.bumped| ==> p.start <= p.bumped[i] <= p.last)
    && (p.last == p.start || p.last in p.bumped)
  }

  /** Every read has been bumped since, or is the one that a direction is about to bump. */
  predicate ReadsBumped(p: Pump)
    requires |p.lines| == 2
  {
    && (forall r :: r in p.heard ==> ReadBumped(p, r))
    && (forall d: Dir :: p.lines[d].phase.Bumping? ==> p.lines[d].phase.since in p.heard)
  }

  predicate ReadBumped(p: Pump, r: int)
    requires |p.lines| == 2
  {
    p.start <= r <= p.now && (r <= p.last || Pending(p, 0, r) || Pending(p, 1, r))
  }

  /** Direction d has read at r and not bumped. */
  predicate Pending(p: Pump, d: Dir, r: int)
    requires |p.lines| == 2
  {
    p.lines[d].phase.Bumping? && p.lines[d].phase.since == r
  }

  /** None of the times falls into the idle time before the close. */
  predicate QuietBefore(times: seq<int>, at: int, idle: int) {
    forall i :: 0 <= i < |times| ==> times[i] <= at - idle || at <= times[i]
  }

  /** The close came less than idle + idle/2 after a bump at l, or after the start; and no less than idle
      after it if it was for silence. */
  predicate SoonAfter(p: Pump, l: int)
    requires p.main.Closed?
  {
    && (l == p.start || l in p.bumped)
    && l <= p.main.at < l + p.idle + p.idle / 2
    && (p.main.silent ==> l + p.idle <= p.main.at)
  }

  ghost predicate InTime(p: Pump)
    requires p.main.Closed?
  {
    exists l :: SoonAfter(p, l)
  }

  ghost predicate Timed(p: Pump) {
    match p.main
    case Selecting => p.now <= p.nextTick && p.nextTick - p.idle / 2 - p.last < p.idle
    case Closed(at, silent, _) =>
      && p.start <= at <= p.now && InTime(p)
      && (silent ==> p.idle <= at - p.start && QuietBefore(p.bumped, at, p.idle))
  }

  ghost predicate Sound(p: Pump) {
    && p.idle >= 2
    && |p.lines| == 2 && LineSound(p.lines[0]) && LineSound(p.lines[1])
    && LastBump(p) && ReadsBumped(p)
    && Timed(p)
  }

  lemma ReadKeeps(l: Line, chunk: seq<Byte>, err: bool, now: int)
    requires LineSound(l) && l.phase.Reading?
    ensures LineSound(AfterRead(l, chunk, err, now))
  {
    if chunk != [] && !l.broken { assert l.got + chunk == l.sent + chunk; }
  }

  lemma WriteKeeps(l: Line, n: nat, ok: bool)
    requires LineSound(l) && l.phase.Writing? && n <= |l.phase.chunk| && (ok ==> n == |l.phase.chunk|)
    ensures LineSound(AfterWrite(l, n, ok))
  {
    var chunk := l.phase.chunk;
    assert chunk[..n] + chunk[n..] == chunk;
    assert l.sent + chunk == l.sent + chunk[..n] + chunk[n..];
  }

  lemma BumpKeeps(l: Line)
    requires LineSound(l) && l.phase.Bumping?
    ensures LineSound(AfterBump(l))
  {}

  lemma LinesKeep(p: Pump, a: Action)
    requires Sound(p) && Enabled(p, a)
    ensures |Do(p, a).lines| == 2 && LineSound(Do(p, a).lines[0]) && LineSound(Do(p, a).lines[1])
  {
    hide LineSound, AfterRead, AfterBump, AfterWrite, LastBump, ReadsBumped, Timed;
    match a
    case Read(d, chunk, err) => ReadKeeps(p.lines[d], chunk, err, p.now);
    case Bump(d) => BumpKeeps(p.lines[d]);
    case Write(d, n, ok) => WriteKeeps(p.lines[d], n, ok);
    case _ =>
  }

  lemma LastBumpKeeps(p: Pump, a: Action)
    requires Sound(p) && Enabled(p, a)
    ensures LastBump(Do(p, a))
  {
    hide LineSound, AfterRead, AfterBump, AfterWrite, ReadsBumped, Timed;
    var q := Do(p, a);
    if a.Bump? {
      assert q.bumped[|p.bumped|] == p.now;
    } else {
      assert q.bumped == p.bumped && q.last == p.last;
    }
  }

  lemma ReadBumpedKeeps(p: Pump, a: Action, r: int)
    requires |p.lines| == 2 && Enabled(p, a) && ReadBumped(p, r)
    requires forall d: Dir :: p.lines[d].phase.Bumping? ==> p.lines[d].phase.since <= p.now
    requires p.last <= p.now
    ensures ReadBumped(Do(p, a), r)
  {}

  lemma PendingKeeps(p: Pump, a: Action, d: Dir)
    requires |p.lines| == 2 && Enabled(p, a) && Do(p, a).lines[d].phase.Bumping?
    requires forall e: Dir :: p.lines[e].phase.Bumping? ==> p.lines[e].phase.since in p.heard
    ensures Do(p, a).lines[d].phase.since in Do(p, a).heard
  {
    if a.Read? && a.chunk != [] { assert Do(p, a).heard[|p.heard|] == p.now; }
    assert forall r :: r in p.heard ==> r in Do(p, a).heard;
  }

  lemma NewReadPending(p: Pump, d: Dir, chunk: seq<Byte>, err: bool)
    requires |p.lines| == 2 && Enabled(p, Read(d, chunk, err)) && chunk != [] && p.start <= p.now
    ensures ReadBumped(Do(p, Read(d, chunk, err)), p.now)
  {}

  lemma ReadsBumpedKeeps(p: Pump, a: Action)
    requires Sound(p) && Enabled(p, a)
    ensures ReadsBumped(Do(p, a))
  {
    hide LineSound, LastBump, Timed, AfterRead, AfterBump, AfterWrite, Enabled;
    var q := Do(p, a);
    LastIsPast(p);
    forall r | r in q.heard ensures ReadBumped(q, r) {
      if r in p.heard {
        ReadBumpedKeeps(p, a, r);
      } else {
        NewReadPending(p, a.d, a.chunk, a.err);
      }
    }
    forall d: Dir | q.lines[d].phase.Bumping? ensures q.lines[d].phase.since in q.heard { PendingKeeps(p, a, d); }
  }

  lemma LastIsPast(p: Pump)
    requires LastBump(p)
    ensures p.start <= p.last <= p.now
  {}

  lemma TimesKeep(p: Pump, a: Action)
    requires Sound(p) && Enabled(p, a)
    ensures Timed(Do(p, a))
  {
    hide LineSound, AfterRead, AfterBump, AfterWrite, InTime, ReadsBumped;
    var q := Do(p, a);
    if p.main.Selecting? && q.main.Closed? {
      ClosesInTime(q, p.last);
    } else if p.main.Closed? {
      assert forall l :: l in p.bumped ==> l in q.bumped;
      StaysInTime(p, q);
    }
  }

  lemma ClosesInTime(q: Pump, l: int)
    requires q.main.Closed? && SoonAfter(q, l)
    ensures InTime(q)
  {}

  lemma StaysInTime(p: Pump, q: Pump)
    requires p.main.Closed? && q.main.Closed? && InTime(p)
    requires q.main.at == p.main.at && q.main.silent == p.main.silent && q.start == p.start && q.idle == p.idle
    requires forall l :: l in p.bumped ==> l in q.bumped
    ensures InTime(q)
  {
    var l :| SoonAfter(p, l);
    assert SoonAfter(q, l);
  }

  lemma StepSound(p: Pump, a: Action)
    requires Sound(p) && Enabled(p, a)
    ensures Sound(Do(p, a)) && Do(p, a).idle == p.idle && Do(p, a).start == p.start
  {
    hide LineSound, LastBump, ReadsBumped, Timed, AfterRead, AfterBump, AfterWrite;
    LinesKeep(p, a);
    LastBumpKeeps(p, a);
    ReadsBumpedKeeps(p, a);
    TimesKeep(p, a);
  }

  lemma {:induction false} RunSound(p: Pump, acts: seq<Action>)
    requires Sound(p)
    ensures Sound(Run(p, acts)) && Run(p, acts).idle == p.idle && Run(p, acts).start == p.start
    decreases |acts|
  {
    assert |p.lines| == 2;
    hide Sound, Do, Enabled;
    if acts != [] {
      if Enabled(p, acts[0]) { StepSound(p, acts[0]); }
      RunSound(Next(p, acts[0]), acts[1..]);
    }
  }

  lemma StartSound(idle: int, start: int)
    requires idle >= 2
    ensures Sound(Start(idle, start))
  {}

  // ----- What follows for every run -----

  /** Both ends are closed for silence only after `idle` in which neither direction bumped. */
  lemma ClosesOnlyInSilence(idle: int, start: int, acts: seq<Action>)
    requires idle >= 2
    ensures var p := Run(Start(idle, start), acts);
            p.main.Closed? && p.main.silent ==>
              p.main.at >= start + idle && forall b :: b in p.bumped ==> b <= p.main.at - idle || p.main.at <= b
  {
    hide Run;
    StartSound(idle, start);
    RunSound(Start(idle, start), acts);
  }

  /** A read that a direction made less than idle ago and has not bumped yet. */
  predicate UnbumpedLately(p: Pump, d: Dir)
    requires |p.lines| == 2
  {
    p.lines[d].phase.Bumping? && p.lines[d].phase.since > p.now - p.idle
  }

  /** Exactly when a close for silence overlooks a byte: at a tick that closes, no byte was read for `idle`
      if and only if no direction has such a read that it has not bumped yet. */
  lemma SilentCloseIffBumped(idle: int, start: int, acts: seq<Action>)
    requires idle >= 2
    requires var p := Run(Start(idle, start), acts); Enabled(p, Tick) && p.now - p.last >= idle
    ensures var p := Run(Start(idle, start), acts);
            && Do(p, Tick).main == Closed(p.now, true, false)
            && ((forall r :: r in p.heard ==> r <= p.now - idle) <==> !UnbumpedLately(p, 0) && !UnbumpedLately(p, 1))
  {
    hide Run, LineSound, Timed;
    StartSound(idle, start);
    RunSound(Start(idle, start), acts);
  }

  /** With the latest bump at `latest`, or the start, both ends are closed before latest + idle + idle/2:
      the pump is closed in every state from then on, and was closed earlier. */
  lemma SilenceCloses(idle: int, start: int, acts: seq<Action>, latest: int)
    requires idle >= 2 && start <= latest
    requires var p := Run(Start(idle, start), acts);
             forall b :: b in p.bumped && b > latest ==>
               p.main.Closed? && if p.main.silent then p.main.at <= b else p.main.at < b
    ensures var p := Run(Start(idle, start), acts);
            && (p.now >= latest + idle + idle / 2 ==> p.main.Closed?)
            && (p.main.Closed? ==> p.main.at < latest + idle + idle / 2)
  {
    hide Run;
    StartSound(idle, start);
    RunSound(Start(idle, start), acts);
    var p := Run(Start(idle, start), acts);
    if p.main.Closed? {
      var l :| SoonAfter(p, l);
      assert l <= latest;
    } else {
      assert p.last <= latest;
    }
  }

  /** Each direction delivers a prefix of what was read, and all of it when it ended without a failed write. */
  lemma DeliversPrefix(idle: int, start: int, acts: seq<Action>, d: Dir)
    requires idle >= 2
    ensures var l := Run(Start(idle, start), acts).lines[d];
            l.sent <= l.got && (l.phase.Finished? && !l.broken ==> l.sent == l.got)
  {
    hide Run;
    StartSound(idle, start);
    RunSound(Start(idle, start), acts);
    assert LineSound(Run(Start(idle, start), acts).lines[d]);
  }

  // ----- How a direction ends, and the pump with it -----

  /** A direction finishes just when its read ends without bytes, its write fails, or it has written what came
      with the end of the read; and it never starts again. */
  lemma LineFinishesIff(p: Pump, a: Action, d: Dir)
    requires |p.lines| == 2 && Enabled(p, a)
    ensures Do(p, a).lines[d].phase.Finished? <==>
            || p.lines[d].phase.Finished?
            || a == Read(d, [], true)
            || (a.Write? && a.d == d && (!a.ok || p.lines[d].phase.last))
    ensures a.Read? && a.d == d && a.chunk != [] ==> Do(p, a).lines[d].phase == Bumping(a.chunk, a.err, p.now)
    ensures a.Bump? && a.d == d ==>
              Do(p, a).lines[d].phase == Writing(p.lines[d].phase.chunk, p.lines[d].phase.last)
    ensures a.Write? && a.d == d ==> Do(p, a).lines[d].sent == p.lines[d].sent + p.lines[d].phase.chunk[..a.n]
  {}

  /** The main loop has something to take just when a direction has finished. Taking it closes both ends, if
      silence has not closed them before, and the call returns; so it is taken once. */
  lemma FinishedClosesBoth(p: Pump, d: Dir)
    requires |p.lines| == 2
    ensures Enabled(p, Receive(d)) <==>
              p.lines[d].phase.Finished? && (p.main.Selecting? || (p.main.silent && !p.main.returned))
    ensures Enabled(p, Receive(d)) ==>
              Do(p, Receive(d)) == p.(main := if p.main.Selecting? then Closed(p.now, false, true)
                                              else Closed(p.main.at, true, true))
  {}

  /** What is read can be delivered: after a read, a bump and a whole write all of it has been sent, and the
      direction reads on unless its end came with those bytes. */
  lemma ChunkPasses(p: Pump, d: Dir, chunk: seq<Byte>, err: bool)
    requires |p.lines| == 2 && p.lines[d].phase.Reading? && chunk != []
    ensures var q := Run(p, [Read(d, chunk, err), Bump(d), Write(d, |chunk|, true)]);
            var l := p.lines[d];
            q.lines[d] == Line(l.got + chunk, l.sent + chunk, if err then Finished else Reading, false)
  {
    hide Run;
    var a, b, c := Read(d, chunk, err), Bump(d), Write(d, |chunk|, true);
    assert [a, b, c] == [a] + [b, c];
    RunCons(p, a, [b, c]);
    RunTwo(Next(p, a), b, c);
    assert chunk[..|chunk|] == chunk;
  }

  predicate EndedFirst(p: Pump)
    requires |p.lines| == 2
  {
    p.main.Closed? && (!p.main.silent || p.main.returned) ==>
      p.lines[0].phase.Finished? || p.lines[1].phase.Finished?
  }

  lemma {:induction false} EndedFirstRun(p: Pump, acts: seq<Action>)
    requires |p.lines| == 2 && EndedFirst(p)
    ensures EndedFirst(Run(p, acts))
    decreases |acts|
  {
    hide AfterRead, AfterBump, AfterWrite;
    if acts != [] {
      if Enabled(p, acts[0]) {
        LineFinishesIff(p, acts[0], 0);
        LineFinishesIff(p, acts[0], 1);
      }
      EndedFirstRun(Next(p, acts[0]), acts[1..]);
    }
  }

  /** Without silence nothing is closed before a direction has finished; and the call returns only after one has. */
  lemma ClosesOnlyAtAnEnd(idle: int, start: int, acts: seq<Action>)
    ensures var p := Run(Start(idle, start), acts);
            p.main.Closed? && (!p.main.silent || p.main.returned) ==>
              p.lines[0].phase.Finished? || p.lines[1].phase.Finished?
  {
    hide Run;
    EndedFirstRun(Start(idle, start), acts);
  }

  lemma RunOne(p: Pump, a: Action)
    requires |p.lines| == 2
    ensures Run(p, [a]) == Next(p, a)
  {
    hide Next;
    assert [a][1..] == [];
    assert Run(Next(p, a), []) == Next(p, a);
  }

  lemma RunTwo(p: Pump, a: Action, b: Action)
    requires |p.lines| == 2
    ensures Run(p, [a, b]) == Next(Next(p, a), b)
  {
    hide Next;
    assert [a, b][1..] == [b];
    RunOne(Next(p, a), b);
  }

  /** The bound is not met by stopping the clock: the main loop can always take its tick and let time pass,
      or it has closed. */
  lemma TimeCanPass(p: Pump)
    requires Sound(p)
    ensures var q := Run(p, [Tick, Advance(p.now + 1)]);
            q.main.Closed? || q.now == p.now + 1
  {
    hide Run, LineSound, LastBump, ReadsBumped;
    RunTwo(p, Tick, Advance(p.now + 1));
  }

  /** Once closed, closed: the time and the reason of the close never change. */
  lemma {:induction false} ClosedForGood(p: Pump, acts: seq<Action>)
    requires |p.lines| == 2 && p.main.Closed?
    ensures var q := Run(p, acts);
            q.main.Closed? && q.main.at == p.main.at && q.main.silent == p.main.silent
    decreases |acts|
  {
    if acts != [] { ClosedForGood(Next(p, acts[0]), acts[1..]); }
  }

  /** A run that closes on a byte just read: with idle 4, a read at 3 is not bumped before the tick at 4. */
  lemma ClosesOnUnbumpedRead()
    ensures var p := Run(Start(4, 0), [Advance(2), Tick, Advance(3), Read(0, [7], false), Advance(4), Tick]);
            p.main == Closed(4, true, false) && p.heard == [3]
  {
    hide Run;
    var a, b, c, d, e, f := Advance(2), Tick, Advance(3), Read(0, [7], false), Advance(4), Tick;
    assert [a, b, c, d, e, f] == [a] + [b, c, d, e, f] && [b, c, d, e, f] == [b] + [c, d, e, f];
    assert [c, d, e, f] == [c] + [d, e, f] && [d, e, f] == [d] + [e, f];
    var p2 := Next(Next(Start(4, 0), a), b);
    var p4 := Next(Next(p2, c), d);
    RunCons(Start(4, 0), a, [b, c, d, e, f]);
    RunCons(Next(Start(4, 0), a), b, [c, d, e, f]);
    RunCons(p2, c, [d, e, f]);
    RunCons(Next(p2, c), d, [e, f]);
    RunTwo(p4, e, f);
    assert p2.nextTick == 4 && p2.now == 2;
    assert p4.heard == [3];
  }

  lemma RunCons(p: Pump, a: Action, rest: seq<Action>)
    requires |p.lines| == 2
    ensures Run(p, [a] + rest) == Run(Next(p, a), rest)
  {
    hide Next;
    assert ([a] + rest)[1..] == rest;
  }
}
