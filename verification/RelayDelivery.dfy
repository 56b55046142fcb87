/** What reaches a peer: over every schedule, the bytes one connection receives from another are a
    contiguous, in-order piece of what was read there. */
module RelayDelivery {
  import opened Basics
  import opened RelayProtocol
  import opened RelayTakeover

  // ----- Packets -----

  function From(ps: seq<Packet>, a: nat): seq<Packet> {
    if ps == [] then []
    else From(ps[..|ps| - 1], a) + if ps[|ps| - 1].from == a then [ps[|ps| - 1]] else []
  }

  function To(ps: seq<Packet>, v: nat): seq<Packet> {
    if ps == [] then []
    else To(ps[..|ps| - 1], v) + if ps[|ps| - 1].to == v then [ps[|ps| - 1]] else []
  }

  function Bytes(ps: seq<Packet>): seq<Byte> {
    if ps == [] then [] else Bytes(ps[..|ps| - 1]) + ps[|ps| - 1].data
  }

  /** What v has received from a. */
  function Received(w: World, v: nat, a: nat): seq<Byte> { Bytes(To(From(w.wire, a), v)) }

  /** A sender that has turned from one peer to another does not turn back. */
  ghost predicate Grouped(ps: seq<Packet>) {
    forall i, j, k :: 0 <= i < j < k < |ps| && ps[i].to == ps[k].to ==> ps[j].to == ps[i].to
  }

  ghost predicate Targets(ps: seq<Packet>, v: nat) {
    exists i :: 0 <= i < |ps| && ps[i].to == v
  }

  lemma {:induction false} NotTargeted(ps: seq<Packet>, v: nat)
    requires !Targets(ps, v)
    ensures To(ps, v) == []
  {
    if ps != [] {
      var n := |ps| - 1;
      assert ps[n].to != v;
      assert forall i :: 0 <= i < n ==> ps[..n][i] == ps[i];
      NotTargeted(ps[..n], v);
    }
  }

  /** In a grouped stream that ends with a packet for v, the packets for v are the last ones. */
  lemma GroupedInit(ps: seq<Packet>)
    requires Grouped(ps) && ps != []
    ensures var n := |ps| - 1;
            Grouped(ps[..n]) && (Targets(ps[..n], ps[n].to) ==> n > 0 && ps[..n][n - 1].to == ps[n].to)
  {
    var n := |ps| - 1;
    var init := ps[..n];
    assert forall i :: 0 <= i < n ==> init[i] == ps[i];
    if Targets(init, ps[n].to) {
      var i :| 0 <= i < n && init[i].to == ps[n].to;
      assert ps[i].to == ps[n].to;
    }
  }

  lemma SliceGrows(b: seq<Byte>, d: seq<Byte>, lo: nat, hi: nat)
    requires lo <= hi <= |b|
    ensures (b + d)[lo..hi] == b[lo..hi]
    ensures hi == |b| ==> (b + d)[lo..|b + d|] == b[lo..hi] + d
  {}

  /** If the packets are grouped, those for one peer are a contiguous piece of the stream. */
  lemma {:induction false} GroupedIsInfix(ps: seq<Packet>, v: nat) returns (lo: nat, hi: nat)
    requires Grouped(ps)
    ensures lo <= hi <= |Bytes(ps)| && Bytes(To(ps, v)) == Bytes(ps)[lo..hi]
    ensures ps != [] && ps[|ps| - 1].to == v ==> hi == |Bytes(ps)|
  {
    hide Grouped, Targets;
    if ps == [] {
      lo, hi := 0, 0;
    } else {
      var n := |ps| - 1;
      var init, p := ps[..n], ps[n];
      GroupedInit(ps);
      assert Bytes(ps) == Bytes(init) + p.data;
      if p.to == v && !Targets(init, v) {
        NotTargeted(init, v);
        lo, hi := |Bytes(init)|, |Bytes(init)|;
        EmptyBytes();
      } else {
        lo, hi := GroupedIsInfix(init, v);
      }
      SliceGrows(Bytes(init), p.data, lo, hi);
      if p.to == v {
        Last(To(init, v), p);
        hi := |Bytes(ps)|;
      } else {
        assert To(init, v) + [] == To(init, v);
      }
    }
  }

  lemma Last(ps: seq<Packet>, p: Packet)
    ensures Bytes(ps + [p]) == Bytes(ps) + p.data
  {
    assert (ps + [p])[..|ps|] == ps;
  }

  lemma FromStep(ps: seq<Packet>, p: Packet, a: nat)
    ensures From(ps + [p], a) == From(ps, a) + if p.from == a then [p] else []
  {
    assert (ps + [p])[..|ps|] == ps;
  }

  // ----- The invariant of one sender -----

  /** The bytes of the chunk in hand. */
  function Pending(p: Phase): seq<Byte> {
    match p
    case HasChunk(data, _) => data
    case Targeted(_, data, _) => data
    case Waiting(_, data, _) => data
    case _ => []
  }

  /** v is the peer that a would write to next. */
  predicate IsPeer(w: World, a: nat, v: nat)
    requires a in w.conns
  {
    IsCurrent(w, a) && w.t.slots[w.conns[a].se].At(w.conns[a].role.Other()) == Some(v)
  }

  /** What a has passed on, to whomever, is what it read up to the chunk in hand; a reader that has
      broken out of its loop passes on nothing more. */
  ghost predicate PassesOn(w: World, a: nat)
    requires a in w.conns
  {
    var x := w.conns[a];
    var passed := Bytes(From(w.wire, a));
    if x.phase.Leaving? || x.phase.Closing? || x.phase.Done? then passed <= x.read
    else passed + Pending(x.phase) == x.read
  }

  /** Packets to someone a may still write to are its latest. */
  ghost predicate LatestTo(ps: seq<Packet>, v: nat) {
    forall i, j :: 0 <= i < j < |ps| && ps[i].to == v ==> ps[j].to == v
  }

  ghost predicate TurnsOnce(w: World, a: nat)
    requires a in w.conns
  {
    var x := w.conns[a];
    var sent := From(w.wire, a);
    && Grouped(sent)
    && (forall v :: IsPeer(w, a, v) ==> LatestTo(sent, v))
    && (x.phase.Targeted? ==> LatestTo(sent, x.phase.peer))
    && (forall v :: x.phase.Targeted? && IsPeer(w, a, v) && v != x.phase.peer ==> !Targets(sent, v))
  }

  /** Only connections are written to, and only connections write. */
  ghost predicate WireSound(w: World) {
    forall i :: 0 <= i < |w.wire| ==> w.wire[i].from in w.conns && w.wire[i].to in w.conns
  }

  ghost predicate Delivers(w: World) {
    && WireSound(w)
    && (forall a :: a in w.conns ==> PassesOn(w, a) && TurnsOnce(w, a))
  }

  lemma {:induction false} FromIsOnWire(ps: seq<Packet>, a: nat)
    ensures forall i :: 0 <= i < |From(ps, a)| ==> From(ps, a)[i] in ps && From(ps, a)[i].from == a
  {
    if ps != [] { FromIsOnWire(ps[..|ps| - 1], a); }
  }

  lemma NobodyWrites(w: World, a: nat)
    requires WireSound(w) && a !in w.conns
    ensures From(w.wire, a) == []
  {
    FromNobody(w.wire, a);
  }

  lemma {:induction false} FromNobody(ps: seq<Packet>, a: nat)
    requires forall i :: 0 <= i < |ps| ==> ps[i].from != a
    ensures From(ps, a) == []
  {
    if ps != [] { FromNobody(ps[..|ps| - 1], a); }
  }

  lemma NobodyReaches(w: World, a: nat, v: nat)
    requires WireSound(w) && v !in w.conns
    ensures !Targets(From(w.wire, a), v)
  {
    FromIsOnWire(w.wire, a);
    forall i | 0 <= i < |From(w.wire, a)| ensures From(w.wire, a)[i].to != v {
      assert From(w.wire, a)[i] in w.wire;
    }
  }

  // ----- Each step keeps it -----

  lemma PassesStep(w: World, a: Action, d: nat)
    requires Delivers(w) && Enabled(w, a) && d in Do(w, a).conns
    ensures PassesOn(Do(w, a), d)
  {
    hide TurnsOnce, From, Bytes, PassesOn, Do;
    if d !in w.conns {
      PassesNew(w, a, d);
    } else if a.Write? && d == a.c {
      PassesWrite(w, a);
    } else {
      PassesOther(w, a, d);
    }
  }

  lemma PassesNew(w: World, a: Action, d: nat)
    requires WireSound(w) && Enabled(w, a) && d in Do(w, a).conns && d !in w.conns
    ensures PassesOn(Do(w, a), d)
  {
    hide From, Bytes;
    NobodyWrites(w, d);
    EmptyBytes();
  }

  lemma PassesOther(w: World, a: Action, d: nat)
    requires d in w.conns && PassesOn(w, d) && Enabled(w, a) && d in Do(w, a).conns && !(a.Write? && d == a.c)
    ensures PassesOn(Do(w, a), d)
  {
    hide From, Bytes;
    var passed := Bytes(From(w.wire, d));
    var read := w.conns[d].read;
    assert passed + [] == passed;
    assert passed + Pending(w.conns[d].phase) == read ==> passed <= read;
    if a.Write? {
      FromStep(w.wire, Packet(a.c, w.conns[a.c].phase.peer, w.conns[a.c].phase.data[..a.n]), d);
      assert From(w.wire, d) + [] == From(w.wire, d);
    }
  }

  lemma EmptyBytes()
    ensures Bytes([]) == []
  {}

  lemma PassesWrite(w: World, a: Action)
    requires Enabled(w, a) && a.Write? && PassesOn(w, a.c)
    ensures PassesOn(Do(w, a), a.c)
  {
    hide From, Bytes;
    var x := w.conns[a.c];
    var p := Packet(a.c, x.phase.peer, x.phase.data[..a.n]);
    FromStep(w.wire, p, a.c);
    Last(From(w.wire, a.c), p);
    assert x.phase.data == x.phase.data[..a.n] + x.phase.data[a.n..];
  }

  /** Whom a may write to next changes only by a newcomer, or to nobody. */
  lemma PeerStep(w: World, a: Action, d: nat, v: nat)
    requires Sound(w) && Enabled(w, a) && d in w.conns
    requires d in Do(w, a).conns && IsPeer(Do(w, a), d, v)
    ensures v !in w.conns || IsPeer(w, d, v)
  {
    hide SoundMap;
    assert SoundReader(w, d);
    if !a.Connect? && !a.Exit? { LocalKeeps(w, a); }
  }

  lemma GroupedStep(ps: seq<Packet>, p: Packet)
    requires Grouped(ps) && LatestTo(ps, p.to)
    ensures Grouped(ps + [p]) && LatestTo(ps + [p], p.to)
  {
    var qs := ps + [p];
    assert forall i :: 0 <= i < |ps| ==> qs[i] == ps[i];
  }

  lemma LatestIfNot(ps: seq<Packet>, v: nat)
    requires !Targets(ps, v)
    ensures LatestTo(ps, v)
  {}

  lemma TurnsWrite(w: World, a: Action)
    requires Sound(w) && Enabled(w, a) && a.Write? && TurnsOnce(w, a.c)
    ensures TurnsOnce(Do(w, a), a.c)
  {
    hide From, Grouped, LatestTo, Targets, Sound;
    var x := w.conns[a.c];
    var sent := From(w.wire, a.c);
    var p := Packet(a.c, x.phase.peer, x.phase.data[..a.n]);
    FromStep(w.wire, p, a.c);
    GroupedStep(sent, p);
    LocalKeeps(w, a);
    forall v | IsPeer(Do(w, a), a.c, v) ensures LatestTo(sent + [p], v) {
      if v != p.to { NotTargetedStep(sent, p, v); }
    }
  }

  lemma NotTargetedStep(ps: seq<Packet>, p: Packet, v: nat)
    requires !Targets(ps, v) && p.to != v
    ensures !Targets(ps + [p], v) && LatestTo(ps + [p], v)
  {
    assert forall i :: 0 <= i < |ps| ==> (ps + [p])[i] == ps[i];
    assert forall i :: 0 <= i < |ps + [p]| ==> (ps + [p])[i].to != v;
  }

  /** The sender's packets and its phase as they were: only its peer may have changed. */
  lemma TurnsOther(w: World, a: Action, d: nat)
    requires Sound(w) && WireSound(w) && Enabled(w, a) && d in w.conns && TurnsOnce(w, d)
    requires d != a.c || (!a.Write? && !a.Look?)
    ensures d in Do(w, a).conns && TurnsOnce(Do(w, a), d)
  {
    hide Sound, Grouped, LatestTo, Targets, From, WireSound, IsPeer;
    var w' := Do(w, a);
    KeepsPacketsAndTarget(w, a, d);
    var sent := From(w.wire, d);
    forall v | IsPeer(w', d, v) ensures LatestTo(sent, v) && (!IsPeer(w, d, v) ==> !Targets(sent, v)) {
      PeerStep(w, a, d, v);
      if v !in w.conns {
        NobodyReaches(w, d, v);
        LatestIfNot(sent, v);
      }
    }
  }

  lemma KeepsPacketsAndTarget(w: World, a: Action, d: nat)
    requires Enabled(w, a) && d in w.conns && (d != a.c || (!a.Write? && !a.Look?))
    ensures d in Do(w, a).conns && From(Do(w, a).wire, d) == From(w.wire, d)
    ensures Do(w, a).conns[d].phase.Targeted? ==> Do(w, a).conns[d].phase == w.conns[d].phase
  {
    hide From;
    if a.Write? { FromStep(w.wire, Packet(a.c, w.conns[a.c].phase.peer, w.conns[a.c].phase.data[..a.n]), d); }
  }

  lemma TurnsLook(w: World, a: Action)
    requires Sound(w) && Enabled(w, a) && a.Look? && TurnsOnce(w, a.c)
    ensures TurnsOnce(Do(w, a), a.c)
  {
    hide From, Grouped, LatestTo, Targets, Sound;
    LocalKeeps(w, a);
  }

  lemma StepDelivers(w: World, a: Action)
    requires Sound(w) && Delivers(w) && Enabled(w, a)
    ensures Delivers(Do(w, a))
  {
    hide Sound, Do, PassesOn, TurnsOnce, WireSound;
    WireStep(w, a);
    forall d | d in Do(w, a).conns ensures PassesOn(Do(w, a), d) && TurnsOnce(Do(w, a), d) {
      PassesStep(w, a, d);
      if d !in w.conns {
        NewSender(w, a, d);
      } else if d == a.c && a.Write? {
        TurnsWrite(w, a);
      } else if d == a.c && a.Look? {
        TurnsLook(w, a);
      } else {
        TurnsOther(w, a, d);
      }
    }
  }

  lemma WireStep(w: World, a: Action)
    requires Sound(w) && WireSound(w) && Enabled(w, a)
    ensures WireSound(Do(w, a))
  {
    hide SoundMap, SoundSlots;
    if a.c in w.conns { assert SoundReader(w, a.c); }
  }

  lemma NewSender(w: World, a: Action, d: nat)
    requires WireSound(w) && Enabled(w, a) && d in Do(w, a).conns && d !in w.conns
    ensures TurnsOnce(Do(w, a), d)
  {
    hide From;
    NobodyWrites(w, d);
  }

  lemma {:induction false} RunDelivers(w: World, acts: seq<Action>)
    requires Sound(w) && Delivers(w)
    ensures Sound(Run(w, acts)) && Delivers(Run(w, acts))
    decreases |acts|
  {
    hide Sound, Delivers, Do, Enabled;
    if acts != [] {
      if Enabled(w, acts[0]) {
        StepSound(w, acts[0]);
        StepDelivers(w, acts[0]);
      }
      RunDelivers(Next(w, acts[0]), acts[1..]);
    }
  }

  lemma ReachableDelivers(w: World)
    requires Reachable(w)
    ensures Sound(w) && Delivers(w)
  {
    hide Run;
    var acts :| w == Run(START, acts);
    RunDelivers(START, acts);
  }

  // ----- The theorems -----

  /** In every reachable state, all that a has passed on, in order, to whichever peers, is a prefix of
      what was read from it; and what each peer has got is a contiguous piece of that prefix. */
  lemma {:induction false} NoGapNoDuplicate(w: World, v: nat, a: nat) returns (lo: nat, hi: nat)
    requires Reachable(w) && a in w.conns
    ensures Bytes(From(w.wire, a)) <= w.conns[a].read
    ensures lo <= hi <= |w.conns[a].read| && Received(w, v, a) == w.conns[a].read[lo..hi]
  {
    hide From, To, Bytes, Grouped;
    ReachableDelivers(w);
    assert PassesOn(w, a) && TurnsOnce(w, a);
    lo, hi := GroupedIsInfix(From(w.wire, a), v);
    assert Bytes(From(w.wire, a))[lo..hi] == w.conns[a].read[lo..hi];
  }

  /** A reader of a current connection that is back in its read has passed on every byte it read. */
  lemma {:induction false} NothingHeldBack(w: World, a: nat)
    requires Reachable(w) && a in w.conns && w.conns[a].phase.Reading?
    ensures Bytes(From(w.wire, a)) == w.conns[a].read
  {
    hide From, Bytes, TurnsOnce;
    ReachableDelivers(w);
    assert PassesOn(w, a);
  }

  /** Out of its slot and with no target looked up. */
  predicate Quiet(w: World, c: nat) { Gone(w, c) && !w.conns[c].phase.Targeted? }

  lemma QuietStep(w: World, a: Action, c: nat)
    requires Sound(w) && Quiet(w, c) && Enabled(w, a)
    ensures Quiet(Do(w, a), c) && From(Do(w, a).wire, c) == From(w.wire, c)
  {
    hide Sound, From;
    GoneStep(w, a, c);
    if a.Write? { FromStep(w.wire, Packet(a.c, w.conns[a.c].phase.peer, w.conns[a.c].phase.data[..a.n]), c); }
  }

  lemma {:induction false} QuietForever(w: World, acts: seq<Action>, c: nat)
    requires Sound(w) && Quiet(w, c)
    ensures From(Run(w, acts).wire, c) == From(w.wire, c)
    decreases |acts|
  {
    hide Sound, Quiet, Do, Enabled, From;
    if acts != [] {
      if Enabled(w, acts[0]) {
        QuietStep(w, acts[0], c);
        StepSound(w, acts[0]);
      }
      QuietForever(Next(w, acts[0]), acts[1..], c);
    }
  }

  /** After a connection is replaced, whatever happens, at most one more packet leaves it: the chunk
      whose target had been looked up, or part of it, to that target. */
  lemma {:induction false} AtMostOneMoreChunk(w: World, acts: seq<Action>, c: nat)
    requires Sound(w) && Gone(w, c)
    ensures var before, after := From(w.wire, c), From(Run(w, acts).wire, c);
            var ph := w.conns[c].phase;
            after == before ||
            (ph.Targeted? && exists n: nat :: n <= |ph.data| && after == before + [Packet(c, ph.peer, ph.data[..n])])
    decreases |acts|
  {
    hide Sound, Do, Enabled, From, IsCurrent;
    if !w.conns[c].phase.Targeted? {
      QuietForever(w, acts, c);
    } else if acts != [] {
      var a := acts[0];
      if Enabled(w, a) {
        GoneStep(w, a, c);
        StepSound(w, a);
        TargetedStep(w, a, c);
        if a.Write? && a.c == c { QuietForever(Do(w, a), acts[1..], c); }
      }
      if !(Enabled(w, a) && a.Write? && a.c == c) { AtMostOneMoreChunk(Next(w, a), acts[1..], c); }
    }
  }

  lemma TargetedStep(w: World, a: Action, c: nat)
    requires c in w.conns && w.conns[c].phase.Targeted? && Enabled(w, a)
    ensures c in Do(w, a).conns
    ensures a.Write? && a.c == c ==> !Do(w, a).conns[c].phase.Targeted? && a.n <= |w.conns[c].phase.data|
    ensures a.Write? && a.c == c ==>
              From(Do(w, a).wire, c)
              == From(w.wire, c) + [Packet(c, w.conns[c].phase.peer, w.conns[c].phase.data[..a.n])]
    ensures !(a.Write? && a.c == c) ==> Do(w, a).conns[c].phase == w.conns[c].phase
    ensures !(a.Write? && a.c == c) ==> From(Do(w, a).wire, c) == From(w.wire, c)
  {
    hide From;
    if a.Write? {
      FromStep(w.wire, Packet(a.c, w.conns[a.c].phase.peer, w.conns[a.c].phase.data[..a.n]), c);
    }
  }
}
