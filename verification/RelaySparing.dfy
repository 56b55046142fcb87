/** Exactly when a takeover spares the other side: the peer of a replaced connection stays current and
    open, over every schedule in which nothing else ends it, unless it has a write under way. */
module RelaySparing {
  import opened Basics
  import opened RelayTables
  import opened RelayProtocol
  import opened RelayTakeover

  // ----- What a reader may still close -----

  /** The connection that a reader will close besides its own. */
  function Held(p: Phase): Option<nat> {
    match p
    case Evicting(x) => x
    case Closing(x) => x
    case _ => None
  }

  predicate HoldsGone(w: World, d: nat)
    requires d in w.conns
  {
    Held(w.conns[d].phase).Some? ==> Gone(w, Held(w.conns[d].phase).value)
  }

  ghost predicate AllHoldGone(w: World) { forall d :: d in w.conns ==> HoldsGone(w, d) }

  lemma NewlyHeldIsGone(w: World, a: Action)
    requires Sound(w) && Enabled(w, a) && (a.Connect? || a.Exit?)
    ensures a.c in Do(w, a).conns && HoldsGone(Do(w, a), a.c)
  {
    if a.Connect? {
      if a.key in w.t.sessions { assert OccupantSound(w, a.key, a.role); }
    } else {
      var x := w.conns[a.c];
      if IsCurrent(w, a.c) { assert OccupantSound(w, x.key, x.role.Other()); }
    }
  }

  /** Only those steps give a reader something to close. */
  lemma HeldBefore(w: World, a: Action, d: nat)
    requires Enabled(w, a) && d in Do(w, a).conns && !(d == a.c && (a.Connect? || a.Exit?))
    ensures d in w.conns
    ensures var x := Held(Do(w, a).conns[d].phase); x.Some? ==> Held(w.conns[d].phase) == x
  {}

  lemma HeldStep(w: World, a: Action)
    requires Sound(w) && AllHoldGone(w) && Enabled(w, a)
    ensures AllHoldGone(Do(w, a))
  {
    hide Sound, Do, Enabled, Gone, Held;
    forall d | d in Do(w, a).conns ensures HoldsGone(Do(w, a), d) {
      if d == a.c && (a.Connect? || a.Exit?) {
        NewlyHeldIsGone(w, a);
      } else {
        HeldBefore(w, a, d);
        assert HoldsGone(w, d);
        var x := Held(Do(w, a).conns[d].phase);
        if x.Some? { GoneStep(w, a, x.value); }
      }
    }
  }

  lemma {:induction false} RunHeld(w: World, acts: seq<Action>)
    requires Sound(w) && AllHoldGone(w)
    ensures Sound(Run(w, acts)) && AllHoldGone(Run(w, acts))
    decreases |acts|
  {
    hide Sound, AllHoldGone, Do, Enabled;
    if acts != [] {
      if Enabled(w, acts[0]) {
        StepSound(w, acts[0]);
        HeldStep(w, acts[0]);
      }
      RunHeld(Next(w, acts[0]), acts[1..]);
    }
  }

  lemma ReachableHolds(w: World)
    requires Reachable(w)
    ensures Sound(w) && AllHoldGone(w)
  {
    hide Run;
    var acts :| w == Run(START, acts);
    RunHeld(START, acts);
  }

  // ----- A pair that nothing ends -----

  /** This step is not what ends p or c, nor a third connection to their key: neither is closed from outside,
      reads its end or gives up waiting, and their writes fail only into a closed connection. */
  predicate Calm(w: World, a: Action, key: Key, p: nat, c: nat) {
    && (a.Connect? ==> a.key != key)
    && (a.Drop? || a.GiveUp? ==> a.c != p && a.c != c)
    && (a.Read? && (a.c == p || a.c == c) ==> !a.eof)
    && (a.Write? && (a.c == p || a.c == c) && Enabled(w, a) && !a.ok ==>
          w.conns[a.c].phase.peer in w.conns && w.conns[w.conns[a.c].phase.peer].closed)
  }

  predicate CalmRun(w: World, acts: seq<Action>, key: Key, p: nat, c: nat)
    decreases |acts|
  {
    acts == [] || (Calm(w, acts[0], key, p, c) && CalmRun(Next(w, acts[0]), acts[1..], key, p, c))
  }

  /** Both are in their slots, and open. */
  predicate Undisturbed(w: World, p: nat, c: nat) {
    p in w.conns && c in w.conns && IsCurrent(w, p) && IsCurrent(w, c) && !w.conns[p].closed && !w.conns[c].closed
  }

  /** A reader that has not read its end and writes, if at all, to `other`. */
  predicate ReadsOn(p: Phase, other: Option<nat>) {
    match p
    case Evicting(_) => true
    case Reading => true
    case HasChunk(_, eof) => !eof
    case Targeted(q, _, eof) => Some(q) == other && !eof
    case Waiting(_, _, eof) => !eof
    case _ => false
  }

  predicate Pair(w: World, key: Key, p: nat, c: nat) {
    && Undisturbed(w, p, c)
    && w.conns[p].key == w.conns[c].key == key
    && w.conns[p].role == w.conns[c].role.Other()
    && ReadsOn(w.conns[p].phase, Some(c)) && ReadsOn(w.conns[c].phase, Some(p))
  }

  lemma PairExit(w: World, d: nat, key: Key, p: nat, c: nat)
    requires Sound(w) && Pair(w, key, p, c) && Enabled(w, Exit(d))
    ensures Pair(Do(w, Exit(d)), key, p, c)
  {
    hide SoundReader, SoundSlots;
    assert d != p && d != c;
    assert IsCurrent(w, d) ==> w.conns[d].key != key;
  }

  lemma PairConnect(w: World, a: Action, key: Key, p: nat, c: nat)
    requires Sound(w) && Pair(w, key, p, c) && a.Connect? && a.key != key && Enabled(w, a)
    ensures Pair(Do(w, a), key, p, c)
  {
    hide SoundReader;
    assert a.key in w.t.sessions ==> w.t.sessions[a.key] != w.t.sessions[key];
  }

  lemma PairCloses(w: World, a: Action, key: Key, p: nat, c: nat)
    requires AllHoldGone(w) && Pair(w, key, p, c) && Enabled(w, a) && (a.Evict? || a.Finish? || a.Drop?)
    requires Calm(w, a, key, p, c)
    ensures Pair(Do(w, a), key, p, c)
  {
    assert HoldsGone(w, a.c);
  }

  predicate IsReadersOwn(a: Action) { a.Read? || a.Look? || a.Write? || a.Wake? || a.GiveUp? }

  lemma StaysOpen(w: World, a: Action, d: nat)
    requires Enabled(w, a) && IsReadersOwn(a) && d in w.conns
    ensures d in Do(w, a).conns && Do(w, a).conns[d].closed == w.conns[d].closed
  {}

  lemma ReaderReadsOn(w: World, a: Action, key: Key, p: nat, c: nat)
    requires Pair(w, key, p, c) && Enabled(w, a) && Calm(w, a, key, p, c) && IsReadersOwn(a) && a.c == p
    ensures p in Do(w, a).conns && ReadsOn(Do(w, a).conns[p].phase, Some(c))
  {}

  lemma PairReads(w: World, a: Action, key: Key, p: nat, c: nat)
    requires Pair(w, key, p, c) && Enabled(w, a) && Calm(w, a, key, p, c) && IsReadersOwn(a)
    ensures Pair(Do(w, a), key, p, c)
  {
    hide Do, Enabled, ReadsOn;
    if a.c == p { ReaderReadsOn(w, a, key, p, c); }
    if a.c == c { ReaderReadsOn(w, a, key, c, p); }
    StaysOpen(w, a, p);
    StaysOpen(w, a, c);
    LocalKeeps(w, a);
    assert SameConn(w.conns[p], Do(w, a).conns[p]) && SameConn(w.conns[c], Do(w, a).conns[c]);
  }

  lemma PairStep(w: World, a: Action, key: Key, p: nat, c: nat)
    requires Sound(w) && AllHoldGone(w) && Pair(w, key, p, c) && Enabled(w, a) && Calm(w, a, key, p, c)
    ensures Pair(Do(w, a), key, p, c)
  {
    hide Sound, AllHoldGone, Pair, Do, Enabled;
    match a
    case Connect(_, _, _) => PairConnect(w, a, key, p, c);
    case Exit(d) => PairExit(w, d, key, p, c);
    case Evict(_) => PairCloses(w, a, key, p, c);
    case Finish(_) => PairCloses(w, a, key, p, c);
    case Drop(_) => PairCloses(w, a, key, p, c);
    case _ => PairReads(w, a, key, p, c);
  }

  lemma {:induction false} PairRun(w: World, acts: seq<Action>, key: Key, p: nat, c: nat)
    requires Sound(w) && AllHoldGone(w) && Pair(w, key, p, c) && CalmRun(w, acts, key, p, c)
    ensures Pair(Run(w, acts), key, p, c)
    decreases |acts|
  {
    hide Sound, AllHoldGone, Pair, Do, Enabled, Calm;
    if acts != [] {
      if Enabled(w, acts[0]) {
        PairStep(w, acts[0], key, p, c);
        StepSound(w, acts[0]);
        HeldStep(w, acts[0]);
      }
      PairRun(Next(w, acts[0]), acts[1..], key, p, c);
    }
  }

  // ----- Exactly when -----

  /** The peer is open, has not read its end, and has no write under way. */
  predicate Steady(w: World, p: nat)
    requires p in w.conns
  {
    !w.conns[p].closed && ReadsOn(w.conns[p].phase, None)
  }

  lemma TakeoverMakesPair(w: World, a: Action, p: nat)
    requires Sound(w) && a.Connect? && Enabled(w, a) && a.key in w.t.sessions
    requires w.t.slots[w.t.sessions[a.key]].At(a.role.Other()) == Some(p)
    ensures p in w.conns && p in Do(w, a).conns && Do(w, a).conns[p] == w.conns[p]
    ensures IsCurrent(Do(w, a), p) && IsCurrent(Do(w, a), a.c) && w.conns[p].role == a.role.Other()
    ensures w.conns[p].key == a.key && InService(w.conns[p].phase)
    ensures Steady(w, p) ==> Pair(Do(w, a), a.key, p, a.c)
  {
    hide SoundReader, SoundSlots;
    assert OccupantSound(w, a.key, a.role.Other());
  }

  lemma CalmThen(w: World, a: Action, acts: seq<Action>, key: Key, p: nat, c: nat)
    requires Calm(w, a, key, p, c) && CalmRun(Next(w, a), acts, key, p, c)
    ensures CalmRun(w, [a] + acts, key, p, c) && Run(w, [a] + acts) == Run(Next(w, a), acts)
  {
    hide Calm, Next;
    assert ([a] + acts)[0] == a && ([a] + acts)[1..] == acts;
  }

  /** A current reader that has left its loop takes its session down. */
  lemma LeavingDisturbs(w: World, key: Key, p: nat, c: nat) returns (acts: seq<Action>)
    requires p in w.conns && p != c && w.conns[p].phase.Leaving? && IsCurrent(w, p)
    ensures CalmRun(w, acts, key, p, c) && !Undisturbed(Run(w, acts), p, c)
  {
    acts := [Exit(p)] + [];
    assert CalmRun(Next(w, Exit(p)), [], key, p, c) && Run(Next(w, Exit(p)), []) == Next(w, Exit(p));
    CalmThen(w, Exit(p), [], key, p, c);
  }

  /** A write under way into a closed connection fails. */
  lemma WriteDisturbs(w: World, key: Key, p: nat, c: nat) returns (acts: seq<Action>)
    requires p in w.conns && p != c && w.conns[p].phase.Targeted? && IsCurrent(w, p)
    requires w.conns[p].phase.peer in w.conns && w.conns[w.conns[p].phase.peer].closed
    ensures CalmRun(w, acts, key, p, c) && !Undisturbed(Run(w, acts), p, c)
  {
    var a := Write(p, 0, false);
    var rest := LeavingDisturbs(Next(w, a), key, p, c);
    acts := [a] + rest;
    CalmThen(w, a, rest, key, p, c);
  }

  /** A write under way misses: its target is what the newcomer displaced, or is closed by the network. */
  lemma TargetedDisturbs(w: World, key: Key, p: nat, c: nat) returns (acts: seq<Action>)
    requires p in w.conns && c in w.conns && p != c && w.conns[p].phase.Targeted? && IsCurrent(w, p)
    requires var q := w.conns[p].phase.peer; q in w.conns && q != p && q != c
    ensures CalmRun(w, acts, key, p, c) && !Undisturbed(Run(w, acts), p, c)
  {
    var q := w.conns[p].phase.peer;
    if w.conns[q].closed {
      acts := WriteDisturbs(w, key, p, c);
    } else {
      var a := if w.conns[c].phase == Evicting(Some(q)) then Evict(c) else Drop(q);
      var rest := WriteDisturbs(Next(w, a), key, p, c);
      acts := [a] + rest;
      CalmThen(w, a, rest, key, p, c);
    }
  }

  /** With its end in hand, a reader leaves once it has passed on what came with it. */
  lemma EndInHandDisturbs(w: World, key: Key, p: nat, c: nat) returns (acts: seq<Action>)
    requires p in w.conns && c in w.conns && p != c && w.conns[p].phase.HasChunk? && w.conns[p].phase.eof
    requires IsCurrent(w, p) && w.t.slots[w.conns[p].se].At(w.conns[p].role.Other()) == Some(c) && !w.conns[c].closed
    ensures CalmRun(w, acts, key, p, c) && !Undisturbed(Run(w, acts), p, c)
  {
    var a, b := Look(p), Write(p, |w.conns[p].phase.data|, true);
    var w1 := Next(w, a);
    var w2 := Next(w1, b);
    var rest := LeavingDisturbs(w2, key, p, c);
    CalmThen(w1, b, rest, key, p, c);
    CalmThen(w, a, [b] + rest, key, p, c);
    acts := [a] + ([b] + rest);
  }

  lemma UnsteadyDisturbs(w: World, key: Key, p: nat, c: nat) returns (acts: seq<Action>)
    requires Sound(w) && p in w.conns && c in w.conns && IsCurrent(w, p) && IsCurrent(w, c) && !w.conns[c].closed
    requires w.conns[p].key == w.conns[c].key && w.conns[p].role == w.conns[c].role.Other()
    requires !Steady(w, p) && InService(w.conns[p].phase)
    requires w.conns[p].phase.Targeted? ==> w.conns[p].phase.peer != c
    ensures CalmRun(w, acts, key, p, c) && !Undisturbed(Run(w, acts), p, c)
  {
    hide SoundSlots, SoundMap;
    assert SoundReader(w, p);
    var x := w.conns[p];
    if x.closed {
      acts := [];
      assert Run(w, acts) == w;
    } else {
      match x.phase
      case HasChunk(_, _) => acts := EndInHandDisturbs(w, key, p, c);
      case Waiting(ch, data, eof) =>
        var w1 := Next(w, Wake(p));
        var rest := EndInHandDisturbs(w1, key, p, c);
        CalmThen(w, Wake(p), rest, key, p, c);
        acts := [Wake(p)] + rest;
      case Targeted(_, _, _) => acts := TargetedDisturbs(w, key, p, c);
      case Leaving => acts := LeavingDisturbs(w, key, p, c);
      case _ =>
    }
  }

  /** A newcomer takes a slot over, or fills it: its peer and it stay current and open over every calm
      continuation if and only if at that moment the peer's reader has not read its end and has no write
      under way, and the peer is open. */
  lemma TakeoverSparesPeerIff(w: World, a: Action, p: nat)
    requires Reachable(w) && a.Connect? && Enabled(w, a) && a.key in w.t.sessions
    requires w.t.sessions[a.key] in w.t.slots && w.t.slots[w.t.sessions[a.key]].At(a.role.Other()) == Some(p)
    ensures p in w.conns
    ensures (forall acts :: CalmRun(Do(w, a), acts, a.key, p, a.c) ==> Undisturbed(Run(Do(w, a), acts), p, a.c))
            <==> Steady(w, p)
  {
    hide Run, CalmRun, SoundSlots, SoundMap, AllHoldGone, Undisturbed;
    ReachableHolds(w);
    TakeoverMakesPair(w, a, p);
    StepSound(w, a);
    HeldStep(w, a);
    var w1 := Do(w, a);
    if Steady(w, p) {
      forall acts | CalmRun(w1, acts, a.key, p, a.c) ensures Undisturbed(Run(w1, acts), p, a.c) {
        PairRun(w1, acts, a.key, p, a.c);
      }
    } else {
      assert SoundReader(w, p);
      var acts := UnsteadyDisturbs(w1, a.key, p, a.c);
    }
  }

  // ----- The run that shows it -----

  lemma {:induction false} RunStep(w: World, acts: seq<Action>, k: nat)
    requires k < |acts|
    ensures Run(w, acts[..k + 1]) == Next(Run(w, acts[..k]), acts[k])
    decreases k
  {
    hide Next;
    var rest := acts[1..];
    if k == 0 {
      assert acts[..1][1..] == [] && acts[..0] == [];
    } else {
      RunStep(Next(w, acts[0]), rest, k - 1);
      assert acts[..k + 1][1..] == rest[..k] && acts[..k][1..] == rest[..k - 1];
    }
  }

  /** A viewer is replaced while the source's reader has a write to it under way: the write fails, the
      source's exit folds the session, and the new viewer is closed with it. */
  function DisturbedPair(): seq<Action> {
    [Connect(0, "k", Source), Evict(0), Connect(1, "k", Viewer), Evict(1), Read(0, [7], false), Look(0),
     Connect(2, "k", Viewer), Evict(2), Write(0, 0, false), Exit(0), Finish(0)]
  }

  lemma PairConnected()
    ensures var w := Run(START, DisturbedPair()[..4]);
            && w.t == Tables(map["k" := 0], map[0 := Slots(Some(0), Some(1), 1)])
            && w.nextSess == 2 && w.nextChan == 2
            && w.conns == map[0 := Conn("k", Source, 0, Reading, false, []),
                              1 := Conn("k", Viewer, 0, Reading, false, [])]
  {
    hide Run;
    var acts := DisturbedPair();
    assert acts[..0] == [];
    RunNone(START);
    RunStep(START, acts, 0);
    RunStep(START, acts, 1);
    RunStep(START, acts, 2);
    RunStep(START, acts, 3);
  }

  /** The pair as the new viewer finds it. */
  lemma PairWriting()
    ensures var w := Run(START, DisturbedPair()[..6]);
            && w.t == Tables(map["k" := 0], map[0 := Slots(Some(0), Some(1), 1)])
            && w.nextSess == 2 && w.nextChan == 2 && w.conns.Keys == {0, 1}
            && w.conns[0].phase == Targeted(1, [7], false) && w.conns[0].key == "k" && w.conns[0].role == Source
            && w.conns[0].se == 0 && !w.conns[0].closed && !w.conns[1].closed
  {
    hide Run;
    PairConnected();
    RunStep(START, DisturbedPair(), 4);
    RunStep(START, DisturbedPair(), 5);
  }

  lemma RunNone(w: World)
    ensures Run(w, []) == w
  {}

  lemma PairMisses()
    ensures var w := Run(START, DisturbedPair()[..9]);
            && w.t.sessions == map["k" := 0] && 0 in w.t.slots
            && w.t.slots[0].source == Some(0) && w.t.slots[0].viewer == Some(2)
            && 0 in w.conns && w.conns[0].phase == Leaving && 2 in w.conns
            && w.conns[0].key == "k" && w.conns[0].role == Source && w.conns[0].se == 0
  {
    hide Run;
    PairWriting();
    RunStep(START, DisturbedPair(), 6);
    RunStep(START, DisturbedPair(), 7);
    RunStep(START, DisturbedPair(), 8);
  }

  lemma TakeoverDisturbs()
    ensures var w := Run(START, DisturbedPair());
            && w.t.sessions == map[]
            && 0 in w.conns && w.conns[0].closed && 2 in w.conns && w.conns[2].closed
  {
    hide Run;
    PairMisses();
    assert DisturbedPair()[..11] == DisturbedPair();
    RunStep(START, DisturbedPair(), 9);
    RunStep(START, DisturbedPair(), 10);
  }
}
