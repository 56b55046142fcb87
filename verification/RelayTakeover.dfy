/** What takeovers and exits may and may not do, over every schedule of the relay. */
module RelayTakeover {
  import opened Basics
  import opened RelayTables
  import opened RelayProtocol

  // ----- Every reachable state -----

  ghost predicate Reachable(w: World) {
    exists acts :: w == Run(START, acts)
  }

  lemma ReachableSound(w: World)
    requires Reachable(w)
    ensures Sound(w)
  {
    hide Run;
    var acts :| w == Run(START, acts);
    RunSound(START, acts);
  }

  /** No lost wake-up: a reader blocked on a channel that is still open is current in a session that
      is in the map, still has no peer, and is blocked on the session's own channel. */
  lemma {:induction false} NoLostWakeUp(w: World, c: nat)
    requires Reachable(w) && c in w.conns && w.conns[c].phase.Waiting?
    requires w.conns[c].phase.ch !in w.closedChans
    ensures IsCurrent(w, c)
    ensures w.t.slots[w.conns[c].se].At(w.conns[c].role.Other()) == None
    ensures w.t.slots[w.conns[c].se].change == w.conns[c].phase.ch
  {
    hide SoundSlots, SoundMap;
    ReachableSound(w);
    assert SoundReader(w, c);
  }

  /** A peer's arrival wakes whoever waits for one: after any connect to its key a waiting reader can go on. */
  lemma {:induction false} ArrivalWakes(w: World, c: nat, a: Action)
    requires Reachable(w) && c in w.conns && w.conns[c].phase.Waiting?
    requires a.Connect? && a.key == w.conns[c].key && Enabled(w, a)
    ensures Enabled(Do(w, a), Wake(c))
  {
    hide SoundSlots, SoundMap;
    ReachableSound(w);
    assert SoundReader(w, c);
  }

  /** No step closes a change channel that is already closed, which would panic. */
  lemma {:induction false} NoDoubleClose(w: World, a: Action)
    requires Reachable(w) && Enabled(w, a)
    ensures Closes(w, a) !! w.closedChans
  {
    hide SoundReader;
    ReachableSound(w);
  }

  /** A session in the map has an occupant, and each occupant is a connection of that key and role
      whose reader has not run its exit section. */
  lemma {:induction false} SessionsAreOccupied(w: World, k: Key)
    requires Reachable(w) && k in w.t.sessions
    ensures w.t.sessions[k] in w.t.slots
    ensures var sl := w.t.slots[w.t.sessions[k]]; sl.source.Some? || sl.viewer.Some?
    ensures forall r :: OccupantSound(w, k, r)
  {
    hide SoundSlots, SoundReader;
    ReachableSound(w);
  }

  /** A connection is in one slot at most. */
  lemma {:induction false} OneSlot(w: World, c: nat, k: Key, r: Role, k': Key, r': Role)
    requires Reachable(w) && k in w.t.sessions && k' in w.t.sessions
    requires w.t.Current(k, w.t.sessions[k], r, c) && w.t.Current(k', w.t.sessions[k'], r', c)
    ensures k == k' && r == r'
  {
    hide SoundSlots, SoundReader;
    ReachableSound(w);
    assert OccupantSound(w, k, r) && OccupantSound(w, k', r');
  }

  // ----- Once replaced, for ever -----

  /** Connected once, and not, or no longer, in its slot. */
  predicate Gone(w: World, c: nat) {
    c in w.conns && !IsCurrent(w, c)
  }

  lemma GoneStep(w: World, a: Action, c: nat)
    requires Sound(w) && Gone(w, c) && Enabled(w, a)
    ensures Gone(Do(w, a), c) && SameConn(w.conns[c], Do(w, a).conns[c])
  {
    hide SoundReader;
    if !a.Connect? && !a.Exit? { LocalKeeps(w, a); }
    assert SoundMap(w) && SoundSlots(w);
    if a.Connect? { GoneConnect(w, a, c); }
  }

  lemma GoneConnect(w: World, a: Action, c: nat)
    requires Sound(w) && Gone(w, c) && Enabled(w, a) && a.Connect?
    ensures !Do(w, a).t.Current(w.conns[c].key, w.conns[c].se, w.conns[c].role, c)
  {
    assert SoundReader(w, c);
  }

  /** A connection never returns to a slot. */
  lemma {:induction false} NeverReturns(w: World, acts: seq<Action>, c: nat)
    requires Sound(w) && Gone(w, c)
    ensures Gone(Run(w, acts), c)
    decreases |acts|
  {
    hide Sound, Do, Enabled, IsCurrent;
    if acts != [] {
      if Enabled(w, acts[0]) {
        GoneStep(w, acts[0], c);
        StepSound(w, acts[0]);
      }
      NeverReturns(Next(w, acts[0]), acts[1..], c);
    }
  }

  /** A takeover puts the newcomer in the slot and the old occupant out of it. */
  lemma {:induction false} TakeoverReplaces(w: World, a: Action, old_: nat)
    requires Sound(w) && a.Connect? && Enabled(w, a) && Displaced(w.t, a.key, a.role) == Some(old_)
    ensures IsCurrent(Do(w, a), a.c) && Gone(Do(w, a), old_)
    ensures var peer := w.t.slots[w.t.sessions[a.key]].At(a.role.Other());
            peer.Some? ==> peer.value in w.conns && IsCurrent(Do(w, a), peer.value) &&
                           Do(w, a).conns[peer.value] == w.conns[peer.value]
  {
    hide SoundSlots;
    assert OccupantSound(w, a.key, a.role) && OccupantSound(w, a.key, a.role.Other());
  }

  // ----- Exits -----

  /** The steps of c's own reader, apart from the close of the connection it displaced. */
  predicate IsReaderStep(a: Action, c: nat) {
    a.c == c && (a.Read? || a.Look? || a.Write? || a.Wake? || a.GiveUp? || a.Exit? || a.Finish?)
  }

  /** c is out of its slot and holds no other connection to close. */
  predicate Stale(w: World, c: nat) {
    Gone(w, c) && !w.conns[c].phase.Evicting? && (w.conns[c].phase.Closing? ==> w.conns[c].phase.also == None)
  }

  lemma StaleStep(w: World, a: Action, c: nat)
    requires Sound(w) && Stale(w, c) && Enabled(w, a)
    ensures Stale(Do(w, a), c)
  {
    hide Sound;
    GoneStep(w, a, c);
    StalePhase(w, a, c);
  }

  lemma StalePhase(w: World, a: Action, c: nat)
    requires Stale(w, c) && Enabled(w, a) && c in Do(w, a).conns
    ensures var p := Do(w, a).conns[c].phase; !p.Evicting? && (p.Closing? ==> p.also == None)
  {}

  /** A stale reader, whatever it still does, changes no table, wakes nobody, and touches no
      connection but its own: it cannot delete a later session on its key. */
  lemma StaleReaderIsHarmless(w: World, a: Action, c: nat)
    requires Stale(w, c) && Enabled(w, a) && IsReaderStep(a, c)
    ensures Do(w, a).t == w.t && Do(w, a).closedChans == w.closedChans
    ensures Do(w, a).conns.Keys == w.conns.Keys
    ensures forall d :: d in w.conns && d != c ==> Do(w, a).conns[d] == w.conns[d]
  {}

  lemma {:induction false} StaleForever(w: World, acts: seq<Action>, c: nat)
    requires Sound(w) && Stale(w, c)
    ensures Sound(Run(w, acts)) && Stale(Run(w, acts), c)
    decreases |acts|
  {
    hide Sound, Do, Enabled, Stale;
    if acts != [] {
      if Enabled(w, acts[0]) {
        StaleStep(w, acts[0], c);
        StepSound(w, acts[0]);
      }
      StaleForever(Next(w, acts[0]), acts[1..], c);
    }
  }

  /** Once stale, in every continuation: each step of that reader is harmless. */
  lemma {:induction false} StaleExitIsHarmless(w: World, acts: seq<Action>, a: Action, c: nat)
    requires Sound(w) && Stale(w, c) && IsReaderStep(a, c) && Enabled(Run(w, acts), a)
    ensures Do(Run(w, acts), a).t == Run(w, acts).t
    ensures Do(Run(w, acts), a).closedChans == Run(w, acts).closedChans
    ensures var v := Run(w, acts);
            forall d :: d in v.conns && d != c ==> d in Do(v, a).conns && Do(v, a).conns[d] == v.conns[d]
  {
    hide Sound, Do, Enabled, Stale, Run;
    StaleForever(w, acts, c);
    StaleReaderIsHarmless(Run(w, acts), a, c);
  }

  /** The natural death of a current connection frees the session, and its reader's next step closes
      it and the peer it had at its exit, whatever happens in between. */
  lemma {:induction false} NaturalDeathFolds(w: World, c: nat, between: seq<Action>)
    requires Sound(w) && Enabled(w, Exit(c)) && IsCurrent(w, c)
    requires forall a :: a in between ==> a != Finish(c)
    ensures var x := w.conns[c];
            var peer := w.t.slots[x.se].At(x.role.Other());
            var w1 := Do(w, Exit(c));
            var w2 := Run(w1, between);
            x.key !in w1.t.sessions && Enabled(w2, Finish(c)) &&
            var w3 := Do(w2, Finish(c));
            c in w3.conns && w3.conns[c].closed &&
            (peer.Some? ==> peer.value in w3.conns && w3.conns[peer.value].closed)
  {
    hide Run, SoundSlots;
    var x := w.conns[c];
    var peer := w.t.slots[x.se].At(x.role.Other());
    assert OccupantSound(w, x.key, x.role.Other());
    ClosingWaits(Do(w, Exit(c)), between, c, peer);
  }

  /** Nobody but its own reader moves a connection on, and connections are never forgotten. */
  lemma {:induction false} ClosingWaits(w: World, acts: seq<Action>, c: nat, peer: Option<nat>)
    requires c in w.conns && w.conns[c].phase == Closing(peer) && (peer.Some? ==> peer.value in w.conns)
    requires forall a :: a in acts ==> a != Finish(c)
    ensures var v := Run(w, acts);
            c in v.conns && v.conns[c].phase == Closing(peer) && (peer.Some? ==> peer.value in v.conns)
    decreases |acts|
  {
    hide Do, Enabled;
    if acts != [] {
      assert acts[0] in acts;
      ClosingStep(w, acts[0], c);
      assert forall a :: a in acts[1..] ==> a in acts;
      ClosingWaits(Next(w, acts[0]), acts[1..], c, peer);
    }
  }

  lemma ClosingStep(w: World, a: Action, c: nat)
    requires c in w.conns && w.conns[c].phase.Closing? && a != Finish(c)
    ensures w.conns.Keys <= Next(w, a).conns.Keys && Next(w, a).conns[c].phase == w.conns[c].phase
  {}
}
