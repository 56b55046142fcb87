/** What the relay's readers do with their connections: who is closed, who writes to whom, and when a
    reader goes on, waits or leaves. */
module RelayCloses {
  import opened Basics
  import opened RelayTables
  import opened RelayProtocol
  import opened RelayTakeover

  // ----- Closing -----

  lemma ClosedStep(w: World, a: Action, d: nat)
    requires d in w.conns && w.conns[d].closed && Enabled(w, a)
    ensures d in Do(w, a).conns && Do(w, a).conns[d].closed
  {}

  /** A closed connection is never open again. */
  lemma {:induction false} ClosedStays(w: World, acts: seq<Action>, d: nat)
    requires d in w.conns && w.conns[d].closed
    ensures d in Run(w, acts).conns && Run(w, acts).conns[d].closed
    decreases |acts|
  {
    hide Do, Enabled;
    if acts != [] {
      if Enabled(w, acts[0]) { ClosedStep(w, acts[0], d); }
      ClosedStays(Next(w, acts[0]), acts[1..], d);
    }
  }

  lemma EvictingStep(w: World, a: Action, c: nat)
    requires c in w.conns && w.conns[c].phase.Evicting? && a != Evict(c)
    ensures w.conns.Keys <= Next(w, a).conns.Keys && Next(w, a).conns[c].phase == w.conns[c].phase
  {}

  lemma {:induction false} EvictingWaits(w: World, acts: seq<Action>, c: nat, d: nat)
    requires c in w.conns && d in w.conns && w.conns[c].phase == Evicting(Some(d))
    requires forall a :: a in acts ==> a != Evict(c)
    ensures var v := Run(w, acts);
            c in v.conns && d in v.conns && v.conns[c].phase == Evicting(Some(d))
    decreases |acts|
  {
    hide Do, Enabled;
    if acts != [] {
      assert acts[0] in acts;
      EvictingStep(w, acts[0], c);
      assert forall a :: a in acts[1..] ==> a in acts;
      EvictingWaits(Next(w, acts[0]), acts[1..], c, d);
    }
  }

  /** A takeover closes the connection it displaces: whatever comes in between, the newcomer's next step
      can be made, closes that connection and no other, and for good. */
  lemma TakeoverCloses(w: World, a: Action, d: nat, between: seq<Action>, after: seq<Action>)
    requires Sound(w) && a.Connect? && Enabled(w, a) && Displaced(w.t, a.key, a.role) == Some(d)
    requires forall b :: b in between ==> b != Evict(a.c)
    ensures var v := Run(Do(w, a), between);
            && Enabled(v, Evict(a.c)) && d in v.conns && d != a.c
            && var u := Do(v, Evict(a.c));
            && u.conns.Keys == v.conns.Keys && u.conns[d].closed
            && (forall e :: e in v.conns && e != d ==> u.conns[e].closed == v.conns[e].closed)
            && d in Run(u, after).conns && Run(u, after).conns[d].closed
  {
    hide Run, SoundSlots, SoundReader;
    assert OccupantSound(w, a.key, a.role);
    EvictingWaits(Do(w, a), between, a.c, d);
    ClosedStays(Do(Run(Do(w, a), between), Evict(a.c)), after, d);
  }

  ghost predicate DoneClosed(w: World) {
    forall c :: c in w.conns && w.conns[c].phase.Done? ==> w.conns[c].closed
  }

  lemma {:induction false} RunDoneClosed(w: World, acts: seq<Action>)
    requires DoneClosed(w)
    ensures DoneClosed(Run(w, acts))
    decreases |acts|
  {
    if acts != [] {
      DoneStep(w, acts[0]);
      RunDoneClosed(Next(w, acts[0]), acts[1..]);
    }
  }

  lemma DoneStep(w: World, a: Action)
    requires DoneClosed(w)
    ensures DoneClosed(Next(w, a))
  {}

  /** A reader that has ended has closed its own connection, replaced or not. */
  lemma {:induction false} EndedIsClosed(w: World, c: nat)
    requires Reachable(w) && c in w.conns && w.conns[c].phase.Done?
    ensures w.conns[c].closed
  {
    hide Run;
    var acts :| w == Run(START, acts);
    RunDoneClosed(START, acts);
  }

  // ----- Whom a reader writes to -----

  predicate SameSession(w: World, a: nat, b: nat) {
    a in w.conns && b in w.conns && w.conns[a].key == w.conns[b].key && w.conns[a].role == w.conns[b].role.Other()
  }

  /** Every packet, and every target, is of the sender's key and the opposite role. */
  ghost predicate NoCrossTalk(w: World) {
    && (forall i :: 0 <= i < |w.wire| ==> SameSession(w, w.wire[i].from, w.wire[i].to))
    && (forall c :: c in w.conns && w.conns[c].phase.Targeted? ==> SameSession(w, c, w.conns[c].phase.peer))
  }

  lemma KeepsName(w: World, a: Action, c: nat)
    requires Enabled(w, a) && c in w.conns
    ensures c in Do(w, a).conns
    ensures Do(w, a).conns[c].key == w.conns[c].key && Do(w, a).conns[c].role == w.conns[c].role
  {}

  lemma LookIsOwnSession(w: World, c: nat)
    requires Sound(w) && Enabled(w, Look(c)) && Do(w, Look(c)).conns[c].phase.Targeted?
    ensures SameSession(Do(w, Look(c)), c, Do(w, Look(c)).conns[c].phase.peer)
  {
    hide SoundSlots, SoundReader;
    assert OccupantSound(w, w.conns[c].key, w.conns[c].role.Other());
  }

  lemma TargetBefore(w: World, a: Action, c: nat)
    requires Enabled(w, a) && a != Look(c) && c in Do(w, a).conns && Do(w, a).conns[c].phase.Targeted?
    ensures c in w.conns && w.conns[c].phase == Do(w, a).conns[c].phase
  {}

  lemma WireStep(w: World, a: Action)
    requires Enabled(w, a)
    ensures if a.Write? then Do(w, a).wire ==
              w.wire + [Packet(a.c, w.conns[a.c].phase.peer, w.conns[a.c].phase.data[..a.n])]
            else Do(w, a).wire == w.wire
  {}

  lemma CrossStep(w: World, a: Action)
    requires Sound(w) && NoCrossTalk(w) && Enabled(w, a)
    ensures NoCrossTalk(Do(w, a))
  {
    hide Sound, Do;
    WireStep(w, a);
    var w' := Do(w, a);
    forall c | c in w.conns
      ensures c in w'.conns && w'.conns[c].key == w.conns[c].key && w'.conns[c].role == w.conns[c].role
    {
      KeepsName(w, a, c);
    }
    forall c | c in w'.conns && w'.conns[c].phase.Targeted? ensures SameSession(w', c, w'.conns[c].phase.peer) {
      if a == Look(c) {
        LookIsOwnSession(w, c);
      } else {
        TargetBefore(w, a, c);
      }
    }
    forall i | 0 <= i < |w'.wire| ensures SameSession(w', w'.wire[i].from, w'.wire[i].to) {
      if i < |w.wire| { assert w'.wire[i] == w.wire[i]; }
    }
  }

  lemma {:induction false} RunCross(w: World, acts: seq<Action>)
    requires Sound(w) && NoCrossTalk(w)
    ensures NoCrossTalk(Run(w, acts))
    decreases |acts|
  {
    hide Sound, NoCrossTalk, Do, Enabled;
    if acts != [] {
      if Enabled(w, acts[0]) {
        CrossStep(w, acts[0]);
        StepSound(w, acts[0]);
      }
      RunCross(Next(w, acts[0]), acts[1..]);
    }
  }

  /** In every reachable state bytes have passed only between connections of one key and opposite roles. */
  lemma {:induction false} OnlyWithinSessions(w: World, i: nat)
    requires Reachable(w) && i < |w.wire|
    ensures SameSession(w, w.wire[i].from, w.wire[i].to)
  {
    hide Run;
    var acts :| w == Run(START, acts);
    RunCross(START, acts);
  }

  // ----- When a reader goes on -----

  /** What a reader's step leaves it to do next: it leaves when its read has failed without bytes, when it
      finds itself replaced, when a write has failed or carried the last bytes, or when it gives up. */
  lemma LeavesIff(w: World, a: Action)
    requires Enabled(w, a) && (a.Evict? || a.Read? || a.Look? || a.Write? || a.Wake? || a.GiveUp?)
    ensures Enabled(Do(w, a), Exit(a.c)) <==>
            || (a.Read? && a.data == [])
            || (a.Look? && !IsCurrent(w, a.c))
            || (a.Write? && (!a.ok || w.conns[a.c].phase.eof))
            || a.GiveUp?
  {}

  /** It looks for its peer with bytes in hand, and again whenever it has been woken. */
  lemma LooksIff(w: World, a: Action)
    requires Enabled(w, a) && (a.Evict? || a.Read? || a.Look? || a.Write? || a.Wake? || a.GiveUp?)
    ensures Enabled(Do(w, a), Look(a.c)) <==> (a.Read? && a.data != []) || a.Wake?
  {}

  /** It waits when it is current and has no peer, and writes to its peer when it has one. */
  lemma LookFindsPeer(w: World, c: nat)
    requires Enabled(w, Look(c)) && IsCurrent(w, c)
    ensures var p := w.t.slots[w.conns[c].se].At(w.conns[c].role.Other());
            var x := Do(w, Look(c)).conns[c].phase;
            && (p == None ==> x.Waiting? && x.ch == w.t.slots[w.conns[c].se].change)
            && (p.Some? ==> x.Targeted? && x.peer == p.value)
  {}

  /** It reads again once its write has succeeded, unless its end came with those bytes. */
  lemma ReadsIff(w: World, a: Action, data: seq<Byte>, eof: bool)
    requires Enabled(w, a) && (a.Evict? || a.Read? || a.Look? || a.Write? || a.Wake? || a.GiveUp?)
    requires data != [] || eof
    ensures Enabled(Do(w, a), Read(a.c, data, eof)) <==> a.Evict? || (a.Write? && a.ok && !w.conns[a.c].phase.eof)
  {}

  /** In every reachable state a waiting reader can look again, with the same bytes, just when its session's
      slots have changed since it looked: it is no longer current, or the session has another channel. */
  lemma {:induction false} WokenIff(w: World, c: nat)
    requires Reachable(w) && c in w.conns && w.conns[c].phase.Waiting?
    ensures Enabled(w, Wake(c)) <==>
              !IsCurrent(w, c) || w.t.slots[w.conns[c].se].change != w.conns[c].phase.ch
    ensures Enabled(w, Wake(c)) ==>
              Do(w, Wake(c)).conns[c].phase == HasChunk(w.conns[c].phase.data, w.conns[c].phase.eof)
  {
    hide SoundMap;
    ReachableSound(w);
    assert SoundReader(w, c);
  }

  /** The exit section of a current reader frees its session and wakes whoever waits for a change of it; that
      of any other reader changes nothing that is shared. */
  lemma ExitFrees(w: World, c: nat)
    requires Enabled(w, Exit(c))
    ensures var after := Do(w, Exit(c));
            if IsCurrent(w, c) then
              var se := w.conns[c].se;
              && after.t.sessions == w.t.sessions - {w.conns[c].key}
              && after.closedChans == w.closedChans + {w.t.slots[se].change}
              && after.t.slots == w.t.slots[se := w.t.slots[se].(change := w.nextChan)]
              && after.nextChan > w.nextChan
            else after.t == w.t && after.closedChans == w.closedChans
  {}

  /** After its exit section a reader closes, once. */
  lemma ExitThenFinish(w: World, c: nat)
    requires Enabled(w, Exit(c))
    ensures Enabled(Do(w, Exit(c)), Finish(c))
    ensures c in Do(Do(w, Exit(c)), Finish(c)).conns && Do(Do(w, Exit(c)), Finish(c)).conns[c].closed
    ensures !Enabled(Do(Do(w, Exit(c)), Finish(c)), Finish(c)) && !Enabled(Do(Do(w, Exit(c)), Finish(c)), Exit(c))
  {}

  /** The lone timer closes a connection just when its reader, with bytes in hand, would have to wait. */
  lemma LoneIffWouldWait<S, N, C>(t: Tables<S, N, C>, key: Key, se: S, role: Role, nc: N)
    ensures IsLone(t, key, se, role, nc) <==> LookUp(t, key, se, role, nc).Alone?
  {}
}
