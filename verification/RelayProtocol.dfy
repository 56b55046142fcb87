/** relay/relay.go as a step system: any number of connections, each with one reader, whose mutex
    sections, reads, writes and closes interleave in any order. */
module RelayProtocol {
  import opened Basics
  import opened RelayTables

  /** Where the reader of a connection stands. The chunk in hand is kept until it is written;
      `eof` says that the read that gave it also gave an error. */
  datatype Phase =
    | Evicting(displaced: Option<nat>)                      // registered; old.Close() is next
    | Reading                                               // in nc.Read
    | HasChunk(data: seq<Byte>, eof: bool)                  // in writePeer, before its section
    | Targeted(peer: nat, data: seq<Byte>, eof: bool)       // peer looked up, lock released
    | Waiting(ch: nat, data: seq<Byte>, eof: bool)          // blocked on a captured change channel
    | Leaving                                               // out of the loop, before the exit section
    | Closing(also: Option<nat>)                            // nc.Close() and peer.Close() are next
    | Done

  datatype Conn = Conn(key: Key, role: Role, se: nat, phase: Phase, closed: bool, read: seq<Byte>)

  /** Bytes that one write put into a connection. */
  datatype Packet = Packet(from: nat, to: nat, data: seq<Byte>)

  datatype World = World(t: Tables<nat, nat, nat>, conns: map<nat, Conn>, closedChans: set<nat>,
                         nextSess: nat, nextChan: nat, wire: seq<Packet>)

  const START := World(Tables(map[], map[]), map[], {}, 0, 0, [])

  datatype Action =
    | Connect(c: nat, key: Key, role: Role)
    | Evict(c: nat)
    | Read(c: nat, data: seq<Byte>, eof: bool)
    | Look(c: nat)
    | Write(c: nat, n: nat, ok: bool)
    | Wake(c: nat)
    | GiveUp(c: nat)            // the two-minute deadline while waiting for a peer
    | Exit(c: nat)
    | Finish(c: nat)
    | Drop(c: nat)              // the network, the remote end or the lone timer closes c

  predicate IsCurrent(w: World, c: nat)
    requires c in w.conns
  {
    var x := w.conns[c];
    w.t.Current(x.key, x.se, x.role, c)
  }

  predicate Enabled(w: World, a: Action) {
    if a.Connect? then a.c !in w.conns && (a.key in w.t.sessions ==> w.t.sessions[a.key] in w.t.slots)
    else
      a.c in w.conns &&
      var x := w.conns[a.c];
      match a
      case Evict(_) => x.phase.Evicting?
      case Read(_, data, eof) => x.phase.Reading? && (data != [] || eof)
      case Look(_) => x.phase.HasChunk?
      case Write(_, n, ok) =>
        x.phase.Targeted? && n <= |x.phase.data| &&
        (ok ==> n == |x.phase.data| && x.phase.peer in w.conns && !w.conns[x.phase.peer].closed)
      case Wake(_) => x.phase.Waiting? && x.phase.ch in w.closedChans
      case GiveUp(_) => x.phase.Waiting?
      case Exit(_) => x.phase.Leaving?
      case Finish(_) => x.phase.Closing?
      case Drop(_) => true
  }

  function SetPhase(w: World, c: nat, p: Phase): World
    requires c in w.conns
  {
    w.(conns := w.conns[c := w.conns[c].(phase := p)])
  }

  function CloseConn(conns: map<nat, Conn>, c: Option<nat>): map<nat, Conn> {
    if c.Some? && c.value in conns then conns[c.value := conns[c.value].(closed := true)] else conns
  }

  /** The change channel that a step closes. */
  function Closes(w: World, a: Action): set<nat>
    requires Enabled(w, a)
  {
    match a
    case Connect(_, key, _) => if key in w.t.sessions then {w.t.slots[w.t.sessions[key]].change} else {}
    case Exit(c) => if IsCurrent(w, c) then {w.t.slots[w.conns[c].se].change} else {}
    case _ => {}
  }

  function Do(w: World, a: Action): World
    requires Enabled(w, a)
  {
    match a
    case Connect(c, key, role) =>
      var se := if key in w.t.sessions then w.t.sessions[key] else w.nextSess;
      w.(t := Attach(w.t, key, role, c, w.nextSess, w.nextChan),
         conns := w.conns[c := Conn(key, role, se, Evicting(Displaced(w.t, key, role)), false, [])],
         closedChans := w.closedChans + Closes(w, a), nextSess := w.nextSess + 1, nextChan := w.nextChan + 1)
    case Evict(c) =>
      SetPhase(w.(conns := CloseConn(w.conns, w.conns[c].phase.displaced)), c, Reading)
    case Read(c, data, eof) =>
      var x := w.conns[c];
      w.(conns := w.conns[c := x.(read := x.read + data,
                                  phase := if data == [] then Leaving else HasChunk(data, eof))])
    case Look(c) =>
      var x := w.conns[c];
      (match LookUp(w.t, x.key, x.se, x.role, c)
       case Replaced => SetPhase(w, c, Leaving)
       case Peer(p) => SetPhase(w, c, Targeted(p, x.phase.data, x.phase.eof))
       case Alone(ch) => SetPhase(w, c, Waiting(ch, x.phase.data, x.phase.eof)))
    case Write(c, n, ok) =>
      var x := w.conns[c];
      SetPhase(w, c, if ok && !x.phase.eof then Reading else Leaving)
        .(wire := w.wire + [Packet(c, x.phase.peer, x.phase.data[..n])])
    case Wake(c) => SetPhase(w, c, HasChunk(w.conns[c].phase.data, w.conns[c].phase.eof))
    case GiveUp(c) => SetPhase(w, c, Leaving)
    case Exit(c) =>
      var x := w.conns[c];
      SetPhase(w, c, Closing(LeavesWith(w.t, x.key, x.se, x.role, c)))
        .(t := Leave(w.t, x.key, x.se, x.role, c, w.nextChan),
          closedChans := w.closedChans + Closes(w, a), nextChan := w.nextChan + 1)
    case Finish(c) =>
      SetPhase(w.(conns := CloseConn(CloseConn(w.conns, Some(c)), w.conns[c].phase.also)), c, Done)
    case Drop(c) => w.(conns := CloseConn(w.conns, Some(c)))
  }

  /** Every sequence of actions is a schedule; an action whose moment has not come does nothing. */
  function Next(w: World, a: Action): World {
    if Enabled(w, a) then Do(w, a) else w
  }

  function Run(w: World, acts: seq<Action>): World
    decreases |acts|
  {
    if acts == [] then w else Run(Next(w, acts[0]), acts[1..])
  }

  // ----- The tables stay sound -----

  predicate InService(p: Phase) { !p.Closing? && !p.Done? }

  /** Session objects and channels are numbered as they are made; every session announces on an open
      channel of its own. */
  ghost predicate SoundSlots(w: World) {
    && (forall s :: s in w.t.slots ==> s < w.nextSess && w.t.slots[s].change < w.nextChan)
    && (forall s :: s in w.t.slots ==> w.t.slots[s].change !in w.closedChans)
    && (forall s, s' :: s in w.t.slots && s' in w.t.slots && s != s' ==> w.t.slots[s].change != w.t.slots[s'].change)
    && (forall ch :: ch in w.closedChans ==> ch < w.nextChan)
  }

  /** Every session in the map has an occupant, and its occupants are connections of its key, in their
      own role, whose readers have not run their exit section. */
  ghost predicate SoundMap(w: World) {
    && (forall k :: k in w.t.sessions ==> w.t.sessions[k] in w.t.slots)
    && (forall k, k' :: k in w.t.sessions && k' in w.t.sessions && k != k' ==> w.t.sessions[k] != w.t.sessions[k'])
    && (forall k :: k in w.t.sessions ==> var sl := w.t.slots[w.t.sessions[k]]; sl.source.Some? || sl.viewer.Some?)
    && (forall k, r :: k in w.t.sessions ==> OccupantSound(w, k, r))
  }

  predicate ServesAt(x: Conn, k: Key, r: Role, se: nat) {
    x.key == k && x.role == r && x.se == se && InService(x.phase)
  }

  ghost predicate OccupantSound(w: World, k: Key, r: Role)
    requires k in w.t.sessions && w.t.sessions[k] in w.t.slots
  {
    var o := w.t.slots[w.t.sessions[k]].At(r);
    o.Some? ==> o.value in w.conns && ServesAt(w.conns[o.value], k, r, w.t.sessions[k])
  }

  /** What holds of each reader: no lost wake-up, and a sensible target. */
  ghost predicate SoundReader(w: World, c: nat)
    requires c in w.conns
  {
    var x := w.conns[c];
    && x.se in w.t.slots
    && (x.phase.Waiting? ==> x.phase.ch < w.nextChan)
    && (x.phase.Waiting? && x.phase.ch !in w.closedChans ==>
          IsCurrent(w, c) && w.t.slots[x.se].At(x.role.Other()) == None && w.t.slots[x.se].change == x.phase.ch)
    && (x.phase.Targeted? ==> x.phase.peer in w.conns && w.conns[x.phase.peer].role == x.role.Other())
  }

  ghost predicate Sound(w: World) {
    && SoundSlots(w)
    && SoundMap(w)
    && (forall c :: c in w.conns ==> SoundReader(w, c))
  }

  lemma ConnectSound(w: World, a: Action)
    requires Sound(w) && a.Connect? && Enabled(w, a)
    ensures Sound(Do(w, a))
  {
    hide Do, SoundSlots, SoundMap, SoundReader;
    ConnectSlots(w, a);
    ConnectMap(w, a);
    forall c | c in Do(w, a).conns ensures SoundReader(Do(w, a), c) { ConnectReader(w, a, c); }
  }

  lemma ConnectSlots(w: World, a: Action)
    requires Sound(w) && a.Connect? && Enabled(w, a)
    ensures SoundSlots(Do(w, a))
  {}

  lemma ConnectMap(w: World, a: Action)
    requires Sound(w) && a.Connect? && Enabled(w, a)
    ensures SoundMap(Do(w, a))
  {
    hide SoundReader;
    var w' := Do(w, a);
    forall k, r | k in w'.t.sessions ensures OccupantSound(w', k, r) {
      if k in w.t.sessions { assert OccupantSound(w, k, r); }
    }
  }

  lemma ConnectReader(w: World, a: Action, c: nat)
    requires Sound(w) && a.Connect? && Enabled(w, a) && c in Do(w, a).conns
    ensures SoundReader(Do(w, a), c)
  {
    if c in w.conns { assert SoundReader(w, c); }
  }

  lemma ExitSound(w: World, a: Action)
    requires Sound(w) && a.Exit? && Enabled(w, a)
    ensures Sound(Do(w, a))
  {
    hide Do, SoundSlots, SoundMap, SoundReader;
    ExitSlots(w, a);
    ExitMap(w, a);
    ExitConns(w, a);
    forall c | c in w.conns ensures SoundReader(Do(w, a), c) { ExitReader(w, a, c); }
  }

  lemma ExitSlots(w: World, a: Action)
    requires Sound(w) && a.Exit? && Enabled(w, a)
    ensures SoundSlots(Do(w, a))
  {
    hide SoundReader;
  }

  lemma ExitConns(w: World, a: Action)
    requires a.Exit? && Enabled(w, a)
    ensures Do(w, a).conns.Keys == w.conns.Keys
  {}

  lemma ExitMap(w: World, a: Action)
    requires Sound(w) && a.Exit? && Enabled(w, a)
    ensures SoundMap(Do(w, a))
  {
    hide SoundReader;
    var w' := Do(w, a);
    var x := w.conns[a.c];
    forall k, r | k in w'.t.sessions ensures OccupantSound(w', k, r) {
      assert OccupantSound(w, k, r);
    }
  }

  lemma ExitReader(w: World, a: Action, c: nat)
    requires Sound(w) && a.Exit? && Enabled(w, a) && c in w.conns
    ensures c in Do(w, a).conns && SoundReader(Do(w, a), c)
  {
    hide SoundMap;
    assert SoundReader(w, c) && SoundReader(w, a.c);
  }

  /** A step that leaves tables and channels alone, and every reader but that of `c`. */
  ghost predicate Keeps(w: World, w': World, c: nat) {
    && c in w.conns && w'.conns.Keys == w.conns.Keys
    && w'.t == w.t && w'.closedChans == w.closedChans
    && w'.nextSess == w.nextSess && w'.nextChan == w.nextChan
    && (forall d :: d in w.conns ==> SameConn(w.conns[d], w'.conns[d]))
    && (forall d :: d in w.conns && d != c ==> w'.conns[d].phase == w.conns[d].phase)
    && (InService(w.conns[c].phase) ==> InService(w'.conns[c].phase))
  }

  predicate SameConn(x: Conn, y: Conn) { x.key == y.key && x.role == y.role && x.se == y.se }

  lemma LocalKeeps(w: World, a: Action)
    requires !a.Connect? && !a.Exit? && Enabled(w, a)
    ensures Keeps(w, Do(w, a), a.c)
  {}

  lemma KeepsSound(w: World, w': World, c: nat)
    requires Sound(w) && Keeps(w, w', c) && SoundReader(w', c)
    ensures Sound(w')
  {
    assert SoundSlots(w');
    forall k, r | k in w'.t.sessions ensures OccupantSound(w', k, r) {
      assert OccupantSound(w, k, r);
    }
    forall d | d in w'.conns ensures SoundReader(w', d) {
      assert SoundReader(w, d);
    }
  }

  lemma LocalSound(w: World, a: Action)
    requires Sound(w) && !a.Connect? && !a.Exit? && Enabled(w, a)
    ensures Sound(Do(w, a))
  {
    hide Do, Keeps, Sound;
    LocalKeeps(w, a);
    LocalReader(w, a);
    KeepsSound(w, Do(w, a), a.c);
  }

  lemma LocalReader(w: World, a: Action)
    requires Sound(w) && !a.Connect? && !a.Exit? && Enabled(w, a)
    ensures a.c in Do(w, a).conns && SoundReader(Do(w, a), a.c)
  {
    hide SoundMap, SoundSlots;
    LocalKeeps(w, a);
    assert SoundReader(w, a.c);
    if a.Look? { LookSound(w, a); }
  }

  lemma LookSound(w: World, a: Action)
    requires Sound(w) && a.Look? && Enabled(w, a)
    ensures SoundReader(Do(w, a), a.c)
  {
    var x := w.conns[a.c];
    assert SoundReader(w, a.c);
    if IsCurrent(w, a.c) { assert OccupantSound(w, x.key, x.role.Other()); }
  }

  lemma {:induction false} RunSound(w: World, acts: seq<Action>)
    requires Sound(w)
    ensures Sound(Run(w, acts))
    decreases |acts|
  {
    hide Sound, Do, Enabled;
    if acts != [] {
      if Enabled(w, acts[0]) { StepSound(w, acts[0]); }
      RunSound(Next(w, acts[0]), acts[1..]);
    }
  }

  lemma StepSound(w: World, a: Action)
    requires Sound(w) && Enabled(w, a)
    ensures Sound(Do(w, a))
  {
    hide Sound, Do;
    if a.Connect? { ConnectSound(w, a); } else if a.Exit? { ExitSound(w, a); } else { LocalSound(w, a); }
  }
}
