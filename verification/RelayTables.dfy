/** relay/relay.go: the tables behind Server.mu, and the sections that run under it. */
module RelayTables {
  import opened Basics

  datatype Role = Source | Viewer {
    function Other(): Role { if Source? then Viewer else Source }
  }
  type Key = string

  /** One `sess`: its two slots and the channel that announces the next change of them. */
  datatype Slots<N, C> = Slots(source: Option<N>, viewer: Option<N>, change: C) {
    function At(role: Role): Option<N> { if role == Source then source else viewer }
    function Put(role: Role, nc: N): Slots<N, C> {
      if role == Source then this.(source := Some(nc)) else this.(viewer := Some(nc))
    }
  }

  /** The sessions map, and the slots of every session object ever made: readers keep using theirs
      after it has left the map. */
  datatype Tables<!S(==), N(==), C(==)> = Tables(sessions: map<Key, S>, slots: map<S, Slots<N, C>>) {
    predicate Current(key: Key, se: S, role: Role, nc: N) {
      key in sessions && sessions[key] == se && se in slots && slots[se].At(role) == Some(nc)
    }
  }

  /** Registering a connection. `s` and `c` are the new objects it may need. */
  function Attach<S(==), N(==), C(==)>(t: Tables<S, N, C>, key: Key, role: Role, nc: N, s: S, c: C): Tables<S, N, C>
    requires key in t.sessions ==> t.sessions[key] in t.slots
  {
    if key in t.sessions then
      var se := t.sessions[key];
      t.(slots := t.slots[se := t.slots[se].Put(role, nc).(change := c)])
    else
      Tables(t.sessions[key := s], t.slots[s := Slots(None, None, c).Put(role, nc)])
  }

  /** The connection whose slot was taken over. */
  function Displaced<S(==), N(==), C(==)>(t: Tables<S, N, C>, key: Key, role: Role): Option<N>
    requires key in t.sessions ==> t.sessions[key] in t.slots
  {
    if key in t.sessions then t.slots[t.sessions[key]].At(role) else None
  }

  datatype Found<N, C> = Replaced | Peer(nc: N) | Alone(change: C)

  /** What a reader with a chunk in hand finds. */
  function LookUp<S(==), N(==), C(==)>(t: Tables<S, N, C>, key: Key, se: S, role: Role, nc: N): Found<N, C> {
    if !t.Current(key, se, role, nc) then Replaced
    else match t.slots[se].At(role.Other()) case Some(p) => Peer(p) case None => Alone(t.slots[se].change)
  }

  /** The exit section of a reader. */
  function Leave<S(==), N(==), C(==)>(t: Tables<S, N, C>, key: Key, se: S, role: Role, nc: N, c: C): Tables<S, N, C> {
    if t.Current(key, se, role, nc) then Tables(t.sessions - {key}, t.slots[se := t.slots[se].(change := c)])
    else t
  }

  /** The connection that a leaving reader takes down with it. */
  function LeavesWith<S(==), N(==), C(==)>(t: Tables<S, N, C>, key: Key, se: S, role: Role, nc: N): Option<N> {
    if t.Current(key, se, role, nc) then t.slots[se].At(role.Other()) else None
  }

  /** Attach is finding or making the session, then taking the slot over. */
  lemma AttachTakesSlot<S, N, C>(t: Tables<S, N, C>, with: Tables<S, N, C>, key: Key, role: Role,
                                             nc: N, s: S, c: C)
    requires key in t.sessions ==> t.sessions[key] == s && s in t.slots && with == t
    requires key !in t.sessions ==>
               s in with.slots && with.slots[s].At(Source) == None && with.slots[s].At(Viewer) == None
    requires key !in t.sessions ==> with == Tables(t.sessions[key := s], t.slots[s := with.slots[s]])
    ensures with.(slots := with.slots[s := with.slots[s].Put(role, nc).(change := c)]) == Attach(t, key, role, nc, s, c)
    ensures with.slots[s].At(role) == Displaced(t, key, role)
  {
    var sl := with.slots[s].Put(role, nc).(change := c);
    if key !in t.sessions {
      assert t.slots[s := with.slots[s]][s := sl] == t.slots[s := sl];
    }
  }

  /** What the lone timer asks two minutes after a connection was made. */
  predicate IsLone<S(==), N(==), C(==)>(t: Tables<S, N, C>, key: Key, se: S, role: Role, nc: N) {
    t.Current(key, se, role, nc) && t.slots[se].At(role.Other()) == None
  }

  /** A `chan struct{}` used only to be closed. Closing it twice would panic, so it is required not to be. */
  class Chan {
    var closed: bool
    constructor () ensures !closed { closed := false; }
    method Close()
      requires !closed
      modifies this
      ensures closed
    {
      closed := true;
    }
  }

  class Sess<N(==)> {
    var source: Option<N>
    var viewer: Option<N>
    var change: Chan

    constructor (c: Chan)
      ensures source == None && viewer == None && change == c
    {
      source, viewer, change := None, None, c;
    }

    ghost function View(): Slots<N, Chan> reads this { Slots(source, viewer, change) }

    method IsCurrent(role: Role, nc: N) returns (b: bool)
      ensures b == (View().At(role) == Some(nc))
    {
      if role == Source { return source == Some(nc); }
      return viewer == Some(nc);
    }
  }

  class Server<N(==)> {
    var sessions: map<Key, Sess<N>>
    /** Every session object made, and the channels they announce changes on. */
    ghost var made: set<Sess<N>>
    ghost var open: set<Chan>

    ghost predicate Valid()
      reads this, made, open
    {
      && (forall k :: k in sessions ==> sessions[k] in made)
      && (forall s :: s in made ==> s.change in open)
      && (forall s, s' :: s in made && s' in made && s != s' ==> s.change != s'.change)
      && (forall c :: c in open ==> !c.closed)
    }

    ghost function View(): Tables<Sess<N>, N, Chan>
      reads this, made
    {
      Tables(sessions, map s | s in made :: s.View())
    }

    constructor ()
      ensures Valid() && View() == Tables(map[], map[])
    {
      sessions, made, open := map[], {}, {};
    }

    /** serve, lines 153 to 157: the session of a key, made if there is none. */
    method SessionFor(key: Key) returns (se: Sess<N>)
      requires Valid()
      modifies this
      ensures Valid() && key in sessions && sessions[key] == se
      ensures key in old(sessions) ==> View() == old(View())
      ensures key !in old(sessions) ==> fresh(se) && fresh(se.change)
      ensures key !in old(sessions) ==>
              View() == Tables(old(sessions)[key := se], old(View()).slots[se := Slots(None, None, se.change)])
      ensures forall c :: c in open ==> c in old(open) || fresh(c)
    {
      if key in sessions { return sessions[key]; }
      var c := new Chan();
      se := new Sess(c);
      sessions := sessions[key := se];
      made := made + {se};
      open := open + {c};
    }

    /** serve, lines 158 to 165: takes the slot over and announces it. */
    method TakeSlot(se: Sess<N>, role: Role, nc: N) returns (displaced: Option<N>)
      requires Valid() && se in made
      modifies se, se.change, this`open
      ensures Valid() && fresh(se.change) && old(se.change).closed
      ensures displaced == old(se.View()).At(role)
      ensures se.View() == old(se.View()).Put(role, nc).(change := se.change)
      ensures View() == old(View()).(slots := old(View()).slots[se := se.View()])
    {
      if role == Source {
        displaced := se.source;
        se.source := Some(nc);
      } else {
        displaced := se.viewer;
        se.viewer := Some(nc);
      }
      Announce(se);
    }

    /** serve, the section at line 152. The old channel is closed, which wakes everyone who waits on it. */
    method Register(key: Key, role: Role, nc: N) returns (se: Sess<N>, displaced: Option<N>)
      requires Valid()
      modifies this, made, open
      ensures Valid() && fresh(se.change)
      ensures key in old(sessions) ==> se == old(sessions[key]) && old(se.change).closed
      ensures key !in old(sessions) ==> fresh(se)
      ensures View() == Attach(old(View()), key, role, nc, se, se.change)
      ensures displaced == Displaced(old(View()), key, role)
    {
      hide Attach, Displaced;
      ghost var t := View();
      se := SessionFor(key);
      ghost var with := View();
      assert with.slots[se] == se.View();
      displaced := TakeSlot(se, role, nc);
      AttachTakesSlot(t, with, key, role, nc, se, se.change);
    }

    /** Wakes everyone who waits for a change of this session, and gives it a new channel to wait on. */
    method Announce(se: Sess<N>)
      requires Valid() && se in made
      modifies se`change, se.change, this`open
      ensures Valid()
      ensures fresh(se.change) && old(se.change).closed
      ensures se.change in open && (forall c :: c in open && c != se.change ==> c in old(open))
    {
      var was := se.change;
      was.Close();
      var c := new Chan();
      se.change := c;
      open := open - {was} + {c};
    }

    /** writePeer, the section at line 235. */
    method FindPeer(key: Key, se: Sess<N>, role: Role, nc: N) returns (r: Found<N, Chan>)
      requires Valid() && se in made
      ensures r == LookUp(View(), key, se, role, nc)
    {
      var current := se.IsCurrent(role, nc);
      if key !in sessions || sessions[key] != se || !current { return Replaced; }
      var peer := if role == Source then se.viewer else se.source;
      match peer
      case Some(p) => return Peer(p);
      case None => return Alone(se.change);
    }

    /** serve, the section at line 200. */
    method Unregister(key: Key, se: Sess<N>, role: Role, nc: N) returns (peer: Option<N>)
      requires Valid() && se in made
      modifies this, se`change, se.change
      ensures Valid()
      ensures View() == Leave(old(View()), key, se, role, nc, se.change)
      ensures peer == LeavesWith(old(View()), key, se, role, nc)
      ensures old(View()).Current(key, se, role, nc) ==> fresh(se.change) && old(se.change).closed
    {
      peer := None;
      var current := se.IsCurrent(role, nc);
      ghost var t := View();
      assert t.slots[se] == se.View();
      if key in sessions && sessions[key] == se && current {
        assert t.Current(key, se, role, nc);
        peer := if role == Source then se.viewer else se.source;
        sessions := sessions - {key};
        Announce(se);
        assert View().slots == t.slots[se := se.View()];
      }
    }

    /** The lone timer's section at line 174. */
    method CheckLone(key: Key, se: Sess<N>, role: Role, nc: N) returns (lone: bool)
      requires Valid() && se in made
      ensures lone == IsLone(View(), key, se, role, nc)
    {
      var current := se.IsCurrent(role, nc);
      lone := key in sessions && sessions[key] == se && current &&
              (if role == Source then se.viewer == None else se.source == None);
    }
  }
}
