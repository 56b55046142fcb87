/** state/pushcache.go and the store side of it in state/state.go: session documents are pushed
    through a cache that saves reads of the document store. */
module PushCache {
  import opened Basics

  /** A field of a session: text, or anything else JSON can hold. */
  datatype Value = Text(s: string) | Other(n: int)
  type Session = map<string, Value>

  const OWN_FIELDS := {"version", "updated_at", "content_hash"}

  /** A hash stands for what was hashed: sha256 over the stable JSON is taken to be injective. */
  datatype Hash = Hash(of: Session)

  function ContentHash(s: Session): Hash { Hash(s - OWN_FIELDS) }

  function TextField(s: Session, name: string): string {
    if name in s && s[name].Text? then s[name].s else ""
  }

  /** The id of a session's document. */
  function SessionKey(s: Session): string {
    if TextField(s, "key") != "" then TextField(s, "key")
    else if TextField(s, "session_id") != "" then TextField(s, "session_id")
    else "unknown"
  }

  /** pcs/{pc}/sessions/{id}: the session's fields with the three own ones overwritten. */
  datatype Doc = Doc(fields: Session, version: int, contentHash: Hash, updatedAt: string)

  /** pcs/{pc}: an account-wide listing needs it to exist; the agent's version is kept by the merge. */
  datatype Parent = Parent(updatedAt: string, drover: bool, agentVersion: Option<string>)

  datatype Entry = Entry(hash: Hash, version: int, verifiedAt: int)

  /** slaves/{pc} and wake/{pc} only matter by being there. */
  datatype Store = Store(docs: map<(string, string), Doc>, parents: map<string, Parent>,
                         slaves: set<string>, wakes: set<string>)

  /** How the deletes of a PC go: the sessions that are removed, the parent, the slave's secret, and the
      wake document, whose result is the call's. */
  datatype Gone = Gone(sessions: set<string>, parent: bool, slave: bool, wake: WriteResult)

  /** One process: the store it writes to, its cache, and the reads it has made. */
  datatype Mem = Mem(store: Store, entries: map<string, Entry>, gets: nat)

  /** The result of a push. */
  datatype Pushed<S> = Pushed(to: S, changed: nat, failed: bool)

  function CacheKey(pc: string, id: string): string { pc + "/" + id }

  function NewDoc(s: Session, version: int, stamp: string): Doc {
    Doc(s - OWN_FIELDS, version, ContentHash(s), stamp)
  }

  /** The version a changed session gets. */
  function NextVersion(store: Store, at: (string, string)): int {
    if at in store.docs then store.docs[at].version + 1 else 1
  }

  function Written(store: Store, at: (string, string), d: Doc, r: WriteResult): Store {
    if r == Err(false) then store else store.(docs := store.docs[at := d])
  }

  function WithParent(store: Store, pc: string, stamp: string): Store {
    var v := if pc in store.parents then store.parents[pc].agentVersion else None;
    store.(parents := store.parents[pc := Parent(stamp, true, v)])
  }

  // ----- The plain form: every session is read every time -----

  function PlainOne(store: Store, pc: string, s: Session, stamp: string, r: WriteResult): Pushed<Store> {
    var at := (pc, SessionKey(s));
    if at in store.docs && store.docs[at].contentHash == ContentHash(s) then Pushed(store, 0, false)
    else Pushed(Written(store, at, NewDoc(s, NextVersion(store, at), stamp), r), 1, r.Err?)
  }

  function PlainLoop(store: Store, pc: string, ss: seq<Session>, stamp: string, rs: seq<WriteResult>): Pushed<Store>
    requires |rs| == |ss|
    decreases |ss|
  {
    if ss == [] then Pushed(store, 0, false)
    else
      var one := PlainOne(store, pc, ss[0], stamp, rs[0]);
      if one.failed then one
      else
        var rest := PlainLoop(one.to, pc, ss[1..], stamp, rs[1..]);
        rest.(changed := one.changed + rest.changed)
  }

  function PlainPush(store: Store, pc: string, ss: seq<Session>, stamp: string, rs: seq<WriteResult>): Pushed<Store>
    requires |rs| == |ss|
  {
    var p := PlainLoop(store, pc, ss, stamp, rs);
    if !p.failed && p.changed > 0 then p.(to := WithParent(p.to, pc, stamp)) else p
  }

  // ----- The cached form -----

  /** The cache vouches for this content at this time. */
  predicate Hit(entries: map<string, Entry>, ck: string, h: Hash, now: int, every: int) {
    ck in entries && entries[ck].hash == h && now - entries[ck].verifiedAt < every
  }

  function CachedOne(m: Mem, pc: string, s: Session, now: int, every: int, stamp: string, r: WriteResult): Pushed<Mem> {
    var id := SessionKey(s);
    var at := (pc, id);
    var ck := CacheKey(pc, id);
    var h := ContentHash(s);
    if Hit(m.entries, ck, h, now, every) then Pushed(m, 0, false)
    else if at in m.store.docs && m.store.docs[at].contentHash == h then
      Pushed(Mem(m.store, m.entries[ck := Entry(h, m.store.docs[at].version, now)], m.gets + 1), 0, false)
    else
      var v := NextVersion(m.store, at);
      var entries := if r.Err? then m.entries - {ck} else m.entries[ck := Entry(h, v, now)];
      Pushed(Mem(Written(m.store, at, NewDoc(s, v, stamp), r), entries, m.gets + 1), 1, r.Err?)
  }

  function CachedLoop(m: Mem, pc: string, ss: seq<Session>, now: int, every: int, stamp: string,
                      rs: seq<WriteResult>): Pushed<Mem>
    requires |rs| == |ss|
    decreases |ss|
  {
    if ss == [] then Pushed(m, 0, false)
    else
      var one := CachedOne(m, pc, ss[0], now, every, stamp, rs[0]);
      if one.failed then one
      else
        var rest := CachedLoop(one.to, pc, ss[1..], now, every, stamp, rs[1..]);
        rest.(changed := one.changed + rest.changed)
  }

  function CachedPush(m: Mem, pc: string, ss: seq<Session>, now: int, every: int, stamp: string,
                      rs: seq<WriteResult>): Pushed<Mem>
    requires |rs| == |ss|
  {
    var p := CachedLoop(m, pc, ss, now, every, stamp, rs);
    if !p.failed && p.changed > 0 then p.(to := p.to.(store := WithParent(p.to.store, pc, stamp))) else p
  }

  function DocsWithout(docs: map<(string, string), Doc>, pc: string, gone: set<string>): map<(string, string), Doc> {
    map at | at in docs && !(at.0 == pc && at.1 in gone) :: docs[at]
  }

  /** DeleteSession: the cache forgets first; the delete itself may fail. */
  function DeletedSession(m: Mem, pc: string, id: string, r: WriteResult): Mem {
    if id == "" then m
    else m.(store := WithoutSession(m.store, pc, id, r), entries := m.entries - {CacheKey(pc, id)})
  }

  function WithoutSession(store: Store, pc: string, id: string, r: WriteResult): Store {
    if id == "" || r == Err(false) then store else store.(docs := store.docs - {(pc, id)})
  }

  function EntriesWithout(entries: map<string, Entry>, pc: string): map<string, Entry> {
    map k | k in entries && !(pc + "/" <= k) :: entries[k]
  }

  /** deletePC: each of its deletes may fail on its own, so any of the documents may go. */
  function DeletedDocs(store: Store, pc: string, g: Gone): Store {
    if pc == "" then store
    else Store(DocsWithout(store.docs, pc, g.sessions),
               if g.parent then store.parents - {pc} else store.parents,
               if g.slave then store.slaves - {pc} else store.slaves,
               if g.wake != Err(false) then store.wakes - {pc} else store.wakes)
  }

  /** DeletePCByID: forgets every entry of the PC, then deletes. */
  function DeletedPC(m: Mem, pc: string, g: Gone): Mem {
    m.(store := DeletedDocs(m.store, pc, g), entries := EntriesWithout(m.entries, pc))
  }

  // ----- The client as it is written -----

  /** One Client: its document store (reads and writes of single documents are atomic) and its cache. */
  class Client {
    var docs: map<(string, string), Doc>
    var parents: map<string, Parent>
    var slaves: set<string>
    var wakes: set<string>
    var entries: map<string, Entry>
    var gets: nat
    const verifyEvery: int

    constructor (every: int)
      ensures View() == Mem(Store(map[], map[], {}, {}), map[], 0) && verifyEvery == every
    {
      docs, parents, slaves, wakes, entries, gets, verifyEvery := map[], map[], {}, {}, map[], 0, every;
    }

    function View(): Mem reads this { Mem(Store(docs, parents, slaves, wakes), entries, gets) }

    /** pushSessions. `results` says how the store answers the write of each session that needs one. */
    method PushSessions(pc: string, sessions: seq<Session>, now: int, stamp: string, results: seq<WriteResult>)
      returns (changed: nat, failed: bool)
      requires |results| == |sessions|
      modifies this
      ensures var p := CachedPush(old(View()), pc, sessions, now, verifyEvery, stamp, results);
              View() == p.to && changed == p.changed && failed == p.failed
    {
      hide CachedOne;
      changed, failed := 0, false;
      ghost var all := CachedLoop(View(), pc, sessions, now, verifyEvery, stamp, results);
      var i := 0;
      while i < |sessions|
        invariant 0 <= i <= |sessions|
        invariant !failed
        invariant var rest := CachedLoop(View(), pc, sessions[i..], now, verifyEvery, stamp, results[i..]);
                  all == rest.(changed := changed + rest.changed)
      {
        var s := sessions[i];
        assert sessions[i..][0] == s && sessions[i..][1..] == sessions[i + 1..];
        assert results[i..][0] == results[i] && results[i..][1..] == results[i + 1..];
        var one := PushSession(pc, s, now, stamp, results[i]);
        failed := one && results[i].Err?;
        changed := changed + if one then 1 else 0;
        if failed { return; }
        i := i + 1;
      }
      if changed > 0 {
        var kept := if pc in parents then parents[pc].agentVersion else None;
        parents := parents[pc := Parent(stamp, true, kept)];
      }
    }

    /** The loop's body: whether the session was written, or tried to be. */
    method PushSession(pc: string, s: Session, now: int, stamp: string, result: WriteResult) returns (wrote: bool)
      modifies this`docs, this`entries, this`gets
      ensures var p := CachedOne(old(View()), pc, s, now, verifyEvery, stamp, result);
              View() == p.to && p.changed == (if wrote then 1 else 0) && p.failed == (wrote && result.Err?)
    {
      var id := SessionKey(s);
      var h := ContentHash(s);
      var ck := CacheKey(pc, id);
      if ck in entries {
        var e := entries[ck];
        if e.hash == h && now - e.verifiedAt < verifyEvery { return false; }
      }
      var ver := 1;
      gets := gets + 1;
      if (pc, id) in docs {
        var d := docs[(pc, id)];
        if d.contentHash == h {
          entries := entries[ck := Entry(h, d.version, now)];
          return false;
        }
        ver := d.version + 1;
      }
      if result != Err(false) {
        docs := docs[(pc, id) := Doc(s - OWN_FIELDS, ver, h, stamp)];
      }
      if result.Err? {
        entries := entries - {ck};
        return true;
      }
      entries := entries[ck := Entry(h, ver, now)];
      return true;
    }

    method DeleteSession(pc: string, id: string, r: WriteResult) returns (failed: bool)
      modifies this
      ensures View() == DeletedSession(old(View()), pc, id, r) && failed == (id != "" && r.Err?)
    {
      if id == "" { return false; }
      entries := entries - {CacheKey(pc, id)};
      if r != Err(false) { docs := docs - {(pc, id)}; }
      return r.Err?;
    }

    /** forgetPC walks the whole cache. */
    method ForgetPC(pc: string)
      modifies this`entries
      ensures entries == EntriesWithout(old(entries), pc)
    {
      var prefix := pc + "/";
      var todo := entries.Keys;
      while todo != {}
        invariant todo <= entries.Keys <= old(entries).Keys
        invariant forall k :: k in entries ==> entries[k] == old(entries)[k]
        invariant forall k :: k in old(entries) && !(prefix <= k) ==> k in entries
        invariant forall k :: k in entries && prefix <= k ==> k in todo
      {
        var k :| k in todo;
        if prefix <= k { entries := entries - {k}; }
        todo := todo - {k};
      }
    }

    /** deletePC: the cache is not told. */
    method DeletePC(pc: string, g: Gone) returns (failed: bool)
      modifies this`docs, this`parents, this`slaves, this`wakes
      ensures View() == old(View()).(store := DeletedDocs(old(View()).store, pc, g))
      ensures failed == (pc != "" && g.wake.Err?)
    {
      if pc == "" { return false; }
      docs := DocsWithout(docs, pc, g.sessions);
      if g.parent { parents := parents - {pc}; }
      if g.slave { slaves := slaves - {pc}; }
      if g.wake != Err(false) { wakes := wakes - {pc}; }
      return g.wake.Err?;
    }

    method DeletePCByID(pc: string, g: Gone) returns (failed: bool)
      modifies this
      ensures View() == DeletedPC(old(View()), pc, g) && failed == (pc != "" && g.wake.Err?)
    {
      ForgetPC(pc);
      failed := DeletePC(pc, g);
    }
  }
}
