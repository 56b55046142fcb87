/** What the hashes are for: a document holds the fields of the session last pushed to it, and a push
    writes just the sessions whose fields are not those stored. */
module PushContents {
  import opened Basics
  import opened PushCache
  import opened PushTheorems

  // ----- Content -----

  /** Equal in every field but the three that the client writes itself. */
  ghost predicate SameContent(s: Session, u: Session) {
    forall f :: f != "version" && f != "updated_at" && f != "content_hash" ==>
      (f in s <==> f in u) && (f in s && f in u ==> s[f] == u[f])
  }

  lemma HashesEqualIff(s: Session, u: Session)
    ensures ContentHash(s) == ContentHash(u) <==> SameContent(s, u)
  {
    var a, b := s - OWN_FIELDS, u - OWN_FIELDS;
    if a == b {
      forall f | f !in OWN_FIELDS ensures (f in s <==> f in u) && (f in s && f in u ==> s[f] == u[f]) {
        assert (f in s <==> f in a) && (f in u <==> f in b);
      }
    } else {
      var f :| (f in a) != (f in b) || (f in a && a[f] != b[f]);
      assert f !in OWN_FIELDS;
    }
  }

  /** The document id: the key, or the session id, or a fixed word; what is not text, or empty, does not count. */
  lemma SessionKeyMeans(s: Session)
    ensures var named := "key" in s && s["key"].Text? && s["key"].s != "";
            var idOnly := "session_id" in s && s["session_id"].Text? && s["session_id"].s != "";
            SessionKey(s) == if named then s["key"].s else if idOnly then s["session_id"].s else "unknown"
  {}

  /** A document's hash is that of the fields it holds, and they are none of the client's own. */
  predicate OwnHash(d: Doc) {
    && d.contentHash == ContentHash(d.fields)
    && "version" !in d.fields && "updated_at" !in d.fields && "content_hash" !in d.fields
  }

  ghost predicate OwnHashes(store: Store) {
    forall at :: at in store.docs ==> OwnHash(store.docs[at])
  }

  /** What the store holds for s is the content of s. */
  predicate Holds(store: Store, pc: string, s: Session) {
    var at := (pc, SessionKey(s));
    at in store.docs && store.docs[at].fields == s - {"version", "updated_at", "content_hash"}
  }

  lemma StoredIsHeld(m: Mem, pc: string, s: Session)
    requires OwnHashes(m.store)
    ensures Stored(m, pc, s) <==> Holds(m.store, pc, s)
  {
    hide SessionKey;
    var at := (pc, SessionKey(s));
    if at in m.store.docs { OwnContent(m.store.docs[at], s); }
  }

  lemma OwnContent(d: Doc, s: Session)
    requires OwnHash(d)
    ensures d.contentHash == ContentHash(s) <==> d.fields == s - {"version", "updated_at", "content_hash"}
  {
    assert d.fields - OWN_FIELDS == d.fields;
  }

  lemma NewDocOwn(s: Session, version: int, stamp: string)
    ensures OwnHash(NewDoc(s, version, stamp))
  {
    var f := s - OWN_FIELDS;
    assert f - OWN_FIELDS == f;
  }

  /** A process that starts, on whatever store; and an empty store. */
  lemma StartAgrees(store: Store)
    ensures Agrees(Mem(store, map[], 0)) && OwnHashes(Store(map[], map[], {}, {}))
  {}

  // ----- One session -----

  /** A session is written just when its content is not what is stored, with the next version; nothing
      else in the store changes. */
  lemma OneMeans(m: Mem, pc: string, s: Session, now: int, every: int, stamp: string, r: WriteResult)
    requires Agrees(m) && OwnHashes(m.store) && IsDocId(pc)
    ensures var at := (pc, SessionKey(s));
            var c := CachedOne(m, pc, s, now, every, stamp, r);
            var fields := s - {"version", "updated_at", "content_hash"};
            if at in m.store.docs && m.store.docs[at].fields == fields then
              c.changed == 0 && !c.failed && c.to.store == m.store
            else
              var version := if at in m.store.docs then m.store.docs[at].version + 1 else 1;
              && c.changed == 1 && (c.failed <==> r.Err?)
              && c.to.store == if r == Err(false) then m.store
                               else m.store.(docs := m.store.docs[at := Doc(fields, version, ContentHash(s), stamp)])
  {
    hide SessionKey;
    OneAgrees(m, pc, s, now, every, stamp, r);
    StoredIsHeld(m, pc, s);
  }

  lemma OneOwns(m: Mem, pc: string, s: Session, now: int, every: int, stamp: string, r: WriteResult)
    requires OwnHashes(m.store)
    ensures OwnHashes(CachedOne(m, pc, s, now, every, stamp, r).to.store)
  {
    hide SessionKey, NewDoc, OwnHash;
    NewDocOwn(s, NextVersion(m.store, (pc, SessionKey(s))), stamp);
  }

  // ----- Whole pushes -----

  lemma {:induction false} LoopOwns(m: Mem, pc: string, ss: seq<Session>, now: int, every: int, stamp: string,
                                    rs: seq<WriteResult>)
    requires |rs| == |ss| && OwnHashes(m.store)
    ensures OwnHashes(CachedLoop(m, pc, ss, now, every, stamp, rs).to.store)
    decreases |ss|
  {
    hide OwnHashes, CachedOne;
    if ss != [] {
      OneOwns(m, pc, ss[0], now, every, stamp, rs[0]);
      var one := CachedOne(m, pc, ss[0], now, every, stamp, rs[0]);
      if !one.failed { LoopOwns(one.to, pc, ss[1..], now, every, stamp, rs[1..]); }
    }
  }

  lemma OpOwns(m: Mem, op: Op, every: int)
    requires OwnHashes(m.store) && WellFormed(op)
    ensures OwnHashes(WithCache(m, op, every).to.store)
  {
    hide OwnHash, CachedLoop;
    if op.Push? { LoopOwns(m, op.pc, op.sessions, op.now, every, op.stamp, op.results); }
  }

  lemma {:induction false} RunOwns(m: Mem, ops: seq<Op>, every: int)
    requires OwnHashes(m.store) && forall op :: op in ops ==> WellFormed(op)
    ensures OwnHashes(RunWith(m, ops, every).0.store)
    decreases |ops|
  {
    hide OwnHashes, WithCache;
    if ops != [] {
      OpOwns(m, ops[0], every);
      RunOwns(WithCache(m, ops[0], every).to, ops[1..], every);
    }
  }

  /** How many of the sessions the store does not hold. */
  function Missing(store: Store, pc: string, ss: seq<Session>): nat {
    if ss == [] then 0 else (if Holds(store, pc, ss[0]) then 0 else 1) + Missing(store, pc, ss[1..])
  }

  lemma OneSparesOthers(m: Mem, pc: string, s: Session, now: int, every: int, stamp: string, r: WriteResult,
                        u: Session)
    requires SessionKey(u) != SessionKey(s)
    ensures Holds(CachedOne(m, pc, s, now, every, stamp, r).to.store, pc, u) == Holds(m.store, pc, u)
  {
    hide SessionKey;
  }

  lemma {:induction false} SameMissing(store: Store, store': Store, pc: string, ss: seq<Session>)
    requires forall u :: u in ss ==> Holds(store', pc, u) == Holds(store, pc, u)
    ensures Missing(store', pc, ss) == Missing(store, pc, ss)
    decreases |ss|
  {
    hide Holds;
    if ss != [] { SameMissing(store, store', pc, ss[1..]); }
  }

  lemma OthersDiffer(ss: seq<Session>)
    requires Distinct(ss) && ss != []
    ensures forall u :: u in ss[1..] ==> SessionKey(u) != SessionKey(ss[0])
  {
    forall u | u in ss[1..] ensures SessionKey(u) != SessionKey(ss[0]) {
      var j :| 0 <= j < |ss[1..]| && ss[1..][j] == u;
      assert ss[j + 1] == u;
    }
  }

  /** Sessions with different keys: an error is reported just when the write of one that the store does not
      hold fails; without one, the count is that of the sessions it did not hold. */
  lemma {:induction false} LoopCounts(m: Mem, pc: string, ss: seq<Session>, now: int, every: int, stamp: string,
                                      rs: seq<WriteResult>)
    requires |rs| == |ss| && Agrees(m) && OwnHashes(m.store) && IsDocId(pc) && Distinct(ss)
    ensures var c := CachedLoop(m, pc, ss, now, every, stamp, rs);
            && (c.failed <==> exists i :: 0 <= i < |ss| && !Holds(m.store, pc, ss[i]) && rs[i].Err?)
            && (!c.failed ==> c.changed == Missing(m.store, pc, ss))
    decreases |ss|
  {
    hide OwnHashes, Agrees, CachedOne, Holds, SessionKey, Distinct;
    if ss != [] {
      var one := CachedOne(m, pc, ss[0], now, every, stamp, rs[0]);
      OneCounts(m, pc, ss[0], now, every, stamp, rs[0]);
      if !one.failed {
        OneAgrees(m, pc, ss[0], now, every, stamp, rs[0]);
        OneOwns(m, pc, ss[0], now, every, stamp, rs[0]);
        OthersDiffer(ss);
        DistinctRest(ss);
        forall u | u in ss[1..] { OneSparesOthers(m, pc, ss[0], now, every, stamp, rs[0], u); }
        SameMissing(m.store, one.to.store, pc, ss[1..]);
        LoopCounts(one.to, pc, ss[1..], now, every, stamp, rs[1..]);
        forall i | 0 < i < |ss| ensures Holds(one.to.store, pc, ss[1..][i - 1]) == Holds(m.store, pc, ss[i]) {
          assert ss[1..][i - 1] == ss[i] && ss[i] in ss[1..];
        }
        LastFails(m.store, one.to.store, pc, ss, rs);
      }
    }
  }

  lemma OneCounts(m: Mem, pc: string, s: Session, now: int, every: int, stamp: string, r: WriteResult)
    requires Agrees(m) && OwnHashes(m.store) && IsDocId(pc)
    ensures var c := CachedOne(m, pc, s, now, every, stamp, r);
            && c.changed == (if Holds(m.store, pc, s) then 0 else 1)
            && (c.failed <==> !Holds(m.store, pc, s) && r.Err?)
  {
    hide OwnHashes, Agrees, CachedOne, SessionKey;
    OneMeans(m, pc, s, now, every, stamp, r);
  }

  lemma LastFails(store: Store, store': Store, pc: string, ss: seq<Session>, rs: seq<WriteResult>)
    requires |rs| == |ss| > 0 && !(!Holds(store, pc, ss[0]) && rs[0].Err?)
    requires forall i :: 0 < i < |ss| ==> Holds(store', pc, ss[1..][i - 1]) == Holds(store, pc, ss[i])
    ensures (exists i :: 0 <= i < |ss| && !Holds(store, pc, ss[i]) && rs[i].Err?)
            <==> (exists i :: 0 <= i < |ss| - 1 && !Holds(store', pc, ss[1..][i]) && rs[1..][i].Err?)
  {
    hide Holds;
    if i :| 0 <= i < |ss| && !Holds(store, pc, ss[i]) && rs[i].Err? {
      assert !Holds(store', pc, ss[1..][i - 1]) && rs[1..][i - 1].Err?;
    }
    if i :| 0 <= i < |ss| - 1 && !Holds(store', pc, ss[1..][i]) && rs[1..][i].Err? {
      assert !Holds(store, pc, ss[i + 1]) && rs[i + 1].Err?;
    }
  }

  /** A push of sessions leaves the documents of all others, and the other PCs' parents, as they were; its own
      PC's parent is written just when something was and nothing failed, and keeps its agent's version. */
  lemma {:induction false} PushTouches(m: Mem, pc: string, ss: seq<Session>, now: int, every: int, stamp: string,
                                       rs: seq<WriteResult>, pc': string, id: string)
    requires |rs| == |ss|
    ensures var p := CachedPush(m, pc, ss, now, every, stamp, rs);
            var (before, after) := (m.store, p.to.store);
            var kept := if pc in before.parents then before.parents[pc].agentVersion else None;
            && after.slaves == before.slaves && after.wakes == before.wakes
            && (p.failed || p.changed == 0 ==> after.parents == before.parents)
            && (!p.failed && p.changed > 0 ==> after.parents == before.parents[pc := Parent(stamp, true, kept)])
            && (pc' != pc || (forall s :: s in ss ==> SessionKey(s) != id) ==>
                  ((pc', id) in after.docs <==> (pc', id) in before.docs)
                  && ((pc', id) in before.docs ==> after.docs[(pc', id)] == before.docs[(pc', id)]))
  {
    hide CachedLoop, SessionKey;
    LoopTouches(m, pc, ss, now, every, stamp, rs, pc', id);
  }

  lemma {:induction false} LoopTouches(m: Mem, pc: string, ss: seq<Session>, now: int, every: int, stamp: string,
                                       rs: seq<WriteResult>, pc': string, id: string)
    requires |rs| == |ss|
    ensures var (before, after) := (m.store, CachedLoop(m, pc, ss, now, every, stamp, rs).to.store);
            && after.slaves == before.slaves && after.wakes == before.wakes && after.parents == before.parents
            && (pc' != pc || (forall s :: s in ss ==> SessionKey(s) != id) ==>
                  ((pc', id) in after.docs <==> (pc', id) in before.docs)
                  && ((pc', id) in before.docs ==> after.docs[(pc', id)] == before.docs[(pc', id)]))
    decreases |ss|
  {
    hide SessionKey;
    if ss != [] {
      var one := CachedOne(m, pc, ss[0], now, every, stamp, rs[0]);
      if !one.failed { LoopTouches(one.to, pc, ss[1..], now, every, stamp, rs[1..], pc', id); }
    }
  }

  // ----- Runs -----

  /** Main result: after any run, a push that reports no error leaves each session's document, the last of
      its key, with exactly the fields pushed. */
  lemma {:induction false} PushedIsHeld(m: Mem, ops: seq<Op>, last: Op, every: int, i: nat)
    requires Agrees(m) && OwnHashes(m.store) && (forall op :: op in ops ==> WellFormed(op))
    requires last.Push? && WellFormed(last) && i < |last.sessions|
    requires forall j :: i < j < |last.sessions| ==> SessionKey(last.sessions[j]) != SessionKey(last.sessions[i])
    requires !WithCache(RunWith(m, ops, every).0, last, every).failed
    ensures Holds(WithCache(RunWith(m, ops, every).0, last, every).to.store, last.pc, last.sessions[i])
  {
    hide CachedLoop, RunWith, SessionKey, OwnHashes, Agrees, Stored, Holds;
    CacheIsInvisible(m, ops, every);
    RunOwns(m, ops, every);
    var m' := RunWith(m, ops, every).0;
    var s := last.sessions[i];
    KnowsWhatAgrees(m', last.pc, SessionKey(s), last.now - every);
    LoopRecreates(m', last.pc, last.sessions, last.now, every, last.stamp, last.results, i, last.now - every);
    ParentAside(m', last, every, s);
    OpOwns(m', last, every);
    StoredIsHeld(WithCache(m', last, every).to, last.pc, s);
  }

  lemma KnowsWhatAgrees(m: Mem, pc: string, id: string, t: int)
    requires Agrees(m) && IsDocId(pc)
    ensures KnowsSince(m, pc, id, t)
  {}

  lemma ParentAside(m: Mem, last: Op, every: int, s: Session)
    requires last.Push? && WellFormed(last)
    ensures Stored(WithCache(m, last, every).to, last.pc, s)
            == Stored(CachedLoop(m, last.pc, last.sessions, last.now, every, last.stamp, last.results).to, last.pc, s)
  {
    hide CachedLoop, SessionKey;
  }

  /** The same whatever others have done to the store, once the interval has passed. */
  lemma {:induction false} HeldAfterInterval(m: Mem, ops: seq<Op>, last: Op, every: int, i: nat, t: int)
    requires last.Push? && WellFormed(last) && i < |last.sessions| && last.now >= t + every
    requires OwnHashes(m.store) && forall op :: op in ops ==> WellFormed(op)
    requires var ck := last.pc + "/" + SessionKey(last.sessions[i]);
             ck in m.entries ==> m.entries[ck].verifiedAt <= t
    requires forall j :: i < j < |last.sessions| ==> SessionKey(last.sessions[j]) != SessionKey(last.sessions[i])
    requires !WithCache(RunWith(m, ops, every).0, last, every).failed
    ensures Holds(WithCache(RunWith(m, ops, every).0, last, every).to.store, last.pc, last.sessions[i])
  {
    hide WithCache, RunWith, SessionKey, OwnHashes, Stored, Holds;
    StoredAfterInterval(m, ops, last, every, i, t);
    RunOwns(m, ops, every);
    OpOwns(RunWith(m, ops, every).0, last, every);
    StoredIsHeld(WithCache(RunWith(m, ops, every).0, last, every).to, last.pc, last.sessions[i]);
  }

  /** Two pushes of a session with different content, at any two times, even within the interval: the second
      writes its content with the version after the first's. */
  lemma ChangeIsWritten(m: Mem, pc: string, s: Session, u: Session, now: int, now': int, every: int, stamp: string)
    requires Agrees(m) && OwnHashes(m.store) && IsDocId(pc)
    requires SessionKey(u) == SessionKey(s) && !SameContent(s, u)
    ensures var one := CachedOne(m, pc, s, now, every, stamp, Ok).to;
            var two := CachedOne(one, pc, u, now', every, stamp, Ok);
            var at := (pc, SessionKey(s));
            && two.changed == 1 && !two.failed && at in one.store.docs && at in two.to.store.docs
            && two.to.store.docs[at].version == one.store.docs[at].version + 1
            && two.to.store.docs[at].fields == u - {"version", "updated_at", "content_hash"}
  {
    hide SessionKey, CachedOne, Agrees, OwnHashes, ContentHash;
    var one := CachedOne(m, pc, s, now, every, stamp, Ok).to;
    OneMeans(m, pc, s, now, every, stamp, Ok);
    OneAgrees(m, pc, s, now, every, stamp, Ok);
    OneOwns(m, pc, s, now, every, stamp, Ok);
    OneMeans(one, pc, u, now', every, stamp, Ok);
    HashesEqualIff(s, u);
    OtherContent(s, u);
  }

  lemma OtherContent(s: Session, u: Session)
    requires ContentHash(s) != ContentHash(u)
    ensures s - {"version", "updated_at", "content_hash"} != u - {"version", "updated_at", "content_hash"}
  {}

  // ----- Deletions -----

  /** Deleting a session removes that document alone; deleting a PC removes those of its own documents, its
      parent, its slave and its wake, that the deletes reach; neither removes anything with an empty id. */
  lemma DeletesMean(store: Store, pc: string, id: string, r: WriteResult, g: Gone, at: (string, string))
    ensures at in WithoutSession(store, pc, id, r).docs
            <==> at in store.docs && !(id != "" && r != Err(false) && at == (pc, id))
    ensures at in DeletedDocs(store, pc, g).docs
            <==> at in store.docs && !(pc != "" && at.0 == pc && at.1 in g.sessions)
    ensures at in WithoutSession(store, pc, id, r).docs ==>
              WithoutSession(store, pc, id, r).docs[at] == store.docs[at]
    ensures at in DeletedDocs(store, pc, g).docs ==> DeletedDocs(store, pc, g).docs[at] == store.docs[at]
    ensures WithoutSession(store, pc, id, r) == store.(docs := WithoutSession(store, pc, id, r).docs)
    ensures var after := DeletedDocs(store, pc, g);
            && after.parents == (if pc != "" && g.parent then store.parents - {pc} else store.parents)
            && after.slaves == (if pc != "" && g.slave then store.slaves - {pc} else store.slaves)
            && after.wakes == if pc != "" && g.wake != Err(false) then store.wakes - {pc} else store.wakes
  {}

  /** The client notices its own deletions at once: the next push of a deleted session writes it anew,
      whatever its content and however soon. */
  lemma OwnDeletionIsNoticed(m: Mem, op: Op, s: Session, now: int, every: int, stamp: string)
    requires Agrees(m) && OwnHashes(m.store) && WellFormed(op) && op.pc != ""
    requires || (op.Delete? && op.id == SessionKey(s) && op.r != Err(false))
             || (op.DeletePC? && SessionKey(s) in op.g.sessions)
    ensures var c := CachedOne(WithCache(m, op, every).to, op.pc, s, now, every, stamp, Ok);
            var at := (op.pc, SessionKey(s));
            && c.changed == 1 && at in c.to.store.docs && c.to.store.docs[at].version == 1
            && c.to.store.docs[at].fields == s - {"version", "updated_at", "content_hash"}
  {
    SessionKeyMeans(s);
    hide SessionKey, CachedOne, Agrees, OwnHashes, ContentHash;
    DeleteAgrees(m, op, every);
    OpOwns(m, op, every);
    OneMeans(WithCache(m, op, every).to, op.pc, s, now, every, stamp, Ok);
  }
}
