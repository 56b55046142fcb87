/** The cache changes what is read, never what is stored or reported; and how much it saves and how
    late it notices an outside deletion. */
module PushTheorems {
  import opened Basics
  import opened PushCache

  // ----- The cache agrees with the store -----

  /** A PC id is a document id, so it has no slash; keys of different PCs or sessions then differ. */
  predicate IsDocId(pc: string) { '/' !in pc }

  /** Before the first slash of a cache key stands the PC. */
  lemma FirstSlash(pc: string, id: string, i: nat)
    requires IsDocId(pc) && i <= |pc|
    ensures i < |CacheKey(pc, id)| && (CacheKey(pc, id)[i] == '/') == (i == |pc|)
    ensures CacheKey(pc, id)[..|pc|] == pc && CacheKey(pc, id)[|pc| + 1..] == id
  {
    assert i < |pc| ==> CacheKey(pc, id)[i] == pc[i];
  }

  lemma CacheKeyInjective(pc: string, id: string, pc': string, id': string)
    requires IsDocId(pc) && IsDocId(pc') && CacheKey(pc, id) == CacheKey(pc', id')
    ensures pc == pc' && id == id'
  {
    hide CacheKey;
    var i := if |pc| <= |pc'| then |pc| else |pc'|;
    FirstSlash(pc, id, i);
    FirstSlash(pc', id', i);
  }

  lemma CacheKeyOfPC(pc: string, pc': string, id: string)
    requires IsDocId(pc) && IsDocId(pc')
    ensures (pc + "/" <= CacheKey(pc', id)) == (pc == pc')
  {
    var k := CacheKey(pc', id);
    if pc + "/" <= k {
      assert k == CacheKey(pc, k[|pc| + 1..]);
      CacheKeyInjective(pc, k[|pc| + 1..], pc', id);
    }
  }

  /** Every entry's hash and version are those of the stored document. */
  ghost predicate Agrees(m: Mem) {
    forall pc, id :: IsDocId(pc) && CacheKey(pc, id) in m.entries ==> EntryAgrees(m, pc, id)
  }

  predicate EntryAgrees(m: Mem, pc: string, id: string)
    requires CacheKey(pc, id) in m.entries
  {
    var e := m.entries[CacheKey(pc, id)];
    && (pc, id) in m.store.docs
    && m.store.docs[(pc, id)].contentHash == e.hash && m.store.docs[(pc, id)].version == e.version
  }

  lemma OneAgrees(m: Mem, pc: string, s: Session, now: int, every: int, stamp: string, r: WriteResult)
    requires Agrees(m) && IsDocId(pc)
    ensures var c := CachedOne(m, pc, s, now, every, stamp, r);
            var p := PlainOne(m.store, pc, s, stamp, r);
            Agrees(c.to) && c.to.store == p.to && c.changed == p.changed && c.failed == p.failed
  {
    var id := SessionKey(s);
    hide SessionKey;
    var c := CachedOne(m, pc, s, now, every, stamp, r);
    var ck := CacheKey(pc, id);
    if ck in m.entries { assert EntryAgrees(m, pc, id); }
    forall pc', id' | IsDocId(pc') && CacheKey(pc', id') in c.to.entries ensures EntryAgrees(c.to, pc', id') {
      if CacheKey(pc', id') == ck { CacheKeyInjective(pc, id, pc', id'); }
      if CacheKey(pc', id') in m.entries { assert EntryAgrees(m, pc', id'); }
    }
  }

  lemma {:induction false} LoopAgrees(m: Mem, pc: string, ss: seq<Session>, now: int, every: int, stamp: string,
                                      rs: seq<WriteResult>)
    requires Agrees(m) && IsDocId(pc) && |rs| == |ss|
    ensures var c := CachedLoop(m, pc, ss, now, every, stamp, rs);
            var p := PlainLoop(m.store, pc, ss, stamp, rs);
            Agrees(c.to) && c.to.store == p.to && c.changed == p.changed && c.failed == p.failed
    decreases |ss|
  {
    hide Agrees, CachedOne, PlainOne;
    if ss != [] {
      OneAgrees(m, pc, ss[0], now, every, stamp, rs[0]);
      var one := CachedOne(m, pc, ss[0], now, every, stamp, rs[0]);
      if !one.failed { LoopAgrees(one.to, pc, ss[1..], now, every, stamp, rs[1..]); }
    }
  }

  datatype Op =
    | Push(pc: string, sessions: seq<Session>, now: int, stamp: string, results: seq<WriteResult>)
    | Delete(pc: string, id: string, r: WriteResult)
    | DeletePC(pc: string, g: Gone)

  predicate WellFormed(op: Op) {
    IsDocId(op.pc) && (op.Push? ==> |op.results| == |op.sessions|)
  }

  /** What a call leaves and reports, with the cache and without. */
  function WithCache(m: Mem, op: Op, every: int): Pushed<Mem>
    requires WellFormed(op)
  {
    match op
    case Push(pc, ss, now, stamp, rs) => CachedPush(m, pc, ss, now, every, stamp, rs)
    case Delete(pc, id, r) => Pushed(DeletedSession(m, pc, id, r), 0, id != "" && r.Err?)
    case DeletePC(pc, g) => Pushed(DeletedPC(m, pc, g), 0, pc != "" && g.wake.Err?)
  }

  function Without(store: Store, op: Op): Pushed<Store>
    requires WellFormed(op)
  {
    match op
    case Push(pc, ss, now, stamp, rs) => PlainPush(store, pc, ss, stamp, rs)
    case Delete(pc, id, r) => Pushed(WithoutSession(store, pc, id, r), 0, id != "" && r.Err?)
    case DeletePC(pc, g) => Pushed(DeletedDocs(store, pc, g), 0, pc != "" && g.wake.Err?)
  }

  /** What the calls of a run report. */
  datatype Report = Report(changed: nat, failed: bool)

  function RunWith(m: Mem, ops: seq<Op>, every: int): (Mem, seq<Report>)
    requires forall op :: op in ops ==> WellFormed(op)
    decreases |ops|
  {
    if ops == [] then (m, [])
    else
      var one := WithCache(m, ops[0], every);
      var rest := RunWith(one.to, ops[1..], every);
      (rest.0, [Report(one.changed, one.failed)] + rest.1)
  }

  function RunWithout(store: Store, ops: seq<Op>): (Store, seq<Report>)
    requires forall op :: op in ops ==> WellFormed(op)
    decreases |ops|
  {
    if ops == [] then (store, [])
    else
      var one := Without(store, ops[0]);
      var rest := RunWithout(one.to, ops[1..]);
      (rest.0, [Report(one.changed, one.failed)] + rest.1)
  }

  lemma DeleteAgrees(m: Mem, op: Op, every: int)
    requires Agrees(m) && WellFormed(op) && !op.Push?
    ensures Agrees(WithCache(m, op, every).to) && WithCache(m, op, every).to.store == Without(m.store, op).to
  {
    var m' := WithCache(m, op, every).to;
    forall pc, id | IsDocId(pc) && CacheKey(pc, id) in m'.entries ensures EntryAgrees(m', pc, id) {
      assert EntryAgrees(m, pc, id);
      CacheKeyOfPC(op.pc, pc, id);
    }
  }

  lemma OpAgrees(m: Mem, op: Op, every: int)
    requires Agrees(m) && WellFormed(op)
    ensures var c := WithCache(m, op, every);
            var p := Without(m.store, op);
            Agrees(c.to) && c.to.store == p.to && c.changed == p.changed && c.failed == p.failed
  {
    hide DeletedSession, DeletedPC, DeletedDocs;
    if op.Push? {
      LoopAgrees(m, op.pc, op.sessions, op.now, every, op.stamp, op.results);
      SameEntries(CachedLoop(m, op.pc, op.sessions, op.now, every, op.stamp, op.results).to, op.pc, op.stamp);
    } else {
      DeleteAgrees(m, op, every);
    }
  }

  lemma SameEntries(m: Mem, pc: string, stamp: string)
    requires Agrees(m)
    ensures Agrees(m.(store := WithParent(m.store, pc, stamp)))
  {
    var m' := m.(store := WithParent(m.store, pc, stamp));
    forall pc', id | IsDocId(pc') && CacheKey(pc', id) in m'.entries ensures EntryAgrees(m', pc', id) {
      assert EntryAgrees(m, pc', id);
    }
  }

  /** Main result: over any run of pushes and own deletes, on any clock, for any verification interval
      and however writes and deletes fail, the cached client leaves the very documents, and reports the
      very counts and errors, of the form that reads every document every time. */
  lemma {:induction false} CacheIsInvisible(m: Mem, ops: seq<Op>, every: int)
    requires Agrees(m) && forall op :: op in ops ==> WellFormed(op)
    ensures Agrees(RunWith(m, ops, every).0)
    ensures RunWith(m, ops, every).0.store == RunWithout(m.store, ops).0
    ensures RunWith(m, ops, every).1 == RunWithout(m.store, ops).1
    decreases |ops|
  {
    hide Agrees, WithCache, Without;
    if ops != [] {
      OpAgrees(m, ops[0], every);
      CacheIsInvisible(WithCache(m, ops[0], every).to, ops[1..], every);
    }
  }

  /** With a slash in a PC id the keys of two documents can meet, and the cache then speaks for both. */
  lemma SlashBreaksKeys()
    ensures CacheKey("a/b", "c") == CacheKey("a", "b/c")
  {
    assert "a/b" + "/" + "c" == "a" + "/" + "b/c";
  }

  // ----- How late an outside deletion is noticed -----

  /** Since an outside writer removed the document at time t, the cache does not vouch for it with a
      verification later than t, unless the document has been written again. */
  ghost predicate KnowsSince(m: Mem, pc: string, id: string, t: int) {
    CacheKey(pc, id) in m.entries ==>
      m.entries[CacheKey(pc, id)].verifiedAt <= t || EntryAgrees(m, pc, id)
  }

  lemma OneKnows(m: Mem, pc: string, s: Session, now: int, every: int, stamp: string, r: WriteResult,
                 pc': string, id: string, t: int)
    requires KnowsSince(m, pc', id, t) && IsDocId(pc) && IsDocId(pc')
    ensures KnowsSince(CachedOne(m, pc, s, now, every, stamp, r).to, pc', id, t)
  {
    hide SessionKey;
    if CacheKey(pc, SessionKey(s)) == CacheKey(pc', id) { CacheKeyInjective(pc, SessionKey(s), pc', id); }
  }

  lemma {:induction false} LoopKnows(m: Mem, pc: string, ss: seq<Session>, now: int, every: int, stamp: string,
                                     rs: seq<WriteResult>, pc': string, id: string, t: int)
    requires KnowsSince(m, pc', id, t) && IsDocId(pc) && IsDocId(pc') && |rs| == |ss|
    ensures KnowsSince(CachedLoop(m, pc, ss, now, every, stamp, rs).to, pc', id, t)
    decreases |ss|
  {
    hide KnowsSince, CachedOne;
    if ss != [] {
      OneKnows(m, pc, ss[0], now, every, stamp, rs[0], pc', id, t);
      var one := CachedOne(m, pc, ss[0], now, every, stamp, rs[0]);
      if !one.failed { LoopKnows(one.to, pc, ss[1..], now, every, stamp, rs[1..], pc', id, t); }
    }
  }

  lemma OpKnows(m: Mem, op: Op, every: int, pc: string, id: string, t: int)
    requires KnowsSince(m, pc, id, t) && WellFormed(op) && IsDocId(pc)
    ensures KnowsSince(WithCache(m, op, every).to, pc, id, t)
  {
    if op.Push? {
      hide CachedLoop;
      LoopKnows(m, op.pc, op.sessions, op.now, every, op.stamp, op.results, pc, id, t);
    } else {
      CacheKeyOfPC(op.pc, pc, id);
      if op.Delete? && CacheKey(op.pc, op.id) == CacheKey(pc, id) { CacheKeyInjective(op.pc, op.id, pc, id); }
    }
  }

  lemma {:induction false} RunKnows(m: Mem, ops: seq<Op>, every: int, pc: string, id: string, t: int)
    requires KnowsSince(m, pc, id, t) && IsDocId(pc) && forall op :: op in ops ==> WellFormed(op)
    ensures KnowsSince(RunWith(m, ops, every).0, pc, id, t)
    decreases |ops|
  {
    hide KnowsSince, WithCache;
    if ops != [] {
      OpKnows(m, ops[0], every, pc, id, t);
      RunKnows(WithCache(m, ops[0], every).to, ops[1..], every, pc, id, t);
    }
  }

  /** The document of s is stored with the content of s. */
  predicate Stored(m: Mem, pc: string, s: Session) {
    (pc, SessionKey(s)) in m.store.docs && m.store.docs[(pc, SessionKey(s))].contentHash == ContentHash(s)
  }

  lemma OneRecreates(m: Mem, pc: string, s: Session, now: int, every: int, stamp: string, r: WriteResult, t: int)
    requires IsDocId(pc) && KnowsSince(m, pc, SessionKey(s), t) && now >= t + every
    requires !CachedOne(m, pc, s, now, every, stamp, r).failed
    ensures Stored(CachedOne(m, pc, s, now, every, stamp, r).to, pc, s)
  {
    hide SessionKey;
  }

  lemma OneKeepsStored(m: Mem, pc: string, s: Session, now: int, every: int, stamp: string, r: WriteResult, u: Session)
    requires Stored(m, pc, u) && SessionKey(u) != SessionKey(s)
    ensures Stored(CachedOne(m, pc, s, now, every, stamp, r).to, pc, u)
  {
    hide SessionKey;
  }

  lemma {:induction false} LoopKeepsStored(m: Mem, pc: string, ss: seq<Session>, now: int, every: int, stamp: string,
                                           rs: seq<WriteResult>, u: Session)
    requires |rs| == |ss| && Stored(m, pc, u) && forall s :: s in ss ==> SessionKey(s) != SessionKey(u)
    ensures Stored(CachedLoop(m, pc, ss, now, every, stamp, rs).to, pc, u)
    decreases |ss|
  {
    hide Stored, CachedOne, SessionKey;
    if ss != [] {
      OneKeepsStored(m, pc, ss[0], now, every, stamp, rs[0], u);
      var one := CachedOne(m, pc, ss[0], now, every, stamp, rs[0]);
      if !one.failed { LoopKeepsStored(one.to, pc, ss[1..], now, every, stamp, rs[1..], u); }
    }
  }

  lemma {:induction false} LoopRecreates(m: Mem, pc: string, ss: seq<Session>, now: int, every: int, stamp: string,
                                         rs: seq<WriteResult>, i: nat, t: int)
    requires |rs| == |ss| && IsDocId(pc) && i < |ss| && KnowsSince(m, pc, SessionKey(ss[i]), t) && now >= t + every
    requires forall j :: i < j < |ss| ==> SessionKey(ss[j]) != SessionKey(ss[i])
    requires !CachedLoop(m, pc, ss, now, every, stamp, rs).failed
    ensures Stored(CachedLoop(m, pc, ss, now, every, stamp, rs).to, pc, ss[i])
    decreases |ss|
  {
    hide Stored, CachedOne, KnowsSince, SessionKey;
    var one := CachedOne(m, pc, ss[0], now, every, stamp, rs[0]);
    if i == 0 {
      OneRecreates(m, pc, ss[0], now, every, stamp, rs[0], t);
      assert forall s :: s in ss[1..] ==> exists j :: 0 < j < |ss| && ss[j] == s;
      LoopKeepsStored(one.to, pc, ss[1..], now, every, stamp, rs[1..], ss[0]);
    } else {
      OneKnows(m, pc, ss[0], now, every, stamp, rs[0], pc, SessionKey(ss[i]), t);
      LoopRecreates(one.to, pc, ss[1..], now, every, stamp, rs[1..], i - 1, t);
    }
  }

  /** Whatever the cache and the store say: with a session last verified no later than t, and whatever
      pushes and own deletes follow, a push of it at t + every or later that reports no error leaves its
      document stored with the pushed content. */
  lemma {:induction false} StoredAfterInterval(m: Mem, ops: seq<Op>, last: Op, every: int, i: nat, t: int)
    requires last.Push? && WellFormed(last) && i < |last.sessions| && last.now >= t + every
    requires forall op :: op in ops ==> WellFormed(op)
    requires var ck := CacheKey(last.pc, SessionKey(last.sessions[i]));
             ck in m.entries ==> m.entries[ck].verifiedAt <= t
    requires forall j :: i < j < |last.sessions| ==> SessionKey(last.sessions[j]) != SessionKey(last.sessions[i])
    requires !WithCache(RunWith(m, ops, every).0, last, every).failed
    ensures Stored(WithCache(RunWith(m, ops, every).0, last, every).to, last.pc, last.sessions[i])
  {
    hide CachedLoop, RunWith, SessionKey;
    RunKnows(m, ops, every, last.pc, SessionKey(last.sessions[i]), t);
    LoopRecreates(RunWith(m, ops, every).0, last.pc, last.sessions, last.now, every, last.stamp, last.results, i, t);
  }

  /** Bounded staleness: an outside writer removes a document at time t, when the cache's last look at
      it was no later. Whatever pushes and own deletes follow, a push of that session at t + every or
      later that reports no error leaves the document stored with the pushed content. */
  lemma {:induction false} OutsideDeletionIsNoticed(m: Mem, ops: seq<Op>, last: Op, every: int, i: nat, t: int)
    requires last.Push? && WellFormed(last) && i < |last.sessions| && last.now >= t + every
    requires forall op :: op in ops ==> WellFormed(op)
    requires var ck := CacheKey(last.pc, SessionKey(last.sessions[i]));
             ck in m.entries ==> m.entries[ck].verifiedAt <= t
    requires forall j :: i < j < |last.sessions| ==> SessionKey(last.sessions[j]) != SessionKey(last.sessions[i])
    requires var gone := m.(store := m.store.(docs := m.store.docs - {(last.pc, SessionKey(last.sessions[i]))}));
             !WithCache(RunWith(gone, ops, every).0, last, every).failed
    ensures var gone := m.(store := m.store.(docs := m.store.docs - {(last.pc, SessionKey(last.sessions[i]))}));
            Stored(WithCache(RunWith(gone, ops, every).0, last, every).to, last.pc, last.sessions[i])
  {
    hide CachedLoop, RunWith, SessionKey, WithCache, Stored;
    var gone := m.(store := m.store.(docs := m.store.docs - {(last.pc, SessionKey(last.sessions[i]))}));
    StoredAfterInterval(gone, ops, last, every, i, t);
  }

  /** The bound is exact: within the interval an unchanged session is not even looked at. */
  lemma WithinTheIntervalNobodyLooks(m: Mem, pc: string, s: Session, now: int, every: int, stamp: string,
                                     r: WriteResult)
    requires CacheKey(pc, SessionKey(s)) in m.entries
    requires var e := m.entries[CacheKey(pc, SessionKey(s))]; e.hash == ContentHash(s) && now < e.verifiedAt + every
    ensures CachedPush(m, pc, [s], now, every, stamp, [r]) == Pushed(m, 0, false)
  {
    assert [s][1..] == [] && [r][1..] == [];
    var rest := CachedLoop(m, pc, [], now, every, stamp, []);
    assert rest == Pushed(m, 0, false);
  }

  // ----- How many reads it costs -----

  /** An upper bound on `every` times the reads of s from its push at `now` on, if nothing is pushed
      after `end`. */
  function Ahead(m: Mem, pc: string, s: Session, now: int, every: int, end: int): int
  {
    var ck := CacheKey(pc, SessionKey(s));
    if Hit(m.entries, ck, ContentHash(s), now, every) then end - m.entries[ck].verifiedAt
    else every + end - now
  }

  function AheadAll(m: Mem, pc: string, ss: seq<Session>, now: int, every: int, end: int): int
  {
    if ss == [] then 0
    else Ahead(m, pc, ss[0], now, every, end) + AheadAll(m, pc, ss[1..], now, every, end)
  }

  predicate Distinct(ss: seq<Session>) {
    forall i, j :: 0 <= i < j < |ss| ==> SessionKey(ss[i]) != SessionKey(ss[j])
  }

  /** No entry comes from the future. */
  predicate NotAhead(m: Mem, now: int) {
    forall k :: k in m.entries ==> m.entries[k].verifiedAt <= now
  }

  lemma Distribute(e: int, a: int, b: int)
    ensures e * (a + b) == e * a + e * b
  {}

  /** One session's push pays for its read out of the bound. */
  lemma OnePays(m: Mem, pc: string, s: Session, now: int, every: int, stamp: string, now': int, end: int)
    requires every > 0 && now <= now' <= end && NotAhead(m, now)
    ensures var c := CachedOne(m, pc, s, now, every, stamp, Ok);
            m.gets <= c.to.gets <= m.gets + 1 && !c.failed && NotAhead(c.to, now) &&
            (if c.to.gets > m.gets then every else 0) + Ahead(c.to, pc, s, now', every, end)
            <= Ahead(m, pc, s, now, every, end)
  {
    hide SessionKey;
  }

  lemma OneLeavesOthers(m: Mem, pc: string, s: Session, now: int, every: int, stamp: string, u: Session)
    requires IsDocId(pc) && SessionKey(u) != SessionKey(s)
    ensures var m' := CachedOne(m, pc, s, now, every, stamp, Ok).to; var k := CacheKey(pc, SessionKey(u));
            (k in m'.entries) == (k in m.entries) && (k in m.entries ==> m'.entries[k] == m.entries[k])
  {
    hide SessionKey;
    if CacheKey(pc, SessionKey(s)) == CacheKey(pc, SessionKey(u)) {
      CacheKeyInjective(pc, SessionKey(s), pc, SessionKey(u));
    }
  }

  lemma {:induction false} AheadAllSame(m: Mem, m': Mem, pc: string, ss: seq<Session>, now: int, every: int, end: int)
    requires forall u :: u in ss ==> var k := CacheKey(pc, SessionKey(u));
               (k in m'.entries) == (k in m.entries) && (k in m.entries ==> m'.entries[k] == m.entries[k])
    ensures AheadAll(m', pc, ss, now, every, end) == AheadAll(m, pc, ss, now, every, end)
    decreases |ss|
  {
    hide SessionKey, CacheKey;
    if ss != [] {
      assert ss[0] in ss;
      AheadAllSame(m, m', pc, ss[1..], now, every, end);
    }
  }

  lemma {:induction false} LoopLeavesOthers(m: Mem, pc: string, ss: seq<Session>, now: int, every: int, stamp: string,
                                            rs: seq<WriteResult>, u: Session)
    requires IsDocId(pc) && |rs| == |ss| && (forall r :: r in rs ==> r == Ok)
    requires forall s :: s in ss ==> SessionKey(s) != SessionKey(u)
    ensures var m' := CachedLoop(m, pc, ss, now, every, stamp, rs).to; var k := CacheKey(pc, SessionKey(u));
            (k in m'.entries) == (k in m.entries) && (k in m.entries ==> m'.entries[k] == m.entries[k])
    decreases |ss|
  {
    hide CachedOne, SessionKey, CacheKey;
    if ss != [] {
      assert rs[0] in rs && ss[0] in ss;
      OneLeavesOthers(m, pc, ss[0], now, every, stamp, u);
      var one := CachedOne(m, pc, ss[0], now, every, stamp, rs[0]);
      assert forall r :: r in rs[1..] ==> r in rs;
      if !one.failed { LoopLeavesOthers(one.to, pc, ss[1..], now, every, stamp, rs[1..], u); }
    }
  }

  /** A whole push pays for its reads out of the bound. */
  lemma {:induction false} LoopPays(m: Mem, pc: string, ss: seq<Session>, now: int, every: int, stamp: string,
                                    rs: seq<WriteResult>, now': int, end: int)
    requires every > 0 && now <= now' <= end && NotAhead(m, now) && IsDocId(pc) && Distinct(ss)
    requires |rs| == |ss| && forall r :: r in rs ==> r == Ok
    ensures var c := CachedLoop(m, pc, ss, now, every, stamp, rs);
            !c.failed && NotAhead(c.to, now) && c.to.gets >= m.gets &&
            every * (c.to.gets - m.gets) + AheadAll(c.to, pc, ss, now', every, end)
            <= AheadAll(m, pc, ss, now, every, end)
    decreases |ss|
  {
    hide CachedOne, SessionKey, CacheKey, Ahead, NotAhead;
    if ss != [] {
      assert rs[0] == Ok by { assert rs[0] in rs; }
      var s := ss[0];
      OnePays(m, pc, s, now, every, stamp, now', end);
      var one := CachedOne(m, pc, s, now, every, stamp, Ok);
      forall u | u in ss[1..] ensures SessionKey(u) != SessionKey(s) {
        var j :| 0 <= j < |ss[1..]| && ss[1..][j] == u;
        assert ss[j + 1] == u;
      }
      forall u | u in ss[1..] { OneLeavesOthers(m, pc, s, now, every, stamp, u); }
      AheadAllSame(m, one.to, pc, ss[1..], now, every, end);
      DistinctRest(ss);
      assert forall r :: r in rs[1..] ==> r in rs;
      LoopPays(one.to, pc, ss[1..], now, every, stamp, rs[1..], now', end);
      LoopLeavesOthers(one.to, pc, ss[1..], now, every, stamp, rs[1..], s);
      var to := CachedLoop(one.to, pc, ss[1..], now, every, stamp, rs[1..]).to;
      SameAhead(one.to, to, pc, s, now', every, end);
      Distribute(every, to.gets - one.to.gets, one.to.gets - m.gets);
      assert every * (one.to.gets - m.gets) == if one.to.gets > m.gets then every else 0;
    }
  }

  lemma SameAhead(m: Mem, m': Mem, pc: string, s: Session, now: int, every: int, end: int)
    requires var k := CacheKey(pc, SessionKey(s));
             (k in m'.entries) == (k in m.entries) && (k in m.entries ==> m'.entries[k] == m.entries[k])
    ensures Ahead(m', pc, s, now, every, end) == Ahead(m, pc, s, now, every, end)
  {
    hide SessionKey, CacheKey;
  }

  lemma DistinctRest(ss: seq<Session>)
    requires Distinct(ss) && ss != []
    ensures Distinct(ss[1..])
  {
    forall i, j | 0 <= i < j < |ss[1..]| ensures SessionKey(ss[1..][i]) != SessionKey(ss[1..][j]) {
      assert ss[1..][i] == ss[i + 1] && ss[1..][j] == ss[j + 1];
    }
  }

  /** Pushing the same sessions at each of these times, every write answered Ok. */
  function Repeated(m: Mem, pc: string, ss: seq<Session>, times: seq<int>, every: int, stamp: string): Mem
    decreases |times|
  {
    if times == [] then m
    else
      var to := CachedPush(m, pc, ss, times[0], every, stamp, seq(|ss|, _ => Ok)).to;
      Repeated(to, pc, ss, times[1..], every, stamp)
  }

  predicate Ascending(times: seq<int>) { forall i, j :: 0 <= i < j < |times| ==> times[i] <= times[j] }

  lemma {:induction false} RepeatedPays(m: Mem, pc: string, ss: seq<Session>, times: seq<int>, every: int,
                                        stamp: string)
    requires every > 0 && IsDocId(pc) && Distinct(ss) && Ascending(times) && times != [] && NotAhead(m, times[0])
    ensures every * (Repeated(m, pc, ss, times, every, stamp).gets - m.gets)
            <= AheadAll(m, pc, ss, times[0], every, times[|times| - 1])
    decreases |times|
  {
    hide CachedLoop, Distinct;
    var rs := seq(|ss|, _ => Ok);
    var now, end := times[0], times[|times| - 1];
    var now' := if |times| > 1 then times[1] else end;
    LoopPays(m, pc, ss, now, every, stamp, rs, now', end);
    var to := CachedPush(m, pc, ss, now, every, stamp, rs).to;
    var loop := CachedLoop(m, pc, ss, now, every, stamp, rs).to;
    AheadAllSame(loop, to, pc, ss, now', every, end);
    if |times| > 1 {
      RepeatedPays(to, pc, ss, times[1..], every, stamp);
      Distribute(every, Repeated(to, pc, ss, times[1..], every, stamp).gets - to.gets, to.gets - m.gets);
    } else {
      AheadAllPositive(to, pc, ss, now, every);
    }
  }

  lemma {:induction false} AheadAllPositive(m: Mem, pc: string, ss: seq<Session>, end: int, every: int)
    requires every > 0 && NotAhead(m, end)
    ensures AheadAll(m, pc, ss, end, every, end) >= 0
    decreases |ss|
  {
    hide SessionKey, CacheKey;
    if ss != [] { AheadAllPositive(m, pc, ss[1..], end, every); }
  }

  lemma {:induction false} AheadAllBound(m: Mem, pc: string, ss: seq<Session>, now: int, every: int, end: int)
    requires every > 0 && now <= end
    ensures AheadAll(m, pc, ss, now, every, end) <= |ss| * (every + end - now)
    decreases |ss|
  {
    hide SessionKey, CacheKey;
    if ss != [] {
      AheadAllBound(m, pc, ss[1..], now, every, end);
      Distribute(every + end - now, |ss| - 1, 1);
    }
  }

  /** Bounded cost: n sessions with unchanged content, pushed at any times over a span T, cost at most
      n * (1 + T / every) reads, whatever was in the cache before (stated times `every`). */
  lemma {:induction false} ReadsAreBounded(m: Mem, pc: string, ss: seq<Session>, times: seq<int>, every: int,
                                           stamp: string)
    requires every > 0 && IsDocId(pc) && Distinct(ss) && Ascending(times) && times != [] && NotAhead(m, times[0])
    ensures every * (Repeated(m, pc, ss, times, every, stamp).gets - m.gets)
            <= |ss| * (every + times[|times| - 1] - times[0])
  {
    hide Repeated, AheadAll, Distinct;
    RepeatedPays(m, pc, ss, times, every, stamp);
    AheadAllBound(m, pc, ss, times[0], every, times[|times| - 1]);
  }

  lemma {:induction false} UnknownReads(m: Mem, pc: string, ss: seq<Session>, now: int, every: int, stamp: string,
                                        rs: seq<WriteResult>)
    requires IsDocId(pc) && Distinct(ss) && |rs| == |ss| && forall r :: r in rs ==> r == Ok
    requires forall s :: s in ss ==> CacheKey(pc, SessionKey(s)) !in m.entries
    ensures CachedLoop(m, pc, ss, now, every, stamp, rs).to.gets == m.gets + |ss|
    decreases |ss|
  {
    hide SessionKey, CacheKey, Distinct;
    if ss != [] {
      assert rs[0] in rs && ss[0] in ss;
      var one := CachedOne(m, pc, ss[0], now, every, stamp, rs[0]);
      forall u | u in ss[1..] ensures CacheKey(pc, SessionKey(u)) !in one.to.entries {
        assert u in ss && SessionKey(u) != SessionKey(ss[0]) by {
          var j :| 0 <= j < |ss[1..]| && ss[1..][j] == u;
          assert ss[j + 1] == u;
          KeysApart(ss, j + 1);
        }
        OneLeavesOthers(m, pc, ss[0], now, every, stamp, u);
      }
      DistinctRest(ss);
      assert forall r :: r in rs[1..] ==> r in rs;
      UnknownReads(one.to, pc, ss[1..], now, every, stamp, rs[1..]);
    }
  }

  lemma KeysApart(ss: seq<Session>, j: nat)
    requires Distinct(ss) && 0 < j < |ss|
    ensures SessionKey(ss[j]) != SessionKey(ss[0])
  {}

  /** The bound is reached: a client that has pushed nothing yet reads every session once. */
  lemma {:induction false} FirstPushReadsAll(store: Store, pc: string, ss: seq<Session>, t: int, every: int,
                                             stamp: string)
    requires IsDocId(pc) && Distinct(ss)
    ensures Repeated(Mem(store, map[], 0), pc, ss, [t], every, stamp).gets == |ss|
  {
    hide CachedLoop, Distinct;
    UnknownReads(Mem(store, map[], 0), pc, ss, t, every, stamp, seq(|ss|, _ => Ok));
    assert [t][1..] == [];
    assert forall m: Mem :: Repeated(m, pc, ss, [], every, stamp) == m;
  }
}
