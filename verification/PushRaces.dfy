/** DeletePCByID forgets a PC's entries before it deletes the documents; pushes of the same process may
    come in between. */
module PushRaces {
  import opened Basics
  import opened PushCache
  import opened PushTheorems

  /** The cache has forgotten the PC. */
  function Forgotten(m: Mem, pc: string): Mem { m.(entries := EntriesWithout(m.entries, pc)) }

  /** A PC's deletion with these calls between its two halves: the memory before the second half. */
  function Between(m: Mem, pc: string, ops: seq<Op>, every: int): Mem
    requires forall op :: op in ops ==> WellFormed(op)
  {
    RunWith(Forgotten(m, pc), ops, every).0
  }

  function RacedDelete(m: Mem, pc: string, ops: seq<Op>, g: Gone, every: int): Mem
    requires forall op :: op in ops ==> WellFormed(op)
  {
    var b := Between(m, pc, ops, every);
    b.(store := DeletedDocs(b.store, pc, g))
  }

  lemma ForgottenAgrees(m: Mem, pc: string)
    requires Agrees(m)
    ensures Agrees(Forgotten(m, pc))
  {
    var f := Forgotten(m, pc);
    forall pc', id | IsDocId(pc') && CacheKey(pc', id) in f.entries ensures EntryAgrees(f, pc', id) {
      assert EntryAgrees(m, pc', id);
    }
  }

  /** A removed session that is in the cache. */
  predicate Stranded(b: Mem, pc: string, g: Gone, id: string) { id in g.sessions && CacheKey(pc, id) in b.entries }

  lemma DeletedAgreesIff(b: Mem, pc: string, g: Gone)
    requires Agrees(b) && IsDocId(pc) && pc != ""
    ensures Agrees(b.(store := DeletedDocs(b.store, pc, g))) <==> forall id :: !Stranded(b, pc, g, id)
  {
    hide CacheKey;
    var m := b.(store := DeletedDocs(b.store, pc, g));
    if Agrees(m) {
      forall id ensures !Stranded(b, pc, g, id) {
        if CacheKey(pc, id) in b.entries { assert EntryAgrees(m, pc, id); }
      }
    } else {
      var pc', id :| IsDocId(pc') && CacheKey(pc', id) in m.entries && !EntryAgrees(m, pc', id);
      assert EntryAgrees(b, pc', id);
      assert pc' == pc && Stranded(b, pc, g, id);
    }
  }

  /** Exactly when the deletion leaves the cache wrong: a session of that PC that the second half removed
      has been verified since the first. */
  lemma RacedDeleteAgreesIff(m: Mem, pc: string, ops: seq<Op>, g: Gone, every: int)
    requires Agrees(m) && IsDocId(pc) && pc != "" && forall op :: op in ops ==> WellFormed(op)
    ensures Agrees(RacedDelete(m, pc, ops, g, every)) <==>
            forall id :: !Stranded(Between(m, pc, ops, every), pc, g, id)
  {
    hide Agrees, RunWith, Stranded, DeletedDocs, Forgotten;
    ForgottenAgrees(m, pc);
    CacheIsInvisible(Forgotten(m, pc), ops, every);
    DeletedAgreesIff(Between(m, pc, ops, every), pc, g);
  }

  // ----- How long it lasts -----

  /** No entry of the PC was verified after t. */
  ghost predicate VerifiedBy(m: Mem, pc: string, t: int) {
    forall id :: CacheKey(pc, id) in m.entries ==> m.entries[CacheKey(pc, id)].verifiedAt <= t
  }

  lemma {:induction false} LoopVerifiedBy(m: Mem, at: string, ss: seq<Session>, now: int, every: int, stamp: string,
                                          rs: seq<WriteResult>, pc: string, t: int)
    requires VerifiedBy(m, pc, t) && now <= t && |rs| == |ss|
    ensures VerifiedBy(CachedLoop(m, at, ss, now, every, stamp, rs).to, pc, t)
    decreases |ss|
  {
    hide CacheKey, SessionKey;
    if ss != [] {
      var one := CachedOne(m, at, ss[0], now, every, stamp, rs[0]);
      assert VerifiedBy(one.to, pc, t);
      if !one.failed { LoopVerifiedBy(one.to, at, ss[1..], now, every, stamp, rs[1..], pc, t); }
    }
  }

  lemma OpVerifiedBy(m: Mem, op: Op, every: int, pc: string, t: int)
    requires VerifiedBy(m, pc, t) && WellFormed(op) && (op.Push? ==> op.now <= t)
    ensures VerifiedBy(WithCache(m, op, every).to, pc, t)
  {
    hide CacheKey, CachedLoop;
    if op.Push? { LoopVerifiedBy(m, op.pc, op.sessions, op.now, every, op.stamp, op.results, pc, t); }
  }

  lemma {:induction false} RunVerifiedBy(m: Mem, ops: seq<Op>, every: int, pc: string, t: int)
    requires VerifiedBy(m, pc, t)
    requires forall op :: op in ops ==> WellFormed(op) && (op.Push? ==> op.now <= t)
    ensures VerifiedBy(RunWith(m, ops, every).0, pc, t)
    decreases |ops|
  {
    hide VerifiedBy, WithCache;
    if ops != [] {
      OpVerifiedBy(m, ops[0], every, pc, t);
      RunVerifiedBy(WithCache(m, ops[0], every).to, ops[1..], every, pc, t);
    }
  }

  /** It lasts no longer than the interval: with the calls in between made by time t, a push of a session of
      that PC at t + every or later that reports no error leaves it stored, whatever comes before it. */
  lemma RacedDeletionIsNoticed(m: Mem, pc: string, mid: seq<Op>, g: Gone, ops: seq<Op>, last: Op, every: int, i: nat,
                               t: int)
    requires IsDocId(pc) && last.Push? && last.pc == pc && WellFormed(last)
    requires i < |last.sessions| && last.now >= t + every
    requires forall op :: op in mid ==> WellFormed(op) && (op.Push? ==> op.now <= t)
    requires forall op :: op in ops ==> WellFormed(op)
    requires forall j :: i < j < |last.sessions| ==> SessionKey(last.sessions[j]) != SessionKey(last.sessions[i])
    requires !WithCache(RunWith(RacedDelete(m, pc, mid, g, every), ops, every).0, last, every).failed
    ensures Stored(WithCache(RunWith(RacedDelete(m, pc, mid, g, every), ops, every).0, last, every).to,
                   pc, last.sessions[i])
  {
    hide RunWith, WithCache, Stored, SessionKey, DeletedDocs;
    NothingVerified(m, pc, t);
    RunVerifiedBy(Forgotten(m, pc), mid, every, pc, t);
    StoredAfterInterval(RacedDelete(m, pc, mid, g, every), ops, last, every, i, t);
  }

  lemma NotInForgotten(m: Mem, pc: string, id: string)
    ensures CacheKey(pc, id) !in Forgotten(m, pc).entries
  {
    assert pc + "/" <= CacheKey(pc, id);
  }

  lemma NothingVerified(m: Mem, pc: string, t: int)
    ensures VerifiedBy(Forgotten(m, pc), pc, t)
  {
    hide CacheKey, Forgotten;
    forall id ensures CacheKey(pc, id) !in Forgotten(m, pc).entries { NotInForgotten(m, pc, id); }
  }

  // ----- The run that shows it -----

  const EMPTY := Mem(Store(map[], map[], {}, {}), map[], 0)

  /** A session that is not in the cache is there after it has been pushed. */
  lemma PushOne(m: Mem, pc: string, s: Session, now: int, every: int)
    requires CacheKey(pc, SessionKey(s)) !in m.entries
    ensures var to := CachedPush(m, pc, [s], now, every, "", [Ok]).to;
            var ck := CacheKey(pc, SessionKey(s));
            ck in to.entries && to.entries[ck].hash == ContentHash(s) && to.entries[ck].verifiedAt == now
  {
    hide SessionKey, CacheKey, ContentHash;
    assert [s][1..] == [] && [Ok][1..] == [];
    var one := CachedOne(m, pc, s, now, every, "", Ok);
    assert CachedLoop(one.to, pc, [], now, every, "", []) == Pushed(one.to, 0, false);
  }

  /** A session pushed at 0, pushed again between the halves of its PC's deletion at 1, and once more at 2:
      its document is gone, and the last push neither looks nor writes. */
  lemma RacedDeletionLosesSession(pc: string, s: Session, every: int)
    requires IsDocId(pc) && pc != "" && every > 1
    ensures var m := CachedPush(EMPTY, pc, [s], 0, every, "", [Ok]).to;
            var mid := [Push(pc, [s], 1, "", [Ok])];
            var raced := RacedDelete(m, pc, mid, Gone({SessionKey(s)}, true, true, Ok), every);
            (pc, SessionKey(s)) !in raced.store.docs &&
            CachedPush(raced, pc, [s], 2, every, "", [Ok]) == Pushed(raced, 0, false)
  {
    hide SessionKey, CacheKey, Forgotten, CachedPush;
    var m := CachedPush(EMPTY, pc, [s], 0, every, "", [Ok]).to;
    var op := Push(pc, [s], 1, "", [Ok]);
    var f := Forgotten(m, pc);
    NotInForgotten(m, pc, SessionKey(s));
    PushOne(f, pc, s, 1, every);
    assert [op][1..] == [];
    var b := WithCache(f, op, every).to;
    assert RunWith(b, [], every).0 == b;
    var raced := RacedDelete(m, pc, [op], Gone({SessionKey(s)}, true, true, Ok), every);
    assert raced.entries == b.entries;
    WithinTheIntervalNobodyLooks(raced, pc, s, 2, every, "", Ok);
  }
}
