/** Token families over every sequential run of requests: single use of codes, one live refresh token
    per family, and revocation that lasts. */
module OAuthRuns {
  import opened Basics
  import opened OAuth

  /** The code a family comes from, and what it granted. */
  datatype Origin = Origin(code: Hash, data: Code)

  /** Started: a code was exchanged, a family begun. Kept: a code was looked up and its delete failed. */
  datatype Event = Started(code: Hash, family: string) | KeptCode(code: Hash)

  /** The store, with what has happened so far: every family, code and token secret ever made. */
  datatype World = World(st: Store, families: map<string, Origin>, issued: map<Hash, Code>, secrets: set<Hash>,
                         log: seq<Event>)

  const START := World(Store(map[], map[]), map[], map[], {}, [])

  datatype Request =
    | Authorize(h: Hash, data: Code)
    | WithCode(code: string, verifier: string, redirectURI: string, now: int, e: Env)
    | WithRefresh(raw: string, now: int, e: Env, removed: set<Hash>)
    | Cleanup(codesGone: set<Hash>, tokensGone: set<Hash>)    // TTL deletion, or one token unlinked

  /** Random values have never been used before. */
  predicate Fresh(w: World, e: Env) {
    e.family != "" && e.family !in w.families && e.access != e.refresh &&
    Hash(e.access) !in w.secrets && Hash(e.refresh) !in w.secrets
  }

  predicate Enabled(w: World, q: Request) {
    match q
    case Authorize(h, _) => h !in w.issued
    case WithCode(_, _, _, _, e) => Fresh(w, e)
    case WithRefresh(raw, _, e, removed) =>
      Fresh(w, e) && (IsReuse(w.st, raw, e) ==> RevocationOf(w.st.tokens, w.st.tokens[Hash(raw)].family, e, removed))
    case Cleanup(_, _) => true
  }

  /** The code that this request exchanges, if it gets as far as making tokens. */
  function Exchanges(w: World, q: Request): Option<Code> {
    if q.WithCode? && q.code != "" && q.verifier != "" && q.e.randomOk then
      var (oc, _) := Consumed(w.st.codes, Hash(q.code), q.now, q.e);
      if oc.Some? && CodeMatches(oc.value, q.verifier, q.redirectURI) then oc else None
    else None
  }

  predicate KeepsCode(w: World, q: Request) {
    q.WithCode? && q.code != "" && q.verifier != "" && q.e.readable && Hash(q.code) in w.st.codes && !q.e.deleteLands
  }

  function ReplyTo(w: World, q: Request): Reply
    requires q.WithCode? || q.WithRefresh?
  {
    if q.WithCode? then CodeGrant(w.st, q.code, q.verifier, q.redirectURI, q.now, q.e).0
    else RefreshGrant(w.st, q.raw, q.now, q.e, q.removed).0
  }

  function Do(w: World, q: Request): World {
    match q
    case Authorize(h, code) => w.(st := w.st.(codes := w.st.codes[h := code]), issued := w.issued[h := code])
    case WithCode(code, verifier, redirectURI, now, e) =>
      var x := Exchanges(w, q);
      var st := CodeGrant(w.st, code, verifier, redirectURI, now, e).1;
      World(st,
            if x.Some? then w.families[e.family := Origin(Hash(code), x.value)] else w.families,
            w.issued, w.secrets + {Hash(e.access), Hash(e.refresh)},
            w.log + (if x.Some? then [Started(Hash(code), e.family)] else [])
                  + (if KeepsCode(w, q) then [KeptCode(Hash(code))] else []))
    case WithRefresh(raw, now, e, removed) =>
      w.(st := RefreshGrant(w.st, raw, now, e, removed).1, secrets := w.secrets + {Hash(e.access), Hash(e.refresh)})
    case Cleanup(codesGone, tokensGone) =>
      w.(st := Store(w.st.codes - codesGone, w.st.tokens - tokensGone))
  }

  function Next(w: World, q: Request): World { if Enabled(w, q) then Do(w, q) else w }

  function Run(w: World, qs: seq<Request>): World
    decreases |qs|
  {
    if qs == [] then w else Run(Next(w, qs[0]), qs[1..])
  }

  // ----- The invariants -----

  predicate TokenLinked(w: World, h: Hash)
    requires h in w.st.tokens
  {
    var t := w.st.tokens[h];
    h in w.secrets && t.family != "" && t.family in w.families && (t.superseded ==> t.kind == Refresh) &&
    var d := w.families[t.family].data;
    t.email == d.email && t.clientID == d.clientID && t.scopes == d.scopes
  }

  /** Every token shares email, client and scopes with the code its family comes from. */
  ghost predicate Linked(w: World) {
    && (forall h :: h in w.st.tokens ==> TokenLinked(w, h))
    && (forall h :: h in w.st.codes ==> h in w.issued && w.issued[h] == w.st.codes[h])
    && (forall f :: f in w.families ==>
          w.families[f].code in w.issued && w.issued[w.families[f].code] == w.families[f].data)
  }

  predicate IsLive(st: Store, h: Hash, family: string) {
    h in st.tokens && st.tokens[h].kind == Refresh && !st.tokens[h].superseded && st.tokens[h].family == family
  }

  /** A family has at most one refresh token that has not been rotated away. */
  ghost predicate OneLive(st: Store) {
    forall h, h', f :: IsLive(st, h, f) && IsLive(st, h', f) ==> h == h'
  }

  function Starts(log: seq<Event>, h: Hash): nat {
    if log == [] then 0
    else Starts(log[..|log| - 1], h) + if log[|log| - 1].Started? && log[|log| - 1].code == h then 1 else 0
  }

  function Keeps(log: seq<Event>, h: Hash): nat {
    if log == [] then 0
    else Keeps(log[..|log| - 1], h) + if log[|log| - 1] == KeptCode(h) then 1 else 0
  }

  /** A code that is still there has an exchange left; each one spent was paid for by a delete or not. */
  predicate CodeCounted(w: World, h: Hash) {
    Starts(w.log, h) + (if h in w.st.codes then 1 else 0)
    <= (if h in w.issued then 1 else 0) + Keeps(w.log, h)
  }

  ghost predicate Counted(w: World) {
    forall h :: CodeCounted(w, h) && (h !in w.issued ==> Keeps(w.log, h) == 0)
  }

  ghost predicate Sound(w: World) { Linked(w) && OneLive(w.st) && Counted(w) }

  lemma LogStep(log: seq<Event>, ev: Event, h: Hash)
    ensures Starts(log + [ev], h) == Starts(log, h) + if ev.Started? && ev.code == h then 1 else 0
    ensures Keeps(log + [ev], h) == Keeps(log, h) + if ev == KeptCode(h) then 1 else 0
  {
    assert (log + [ev])[..|log|] == log;
  }

  // ----- Tokens -----

  predicate Granted(t: Token, email: string, clientID: string, scopes: seq<string>, family: string) {
    t.email == email && t.clientID == clientID && t.scopes == scopes && t.family == family && !t.superseded
  }

  /** The tokens after a pair: the old ones, and at most two new ones with the grant's data. */
  lemma PairTokens(st: Store, email: string, clientID: string, scopes: seq<string>, family: string, now: int, e: Env,
                   h: Hash)
    requires h in IssuedPair(st, email, clientID, scopes, family, now, e).1.tokens
    ensures var t := IssuedPair(st, email, clientID, scopes, family, now, e).1.tokens[h];
            || (h in st.tokens && t == st.tokens[h])
            || (e.randomOk && (h == Hash(e.access) || h == Hash(e.refresh)) &&
                Granted(t, email, clientID, scopes, if family == "" then e.family else family))
  {}

  lemma LinkedCode(w: World, q: Request, h: Hash)
    requires Linked(w) && q.WithCode? && Enabled(w, q) && h in Do(w, q).st.tokens
    ensures TokenLinked(Do(w, q), h)
  {
    hide IssuedPair, CodeMatches;
    if h in w.st.tokens { assert TokenLinked(w, h); }
    var (oc, codes) := Consumed(w.st.codes, Hash(q.code), q.now, q.e);
    if q.code != "" && q.verifier != "" && oc.Some? && CodeMatches(oc.value, q.verifier, q.redirectURI) {
      PairTokens(w.st.(codes := codes), oc.value.email, oc.value.clientID, oc.value.scopes, "", q.now, q.e, h);
    }
  }

  lemma LinkedCodes(w: World, q: Request)
    requires Linked(w) && q.WithCode? && Enabled(w, q)
    ensures Linked(Do(w, q))
  {
    hide IssuedPair, CodeMatches, TokenLinked;
    forall h | h in Do(w, q).st.tokens ensures TokenLinked(Do(w, q), h) { LinkedCode(w, q, h); }
    CodesAfter(w, q);
  }

  lemma LinkedRefresh(w: World, q: Request, h: Hash)
    requires Linked(w) && q.WithRefresh? && Enabled(w, q) && h in Do(w, q).st.tokens
    ensures TokenLinked(Do(w, q), h)
  {
    hide IssuedPair;
    var k := Hash(q.raw);
    if h in w.st.tokens { assert TokenLinked(w, h); }
    if k in w.st.tokens {
      assert TokenLinked(w, k);
      var t := w.st.tokens[k];
      if q.raw != "" && q.e.readable && t.kind == Refresh && !t.superseded && q.now <= t.expires && q.e.mark == Ok {
        var st1 := w.st.(tokens := Marked(w.st.tokens, k, q.e.mark));
        PairTokens(st1, t.email, t.clientID, t.scopes, t.family, q.now, q.e, h);
      }
    }
  }

  lemma RefreshKeepsHistory(w: World, q: Request)
    requires q.WithRefresh?
    ensures Do(w, q).families == w.families && Do(w, q).issued == w.issued && Do(w, q).log == w.log
  {}

  /** Neither a code's exchange nor a refresh touches the codes otherwise. */
  lemma RefreshKeepsCodes(w: World, q: Request)
    requires q.WithRefresh?
    ensures Do(w, q).st.codes == w.st.codes
  {}

  lemma LinkedStep(w: World, q: Request)
    requires Linked(w) && Enabled(w, q)
    ensures Linked(Do(w, q))
  {
    if q.WithCode? {
      LinkedCodes(w, q);
    } else if q.WithRefresh? {
      hide Do, TokenLinked;
      RefreshKeepsCodes(w, q);
      RefreshKeepsHistory(w, q);
      forall h | h in Do(w, q).st.tokens ensures TokenLinked(Do(w, q), h) { LinkedRefresh(w, q, h); }
    } else {
      hide CodeGrant, RefreshGrant, Exchanges;
      forall h | h in Do(w, q).st.tokens ensures TokenLinked(Do(w, q), h) { assert TokenLinked(w, h); }
    }
  }

  ghost predicate NoLive(st: Store, family: string) { forall h :: !IsLive(st, h, family) }

  /** A pair issued to a family without a live refresh token leaves it with at most one. */
  lemma PairLive(st: Store, email: string, clientID: string, scopes: seq<string>, family: string, now: int, e: Env)
    requires OneLive(st) && e.access != e.refresh
    requires Hash(e.access) !in st.tokens && Hash(e.refresh) !in st.tokens
    requires NoLive(st, if family == "" then e.family else family)
    ensures OneLive(IssuedPair(st, email, clientID, scopes, family, now, e).1)
  {
    var st' := IssuedPair(st, email, clientID, scopes, family, now, e).1;
    forall h, f | IsLive(st', h, f) ensures h == Hash(e.refresh) || IsLive(st, h, f) {}
  }

  lemma LiveCode(w: World, q: Request)
    requires Linked(w) && OneLive(w.st) && q.WithCode? && Enabled(w, q)
    ensures OneLive(Do(w, q).st)
  {
    hide IssuedPair, OneLive;
    var st1 := w.st.(codes := Consumed(w.st.codes, Hash(q.code), q.now, q.e).1);
    SameTokensLive(w.st, st1);
    assert forall h :: h in w.st.tokens ==> TokenLinked(w, h);
    var oc := Consumed(w.st.codes, Hash(q.code), q.now, q.e).0;
    if oc.Some? { PairLive(st1, oc.value.email, oc.value.clientID, oc.value.scopes, "", q.now, q.e); }
  }

  lemma SameTokensLive(st: Store, st': Store)
    requires OneLive(st) && st'.tokens == st.tokens
    ensures OneLive(st')
  {
    assert forall h, f :: IsLive(st', h, f) ==> IsLive(st, h, f);
  }

  lemma FewerTokensLive(st: Store, st': Store)
    requires OneLive(st)
    requires forall h :: h in st'.tokens ==>
               h in st.tokens && (st'.tokens[h] == st.tokens[h] || st'.tokens[h].superseded)
    ensures OneLive(st')
  {
    forall h, f | IsLive(st', h, f) ensures IsLive(st, h, f) {}
  }

  lemma LiveRefresh(w: World, q: Request)
    requires Linked(w) && OneLive(w.st) && q.WithRefresh? && Enabled(w, q)
    ensures OneLive(Do(w, q).st)
  {
    hide IssuedPair, OneLive;
    var h := Hash(q.raw);
    assert forall k :: k in w.st.tokens ==> TokenLinked(w, k);
    FewerTokensLive(w.st, w.st.(tokens := w.st.tokens - q.removed));
    var st1 := w.st.(tokens := Marked(w.st.tokens, h, q.e.mark));
    if h in w.st.tokens { FewerTokensLive(w.st, st1); }
    if h in w.st.tokens && w.st.tokens[h].kind == Refresh && !w.st.tokens[h].superseded && q.e.mark == Ok {
      var t := w.st.tokens[h];
      NoOtherLive(w.st, st1, h);
      PairLive(st1, t.email, t.clientID, t.scopes, t.family, q.now, q.e);
    }
  }

  lemma NoOtherLive(st: Store, st1: Store, h: Hash)
    requires OneLive(st) && h in st.tokens && IsLive(st, h, st.tokens[h].family)
    requires st1.tokens == Marked(st.tokens, h, Ok)
    ensures NoLive(st1, st.tokens[h].family)
  {
    forall k | IsLive(st1, k, st.tokens[h].family) ensures IsLive(st, k, st.tokens[h].family) {}
  }

  lemma LiveStep(w: World, q: Request)
    requires Linked(w) && OneLive(w.st) && Enabled(w, q)
    ensures OneLive(Do(w, q).st)
  {
    hide OneLive, CodeGrant, RefreshGrant, Exchanges, Linked;
    match q
    case Authorize(_, _) => SameTokensLive(w.st, Do(w, q).st);
    case WithCode(_, _, _, _, _) => LiveCode(w, q);
    case WithRefresh(_, _, _, _) => LiveRefresh(w, q);
    case Cleanup(_, _) => FewerTokensLive(w.st, Do(w, q).st);
  }

  // ----- Codes -----

  lemma CountedCode(w: World, q: Request)
    requires Linked(w) && Counted(w) && q.WithCode? && Enabled(w, q)
    ensures Counted(Do(w, q))
  {
    hide IssuedPair, Starts, Keeps, CodeMatches;
    var w' := Do(w, q);
    var x := Exchanges(w, q);
    var log1 := w.log + if x.Some? then [Started(Hash(q.code), q.e.family)] else [];
    CodesAfter(w, q);
    forall h ensures CodeCounted(w', h) && (h !in w'.issued ==> Keeps(w'.log, h) == 0) {
      assert CodeCounted(w, h);
      LogStep(w.log, Started(Hash(q.code), q.e.family), h);
      LogStep(log1, KeptCode(Hash(q.code)), h);
      assert w.log + [] == w.log && log1 + [] == log1;
    }
  }

  /** A request that looks a code up leaves it in the store only if the delete fails. */
  lemma CodesAfter(w: World, q: Request)
    requires q.WithCode?
    ensures Do(w, q).st.codes ==
            if q.code != "" && q.verifier != "" && q.e.readable && q.e.deleteLands then w.st.codes - {Hash(q.code)}
            else w.st.codes
  {
    assert Hash(q.code) !in w.st.codes ==> w.st.codes - {Hash(q.code)} == w.st.codes;
  }

  lemma CountedStep(w: World, q: Request)
    requires Linked(w) && Counted(w) && Enabled(w, q)
    ensures Counted(Do(w, q))
  {
    if q.WithCode? {
      CountedCode(w, q);
    } else {
      hide Starts, Keeps, IssuedPair;
      forall h ensures CodeCounted(Do(w, q), h) && (h !in Do(w, q).issued ==> Keeps(Do(w, q).log, h) == 0) {
        assert CodeCounted(w, h);
      }
    }
  }

  lemma {:induction false} RunSound(w: World, qs: seq<Request>)
    requires Sound(w)
    ensures Sound(Run(w, qs))
    decreases |qs|
  {
    hide Linked, OneLive, Counted, Do, Enabled;
    if qs != [] {
      if Enabled(w, qs[0]) {
        LinkedStep(w, qs[0]);
        LiveStep(w, qs[0]);
        CountedStep(w, qs[0]);
      }
      RunSound(Next(w, qs[0]), qs[1..]);
    }
  }

  ghost predicate Reachable(w: World) { exists qs :: w == Run(START, qs) }

  lemma ReachableSound(w: World)
    requires Reachable(w)
    ensures Sound(w)
  {
    hide Run;
    var qs :| w == Run(START, qs);
    RunSound(START, qs);
  }

  // ----- The theorems -----

  /** A code begins at most one family, plus one for each time its delete failed while it was presented. */
  lemma {:induction false} CodeUses(w: World, h: Hash)
    requires Reachable(w)
    ensures Starts(w.log, h) <= 1 + Keeps(w.log, h)
  {
    hide Linked, OneLive;
    ReachableSound(w);
    assert CodeCounted(w, h);
  }

  /** So a code whose deletes all land yields at most one token pair. */
  lemma {:induction false} CodeIsSingleUse(w: World, h: Hash)
    requires Reachable(w) && KeptCode(h) !in w.log
    ensures Starts(w.log, h) <= 1
  {
    CodeUses(w, h);
    NeverKept(w.log, h);
  }

  lemma {:induction false} NeverKept(log: seq<Event>, h: Hash)
    requires KeptCode(h) !in log
    ensures Keeps(log, h) == 0
  {
    if log != [] { NeverKept(log[..|log| - 1], h); }
  }

  /** A pair answered to a code request is the family the log records. */
  lemma PairsAreLogged(w: World, q: Request)
    requires q.WithCode? && Enabled(w, q) && ReplyTo(w, q).Issued?
    ensures Exchanges(w, q).Some? && Started(Hash(q.code), q.e.family) in Do(w, q).log
  {
    var log1 := w.log + [Started(Hash(q.code), q.e.family)];
    assert log1[|w.log|] == Started(Hash(q.code), q.e.family);
  }

  /** The condition is exact: a code presented again in time, with the right verifier, pays out again
      if and only if the delete of the first request failed. */
  lemma SecondUseIffDeleteFailed(w: World, q: Request, r: Request)
    requires Reachable(w) && q.WithCode? && Enabled(w, q) && Exchanges(w, q).Some?
    requires r.WithCode? && r.code == q.code && r.verifier == q.verifier && r.redirectURI == q.redirectURI
    requires Hash(q.code) in w.issued && r.now <= w.issued[Hash(q.code)].expires
    requires Enabled(Do(w, q), r) && r.e.randomOk && r.e.readable && r.e.makeAccess == Ok && r.e.makeRefresh == Ok
    ensures ReplyTo(Do(w, q), r).Issued? <==> !q.e.deleteLands
  {
    hide OneLive, Counted, CodeMatches;
    ReachableSound(w);
    CodesAfter(w, q);
    assert w.st.codes[Hash(q.code)] == w.issued[Hash(q.code)];
  }

  /** A request whose random values are these and whose store operations succeed, but for the code's delete. */
  function Serving(family: string, access: string, refresh: string, deleteLands: bool): Env {
    Env(true, family, access, refresh, true, deleteLands, Ok, Ok, Ok, {})
  }

  /** A run that pays one code out twice: its first delete does not land. */
  lemma KeptCodePaysTwice()
    ensures var data := Code("client", "owner", ["drover.read"], S256("verifier"), "", 10);
            var h := Hash("code");
            var first := WithCode("code", "verifier", "", 1, Serving("f1", "a1", "r1", false));
            var second := WithCode("code", "verifier", "", 2, Serving("f2", "a2", "r2", true));
            var w1 := Run(START, [Authorize(h, data), first]);
            ReplyTo(w1, second).Issued? &&
            Run(START, [Authorize(h, data), first, second]).log == [Started(h, "f1"), KeptCode(h), Started(h, "f2")]
  {
    var data := Code("client", "owner", ["drover.read"], S256("verifier"), "", 10);
    var q0 := Authorize(Hash("code"), data);
    var q1 := WithCode("code", "verifier", "", 1, Serving("f1", "a1", "r1", false));
    var q2 := WithCode("code", "verifier", "", 2, Serving("f2", "a2", "r2", true));
    var w0 := Next(START, q0);
    var w1 := Next(w0, q1);
    RunThree(START, q0, q1, q2);
    assert w0.st == Store(map[Hash("code") := data], map[]);
    assert w1.st.codes == w0.st.codes;
    assert w1.log == [Started(Hash("code"), "f1"), KeptCode(Hash("code"))];
  }

  lemma RunThree(w: World, a: Request, b: Request, c: Request)
    ensures Run(w, [a, b]) == Next(Next(w, a), b)
    ensures Run(w, [a, b, c]) == Next(Next(Next(w, a), b), c)
  {
    hide Do, Enabled;
    assert [a, b, c][1..] == [b, c] && [b, c][1..] == [c] && [c][1..] == [] && [a, b][1..] == [b] && [b][1..] == [];
    assert Run(w, [a, b, c]) == Run(Next(w, a), [b, c]);
    assert Run(Next(w, a), [b, c]) == Run(Next(Next(w, a), b), [c]);
    assert Run(w, [a, b]) == Run(Next(w, a), [b]);
  }

  /** All tokens of a family carry the email, client and scopes of the code it comes from. */
  lemma {:induction false} FamilySharesGrant(w: World, h: Hash)
    requires Reachable(w) && h in w.st.tokens
    ensures w.st.tokens[h].family in w.families && w.families[w.st.tokens[h].family].code in w.issued
    ensures var t := w.st.tokens[h];
            var c := w.issued[w.families[t.family].code];
            t.email == c.email && t.clientID == c.clientID && t.scopes == c.scopes
  {
    hide OneLive, Counted;
    ReachableSound(w);
    assert TokenLinked(w, h);
  }

  lemma {:induction false} OneLiveRefresh(w: World, h: Hash, h': Hash, family: string)
    requires Reachable(w) && IsLive(w.st, h, family) && IsLive(w.st, h', family)
    ensures h == h'
  {
    hide Linked, Counted;
    ReachableSound(w);
  }

  /** A family that has begun and has no token left. */
  predicate Empty(w: World, family: string) {
    family in w.families && forall h :: h in w.st.tokens ==> w.st.tokens[h].family != family
  }

  lemma EmptyStep(w: World, q: Request, family: string)
    requires Linked(w) && Empty(w, family) && Enabled(w, q)
    ensures Empty(Do(w, q), family)
  {
    hide IssuedPair, CodeMatches, Linked;
    forall h | h in Do(w, q).st.tokens ensures Do(w, q).st.tokens[h].family != family {
      if q.WithCode? {
        var (oc, codes) := Consumed(w.st.codes, Hash(q.code), q.now, q.e);
        if q.code != "" && q.verifier != "" && oc.Some? && CodeMatches(oc.value, q.verifier, q.redirectURI) {
          PairTokens(w.st.(codes := codes), oc.value.email, oc.value.clientID, oc.value.scopes, "", q.now, q.e, h);
        }
      } else if q.WithRefresh? {
        EmptyRefresh(w, q, family, h);
      }
    }
  }

  lemma EmptyRefresh(w: World, q: Request, family: string, h: Hash)
    requires Linked(w) && Empty(w, family) && Enabled(w, q) && q.WithRefresh? && h in Do(w, q).st.tokens
    ensures Do(w, q).st.tokens[h].family != family
  {
    hide IssuedPair;
    var k := Hash(q.raw);
    if k in w.st.tokens {
      assert TokenLinked(w, k);
      var t := w.st.tokens[k];
      if q.raw != "" && q.e.readable && t.kind == Refresh && !t.superseded && q.now <= t.expires && q.e.mark == Ok {
        var st1 := w.st.(tokens := Marked(w.st.tokens, k, q.e.mark));
        PairTokens(st1, t.email, t.clientID, t.scopes, t.family, q.now, q.e, h);
      }
    }
  }

  lemma {:induction false} EmptyForever(w: World, qs: seq<Request>, family: string)
    requires Sound(w) && Empty(w, family)
    ensures Empty(Run(w, qs), family)
    decreases |qs|
  {
    hide Linked, OneLive, Counted, Do, Enabled, Empty;
    if qs != [] {
      if Enabled(w, qs[0]) {
        EmptyStep(w, qs[0], family);
        LinkedStep(w, qs[0]);
        LiveStep(w, qs[0]);
        CountedStep(w, qs[0]);
      }
      EmptyForever(Next(w, qs[0]), qs[1..], family);
    }
  }

  /** A secret that has been used and is not, or no longer, in the store. */
  predicate Spent(w: World, h: Hash) { h in w.secrets && h !in w.st.tokens }

  lemma SpentStep(w: World, q: Request, h: Hash)
    requires Spent(w, h) && Enabled(w, q)
    ensures Spent(Do(w, q), h)
  {
    hide IssuedPair, CodeMatches;
    if h in Do(w, q).st.tokens && q.WithCode? {
      var (oc, codes) := Consumed(w.st.codes, Hash(q.code), q.now, q.e);
      if q.code != "" && q.verifier != "" && oc.Some? && CodeMatches(oc.value, q.verifier, q.redirectURI) {
        PairTokens(w.st.(codes := codes), oc.value.email, oc.value.clientID, oc.value.scopes, "", q.now, q.e, h);
      }
    }
    if h in Do(w, q).st.tokens && q.WithRefresh? {
      var k := Hash(q.raw);
      if q.raw != "" && q.e.readable && k in w.st.tokens && q.e.mark == Ok && !w.st.tokens[k].superseded {
        var t := w.st.tokens[k];
        if t.kind == Refresh && q.now <= t.expires {
          var st1 := w.st.(tokens := Marked(w.st.tokens, k, q.e.mark));
          PairTokens(st1, t.email, t.clientID, t.scopes, t.family, q.now, q.e, h);
        }
      }
    }
  }

  lemma {:induction false} SpentForever(w: World, qs: seq<Request>, h: Hash)
    requires Spent(w, h)
    ensures Spent(Run(w, qs), h)
    decreases |qs|
  {
    hide Do, Enabled, Spent;
    if qs != [] {
      if Enabled(w, qs[0]) { SpentStep(w, qs[0], h); }
      SpentForever(Next(w, qs[0]), qs[1..], h);
    }
  }

  /** Reuse detection: presenting a rotated refresh token yields no token, and if no delete of the
      revocation fails the family is empty at once and after every run of further requests; none of
      its tokens ever validates again. */
  lemma {:induction false} ReuseRevokesForGood(w: World, q: Request, qs: seq<Request>, h: Hash, now: int)
    requires Reachable(w) && q.WithRefresh? && Enabled(w, q) && IsReuse(w.st, q.raw, q.e)
    requires FamilyOf(w.st.tokens, w.st.tokens[Hash(q.raw)].family) * q.e.stuck == {}
    ensures ReplyTo(w, q) == InvalidGrant
    ensures Empty(Run(Do(w, q), qs), w.st.tokens[Hash(q.raw)].family)
    ensures h in FamilyOf(w.st.tokens, w.st.tokens[Hash(q.raw)].family) ==>
              !Validates(Run(Do(w, q), qs).st, h, now)
  {
    hide OneLive, Counted, Run;
    ReachableSound(w);
    assert TokenLinked(w, Hash(q.raw));
    LinkedStep(w, q);
    LiveStep(w, q);
    CountedStep(w, q);
    EmptyForever(Do(w, q), qs, w.st.tokens[Hash(q.raw)].family);
    if h in FamilyOf(w.st.tokens, w.st.tokens[Hash(q.raw)].family) {
      assert TokenLinked(w, h);
      SpentForever(Do(w, q), qs, h);
    }
  }
}
