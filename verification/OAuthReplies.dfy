/** Who gets tokens, and which: the answers of the token endpoint over every reachable state, in terms of
    the code as it was issued and the refresh token as it is stored. */
module OAuthReplies {
  import opened Basics
  import opened OAuth
  import opened OAuthRuns

  // ----- Codes -----

  /** The code that a request presents is stored, and can be read. */
  predicate Presented(w: World, q: Request)
    requires q.WithCode?
  {
    q.e.readable && Hash(q.code) in w.st.codes
  }

  /** The requester is who asked for the code, in time: the verifier is the one whose challenge the code was
      issued for, and the redirect URI, if given, is the code's. */
  predicate Proves(c: Code, q: Request)
    requires q.WithCode?
  {
    && q.verifier != "" && c.challenge == S256(q.verifier)
    && (q.redirectURI == "" || q.redirectURI == c.redirectURI)
    && q.now <= c.expires
  }

  predicate MakesTokens(e: Env) { e.randomOk && e.makeAccess == Ok && e.makeRefresh == Ok }

  /** A verifier is accepted just for the S256 challenge made of it, and never when empty. */
  lemma PkceMeans(c: Challenge, verifier: string)
    ensures PkceVerify(c, verifier) <==> verifier != "" && c == S256(verifier)
  {}

  /** A code pays out if and only if it is presented with proof and the pair can be made. */
  lemma CodePaysIff(w: World, q: Request)
    requires Reachable(w) && q.WithCode? && Enabled(w, q)
    ensures Presented(w, q) ==> Hash(q.code) in w.issued
    ensures ReplyTo(w, q).Issued? <==>
            q.code != "" && Presented(w, q) && Proves(w.issued[Hash(q.code)], q) && MakesTokens(q.e)
  {
    hide OneLive, Counted;
    ReachableSound(w);
  }

  /** The refusals: an incomplete request, and one without a stored code or without proof; the rest are
      failures of the server. */
  lemma CodeRefusals(w: World, q: Request)
    requires Reachable(w) && q.WithCode? && Enabled(w, q)
    ensures Presented(w, q) ==> Hash(q.code) in w.issued
    ensures ReplyTo(w, q) == InvalidRequest <==> q.code == "" || q.verifier == ""
    ensures ReplyTo(w, q) == InvalidGrant <==>
            q.code != "" && q.verifier != "" && !(Presented(w, q) && Proves(w.issued[Hash(q.code)], q))
  {
    hide OneLive, Counted;
    ReachableSound(w);
  }

  /** A complete request spends its code whatever the answer, if the delete lands; and without proof it
      makes no token. */
  lemma CodeIsSpentAnyway(w: World, q: Request)
    requires Reachable(w) && q.WithCode? && Enabled(w, q) && q.code != "" && q.verifier != "" && Presented(w, q)
    ensures q.e.deleteLands ==> Do(w, q).st.codes == w.st.codes - {Hash(q.code)}
    ensures Hash(q.code) in w.issued
    ensures !Proves(w.issued[Hash(q.code)], q) ==> Do(w, q).st.tokens == w.st.tokens
  {
    hide OneLive, Counted;
    ReachableSound(w);
  }

  // ----- The tokens of a pair -----

  /** An hour, or a quarter of an hour for an administrator's scopes. */
  function AccessSeconds(scopes: seq<string>): int { if "drover.admin" in scopes then 15 * 60 else 60 * 60 }

  const NANOS := 1_000_000_000

  function AccessToken(email: string, clientID: string, scopes: seq<string>, family: string, now: int): Token {
    Token(Access, email, clientID, scopes, now + AccessSeconds(scopes) * NANOS, family, false)
  }

  /** A month of 30 days. */
  function RefreshToken(email: string, clientID: string, scopes: seq<string>, family: string, now: int): Token {
    Token(Refresh, email, clientID, scopes, now + 30 * 24 * 60 * 60 * NANOS, family, false)
  }

  /** A code that pays out makes just two tokens, with what it granted, in a family of their own, and the
      answer carries both and the access token's life in seconds. */
  lemma CodeMakesPair(w: World, q: Request)
    requires Reachable(w) && q.WithCode? && Enabled(w, q) && ReplyTo(w, q).Issued?
    ensures Hash(q.code) in w.issued
    ensures var c := w.issued[Hash(q.code)];
            && ReplyTo(w, q) == Issued(q.e.access, q.e.refresh, AccessSeconds(c.scopes))
            && Do(w, q).st.tokens == w.st.tokens
                 [Hash(q.e.access) := AccessToken(c.email, c.clientID, c.scopes, q.e.family, q.now)]
                 [Hash(q.e.refresh) := RefreshToken(c.email, c.clientID, c.scopes, q.e.family, q.now)]
  {
    hide OneLive, Counted;
    ReachableSound(w);
  }

  // ----- Refresh tokens -----

  /** The request presents a refresh token that is stored, in time, and not rotated away. */
  predicate Refreshable(w: World, q: Request)
    requires q.WithRefresh?
  {
    && q.raw != "" && q.e.readable && Hash(q.raw) in w.st.tokens
    && w.st.tokens[Hash(q.raw)].kind == Refresh
    && !w.st.tokens[Hash(q.raw)].superseded
    && q.now <= w.st.tokens[Hash(q.raw)].expires
  }

  lemma RefreshPaysIff(w: World, q: Request)
    requires q.WithRefresh? && Enabled(w, q)
    ensures ReplyTo(w, q).Issued? <==> Refreshable(w, q) && q.e.mark == Ok && MakesTokens(q.e)
    ensures ReplyTo(w, q) == InvalidRequest <==> q.raw == ""
    ensures ReplyTo(w, q) == InvalidGrant <==> q.raw != "" && !Refreshable(w, q)
  {}

  /** A refresh that pays out rotates: the old token is marked and two new ones continue its family. */
  lemma RefreshRotates(w: World, q: Request)
    requires Reachable(w) && q.WithRefresh? && Enabled(w, q) && ReplyTo(w, q).Issued?
    ensures Hash(q.raw) in w.st.tokens
    ensures var t := w.st.tokens[Hash(q.raw)];
            && ReplyTo(w, q) == Issued(q.e.access, q.e.refresh, AccessSeconds(t.scopes))
            && Do(w, q).st.tokens == w.st.tokens
                 [Hash(q.raw) := t.(superseded := true)]
                 [Hash(q.e.access) := AccessToken(t.email, t.clientID, t.scopes, t.family, q.now)]
                 [Hash(q.e.refresh) := RefreshToken(t.email, t.clientID, t.scopes, t.family, q.now)]
  {
    hide OneLive, Counted;
    ReachableSound(w);
    assert TokenLinked(w, Hash(q.raw));
  }

  /** A refused refresh that is no reuse changes nothing. */
  lemma RefusedRefreshChangesNothing(w: World, q: Request)
    requires q.WithRefresh? && Enabled(w, q) && !Refreshable(w, q) && !IsReuse(w.st, q.raw, q.e)
    ensures Do(w, q).st == w.st
  {}

  /** A refresh token that has been rotated away takes down its family and nothing else: every other token
      and every code stays as it is, and no token of the family is left unless a delete of one fails. */
  lemma ReuseTakesFamilyDown(w: World, q: Request, h: Hash)
    requires q.WithRefresh? && Enabled(w, q) && q.raw != "" && q.e.readable && Hash(q.raw) in w.st.tokens
    requires w.st.tokens[Hash(q.raw)].kind == Refresh && w.st.tokens[Hash(q.raw)].superseded
    ensures var family := w.st.tokens[Hash(q.raw)].family;
            var (before, after) := (w.st.tokens, Do(w, q).st.tokens);
            && ReplyTo(w, q) == InvalidGrant && Do(w, q).st.codes == w.st.codes
            && (h in after ==> h in before && after[h] == before[h])
            && (h in before && (before[h].family != family || h in q.e.stuck) ==> h in after)
            && ((forall g :: g in before && before[g].family == family ==> g !in q.e.stuck) ==>
                  h in after ==> after[h].family != family)
  {}

  /** The token that a refresh has rotated away validates no more, at any time. */
  lemma RotatedIsRefused(w: World, q: Request, now: int)
    requires Reachable(w) && q.WithRefresh? && Enabled(w, q) && ReplyTo(w, q).Issued?
    ensures !Validates(Do(w, q).st, Hash(q.raw), now)
  {
    RefreshRotates(w, q);
    hide OneLive, Counted;
    ReachableSound(w);
    assert TokenLinked(w, Hash(q.raw));
  }

  // ----- Their use -----

  /** An access token made for a code validates just until it expires, and no longer. */
  lemma AccessValidatesUntilExpiry(w: World, q: Request, now: int)
    requires Reachable(w) && q.WithCode? && Enabled(w, q) && ReplyTo(w, q).Issued?
    ensures Hash(q.code) in w.issued
    ensures Validates(Do(w, q).st, Hash(q.e.access), now)
            <==> now <= q.now + AccessSeconds(w.issued[Hash(q.code)].scopes) * NANOS
  {
    CodeMakesPair(w, q);
  }

  /** A token that is unlinked, or removed when its time is over, never validates again; all others stay. */
  lemma UnlinkedForGood(w: World, codes: set<Hash>, tokens: set<Hash>, qs: seq<Request>, h: Hash, now: int)
    requires Reachable(w) && h in w.st.tokens
    ensures h in tokens ==> !Validates(Run(Next(w, Cleanup(codes, tokens)), qs).st, h, now)
    ensures var after := Next(w, Cleanup(codes, tokens)).st.tokens;
            h !in tokens ==> h in after && after[h] == w.st.tokens[h]
  {
    hide OneLive, Counted, Run;
    ReachableSound(w);
    assert TokenLinked(w, h);
    if h in tokens { SpentForever(Next(w, Cleanup(codes, tokens)), qs, h); }
  }

  // ----- The log -----

  /** What the log records of a code request: a use when it gets as far as making tokens, and a code kept when
      its delete fails. */
  lemma LogMeans(w: World, q: Request)
    requires Reachable(w) && q.WithCode? && Enabled(w, q)
    ensures Presented(w, q) ==> Hash(q.code) in w.issued
    ensures var uses := q.code != "" && Presented(w, q) && Proves(w.issued[Hash(q.code)], q) && q.e.randomOk;
            var keeps := q.code != "" && q.verifier != "" && Presented(w, q) && !q.e.deleteLands;
            Do(w, q).log == w.log + (if uses then [Started(Hash(q.code), q.e.family)] else [])
                                  + (if keeps then [KeptCode(Hash(q.code))] else [])
  {
    hide OneLive, Counted;
    ReachableSound(w);
  }
}
