/** oauth/token.go on the documents of state/oauth.go: authorization codes are exchanged once,
    refresh tokens rotate, and a reused refresh token takes its whole family down. */
module OAuth {
  import opened Basics

  /** Documents are stored under the sha256 of a secret, taken to be injective. */
  datatype Hash = Hash(of: string)

  /** The S256 challenge of a verifier (section 4.2 of RFC 7636), taken to be injective. */
  datatype Challenge = NoChallenge | S256(of: string)

  datatype Code = Code(clientID: string, email: string, scopes: seq<string>, challenge: Challenge,
                       redirectURI: string, expires: int)

  /** Unset in a document that a merging write has made. */
  datatype Kind = Access | Refresh | Unset

  datatype Token = Token(kind: Kind, email: string, clientID: string, scopes: seq<string>, expires: int,
                         family: string, superseded: bool)

  const BLANK := Token(Unset, "", "", [], 0, "", false)

  datatype Store = Store(codes: map<Hash, Code>, tokens: map<Hash, Token>)

  datatype Reply = Issued(access: string, refresh: string, expiresIn: int) | InvalidRequest | InvalidGrant | ServerError

  /** What the random source and the store answer while one request is served. */
  datatype Env = Env(
    randomOk: bool, family: string, access: string, refresh: string,
    readable: bool,          // the first read of the request succeeds
    deleteLands: bool,       // the code's delete, whose result is ignored
    mark: WriteResult, makeAccess: WriteResult, makeRefresh: WriteResult,
    stuck: set<Hash>)        // tokens whose delete fails during a revocation

  const SECOND := 1_000_000_000
  const HOUR := 3600 * SECOND
  const ADMIN_TTL := 900 * SECOND
  const REFRESH_TTL := 30 * 24 * HOUR

  function AccessTTL(scopes: seq<string>): int {
    if "drover.admin" in scopes then ADMIN_TTL else HOUR
  }

  method AccessTTLFor(scopes: seq<string>) returns (ttl: int)
    ensures ttl == AccessTTL(scopes)
  {
    for i := 0 to |scopes|
      invariant "drover.admin" !in scopes[..i]
    {
      if scopes[i] == "drover.admin" { return ADMIN_TTL; }
      assert scopes[..i + 1] == scopes[..i] + [scopes[i]];
    }
    assert scopes[..|scopes|] == scopes;
    return HOUR;
  }

  predicate PkceVerify(c: Challenge, verifier: string) {
    c.S256? && verifier != "" && c.of == verifier
  }

  // ----- What each store operation does -----

  /** The code, if it is there and in time; every attempt deletes it, if the delete lands. */
  function Consumed(codes: map<Hash, Code>, h: Hash, now: int, e: Env): (Option<Code>, map<Hash, Code>) {
    if !e.readable || h !in codes then (None, codes)
    else (if now > codes[h].expires then None else Some(codes[h]), if e.deleteLands then codes - {h} else codes)
  }

  function Put(tokens: map<Hash, Token>, h: Hash, t: Token, r: WriteResult): map<Hash, Token> {
    if r == Err(false) then tokens else tokens[h := t]
  }

  function Marked(tokens: map<Hash, Token>, h: Hash, r: WriteResult): map<Hash, Token> {
    if r == Err(false) then tokens
    else tokens[h := (if h in tokens then tokens[h] else BLANK).(superseded := true)]
  }

  function FamilyOf(tokens: map<Hash, Token>, family: string): set<Hash> {
    set h | h in tokens && tokens[h].family == family
  }

  // ----- What each grant does -----

  function NewToken(kind: Kind, email: string, clientID: string, scopes: seq<string>, expires: int,
                    family: string): Token {
    Token(kind, email, clientID, scopes, expires, family, false)
  }

  /** issueTokenPair: an access and a refresh token of one family, the access token first. */
  function IssuedPair(st: Store, email: string, clientID: string, scopes: seq<string>, family: string,
                      now: int, e: Env): (Reply, Store)
  {
    if !e.randomOk then (ServerError, st)
    else
      var f := if family == "" then e.family else family;
      var ttl := AccessTTL(scopes);
      var t1 := Put(st.tokens, Hash(e.access), NewToken(Access, email, clientID, scopes, now + ttl, f), e.makeAccess);
      if e.makeAccess.Err? then (ServerError, st.(tokens := t1))
      else
        var refresh := NewToken(Refresh, email, clientID, scopes, now + REFRESH_TTL, f);
        var t2 := Put(t1, Hash(e.refresh), refresh, e.makeRefresh);
        (if e.makeRefresh.Err? then ServerError else Issued(e.access, e.refresh, ttl / SECOND), st.(tokens := t2))
  }

  /** The code that a request may be exchanged for, once it has been consumed. */
  predicate CodeMatches(c: Code, verifier: string, redirectURI: string) {
    (redirectURI == "" || redirectURI == c.redirectURI) && PkceVerify(c.challenge, verifier)
  }

  function CodeGrant(st: Store, code: string, verifier: string, redirectURI: string, now: int, e: Env): (Reply, Store) {
    if code == "" || verifier == "" then (InvalidRequest, st)
    else
      var (oc, codes) := Consumed(st.codes, Hash(code), now, e);
      var st1 := st.(codes := codes);
      if oc == None || !CodeMatches(oc.value, verifier, redirectURI) then (InvalidGrant, st1)
      else IssuedPair(st1, oc.value.email, oc.value.clientID, oc.value.scopes, "", now, e)
  }

  function RefreshGrant(st: Store, raw: string, now: int, e: Env, removed: set<Hash>): (Reply, Store) {
    var h := Hash(raw);
    if raw == "" then (InvalidRequest, st)
    else if !e.readable || h !in st.tokens || st.tokens[h].kind != Refresh then (InvalidGrant, st)
    else
      var t := st.tokens[h];
      if t.superseded then (InvalidGrant, st.(tokens := st.tokens - removed))
      else if now > t.expires then (InvalidGrant, st)
      else
        var st1 := st.(tokens := Marked(st.tokens, h, e.mark));
        if e.mark.Err? then (ServerError, st1)
        else IssuedPair(st1, t.email, t.clientID, t.scopes, t.family, now, e)
  }

  /** A revocation deletes tokens of the family one by one and stops at the first that fails. */
  predicate RevocationOf(tokens: map<Hash, Token>, family: string, e: Env, removed: set<Hash>) {
    removed <= FamilyOf(tokens, family) - e.stuck &&
    (FamilyOf(tokens, family) * e.stuck == {} ==> removed == FamilyOf(tokens, family))
  }

  /** The request presents a refresh token that has been rotated away. */
  predicate IsReuse(st: Store, raw: string, e: Env) {
    raw != "" && e.readable && Hash(raw) in st.tokens && st.tokens[Hash(raw)].kind == Refresh &&
    st.tokens[Hash(raw)].superseded
  }

  /** GetOAuthToken: what a resource request with this token is allowed on. */
  predicate Validates(st: Store, h: Hash, now: int) {
    h in st.tokens && !st.tokens[h].superseded && now <= st.tokens[h].expires
  }

  // ----- The handlers as they are written -----

  class Server {
    var codes: map<Hash, Code>
    var tokens: map<Hash, Token>

    constructor ()
      ensures View() == Store(map[], map[])
    {
      codes, tokens := map[], map[];
    }

    function View(): Store reads this { Store(codes, tokens) }

    method ConsumeOAuthCode(h: Hash, now: int, e: Env) returns (oc: Option<Code>)
      modifies this`codes
      ensures (oc, codes) == Consumed(old(codes), h, now, e)
    {
      if !e.readable || h !in codes { return None; }
      var c := codes[h];
      if e.deleteLands { codes := codes - {h}; }
      if now > c.expires { return None; }
      return Some(c);
    }

    method CreateOAuthToken(h: Hash, t: Token, r: WriteResult) returns (failed: bool)
      modifies this`tokens
      ensures tokens == Put(old(tokens), h, t, r) && failed == r.Err?
    {
      if r != Err(false) { tokens := tokens[h := t]; }
      return r.Err?;
    }

    method MarkOAuthTokenSuperseded(h: Hash, r: WriteResult) returns (failed: bool)
      modifies this`tokens
      ensures tokens == Marked(old(tokens), h, r) && failed == r.Err?
    {
      if r != Err(false) {
        var t := if h in tokens then tokens[h] else BLANK;
        tokens := tokens[h := t.(superseded := true)];
      }
      return r.Err?;
    }

    method RevokeOAuthTokenFamily(family: string, e: Env) returns (failed: bool, removed: set<Hash>)
      modifies this`tokens
      ensures tokens == old(tokens) - removed && RevocationOf(old(tokens), family, e, removed)
      ensures !failed ==> removed == FamilyOf(old(tokens), family)
      ensures forall h :: h in old(tokens) && old(tokens)[h].family != family ==>
                h in tokens && tokens[h] == old(tokens)[h]
      ensures !failed ==> forall h :: h in tokens ==> tokens[h].family != family
    {
      var docs := FamilyOf(tokens, family);
      removed := {};
      while docs != {}
        invariant docs + removed == FamilyOf(old(tokens), family) && docs !! removed
        invariant removed !! e.stuck
        invariant tokens == old(tokens) - removed
      {
        var h :| h in docs;
        if h in e.stuck { return true, removed; }
        tokens := tokens - {h};
        removed := removed + {h};
        docs := docs - {h};
      }
      return false, removed;
    }

    method IssueTokenPair(email: string, clientID: string, scopes: seq<string>, family: string, now: int, e: Env)
      returns (r: Reply)
      modifies this`tokens
      ensures (r, View()) == IssuedPair(old(View()), email, clientID, scopes, family, now, e)
    {
      if !e.randomOk { return ServerError; }
      var f := if family == "" then e.family else family;
      var ttl := AccessTTLFor(scopes);
      var access := NewToken(Access, email, clientID, scopes, now + ttl, f);
      var failed := CreateOAuthToken(Hash(e.access), access, e.makeAccess);
      if failed { return ServerError; }
      var refresh := NewToken(Refresh, email, clientID, scopes, now + REFRESH_TTL, f);
      failed := CreateOAuthToken(Hash(e.refresh), refresh, e.makeRefresh);
      if failed { return ServerError; }
      return Issued(e.access, e.refresh, ttl / SECOND);
    }

    method TokenFromCode(code: string, verifier: string, redirectURI: string, now: int, e: Env) returns (r: Reply)
      modifies this
      ensures (r, View()) == CodeGrant(old(View()), code, verifier, redirectURI, now, e)
    {
      if code == "" || verifier == "" { return InvalidRequest; }
      var oc := ConsumeOAuthCode(Hash(code), now, e);
      if oc == None { return InvalidGrant; }
      if redirectURI != "" && redirectURI != oc.value.redirectURI { return InvalidGrant; }
      if !PkceVerify(oc.value.challenge, verifier) { return InvalidGrant; }
      r := IssueTokenPair(oc.value.email, oc.value.clientID, oc.value.scopes, "", now, e);
    }

    method TokenFromRefresh(raw: string, now: int, e: Env) returns (r: Reply, removed: set<Hash>)
      modifies this`tokens
      ensures (r, View()) == RefreshGrant(old(View()), raw, now, e, removed)
      ensures IsReuse(old(View()), raw, e) ==> RevocationOf(old(tokens), old(tokens)[Hash(raw)].family, e, removed)
    {
      removed := {};
      if raw == "" { return InvalidRequest, removed; }
      var h := Hash(raw);
      if !e.readable || h !in tokens || tokens[h].kind != Refresh { return InvalidGrant, removed; }
      var t := tokens[h];
      if t.superseded {
        var _, gone := RevokeOAuthTokenFamily(t.family, e);
        return InvalidGrant, gone;
      }
      if now > t.expires { return InvalidGrant, removed; }
      var failed := MarkOAuthTokenSuperseded(h, e.mark);
      if failed { return ServerError, removed; }
      r := IssueTokenPair(t.email, t.clientID, t.scopes, t.family, now, e);
    }
  }
}
