/** The two limiters: a token bucket per account and tool class (mcp/ratelimit.go) and a fixed window
    per client address (glasses/handler.go). Times are seconds; float64 is taken to be real. */
module KeyedCalls {
  import opened Basics

  /** One call of a limiter: its key, the limit of that key and the clock reading. */
  datatype Call = Call(key: string, limit: nat, now: real)

  /** What one call does to its key's entry, and whether it passes. */
  type Step<!S> = (nat, Option<S>, real) -> (S, bool)

  // ----- One key -----

  function After<S>(step: Step<S>, limit: nat, ts: seq<real>): Option<S> {
    if ts == [] then None else
    var m := |ts| - 1;
    Some(step(limit, After(step, limit, ts[..m]), ts[m]).0)
  }

  /** Whether the last of the calls at times ts passes. */
  predicate Passes<S>(step: Step<S>, limit: nat, ts: seq<real>)
    requires ts != []
  {
    var m := |ts| - 1;
    step(limit, After(step, limit, ts[..m]), ts[m]).1
  }

  /** How many of the calls from index a up to index b pass. */
  function Passed<S>(step: Step<S>, limit: nat, ts: seq<real>, a: nat, b: nat): (n: nat)
    requires a <= b <= |ts|
    ensures n <= b - a
  {
    if a == b then 0 else
    Passed(step, limit, ts, a, b - 1) + if Passes(step, limit, ts[..b]) then 1 else 0
  }

  /** How many of the first n calls are made between lo and hi and pass. */
  function PassedWithin<S>(step: Step<S>, limit: nat, ts: seq<real>, n: nat, lo: real, hi: real): nat
    requires n <= |ts|
  {
    if n == 0 then 0 else
    PassedWithin(step, limit, ts, n - 1, lo, hi) +
    if lo <= ts[n - 1] <= hi && Passes(step, limit, ts[..n]) then 1 else 0
  }

  predicate NonDecreasing(ts: seq<real>) {
    forall i, j :: 0 <= i <= j < |ts| ==> ts[i] <= ts[j]
  }

  lemma {:induction false} PassedWithinOfPrefix<S>(step: Step<S>, limit: nat, ts: seq<real>, k: nat, n: nat, lo: real,
                                                   hi: real)
    requires n <= k <= |ts|
    ensures PassedWithin(step, limit, ts[..k], n, lo, hi) == PassedWithin(step, limit, ts, n, lo, hi)
  {
    if n > 0 {
      PassedWithinOfPrefix(step, limit, ts, k, n - 1, lo, hi);
      assert ts[..k][..n] == ts[..n];
    }
  }

  lemma {:induction false} PassedSplits<S>(step: Step<S>, limit: nat, ts: seq<real>, a: nat, b: nat, c: nat)
    requires a <= b <= c <= |ts|
    ensures Passed(step, limit, ts, a, c) == Passed(step, limit, ts, a, b) + Passed(step, limit, ts, b, c)
  {
    if b < c { PassedSplits(step, limit, ts, a, b, c - 1); }
  }

  /** No two calls made between lo and hi, the second of which passes, have more than bound passes from
      the one to the other. */
  predicate Bounded<S>(step: Step<S>, limit: nat, ts: seq<real>, lo: real, hi: real, bound: real) {
    forall i, j :: 0 <= i <= j < |ts| && lo <= ts[i] <= hi && lo <= ts[j] <= hi && Passes(step, limit, ts[..j + 1])
      ==> Passed(step, limit, ts, i, j + 1) as real <= bound
  }

  lemma {:induction false} WithinAtMost<S>(step: Step<S>, limit: nat, ts: seq<real>, n: nat, lo: real, hi: real,
                                           bound: real)
    requires bound >= 0.0 && n <= |ts|
    requires Bounded(step, limit, ts, lo, hi, bound)
    ensures PassedWithin(step, limit, ts, n, lo, hi) as real <= bound
  {
    if n > 0 {
      if lo <= ts[n - 1] <= hi && Passes(step, limit, ts[..n]) {
        hide PassedWithin, Passed, Passes;
        var i := FirstWithin(step, limit, ts, n, lo, hi, n - 1);
        assert n - 1 + 1 == n;
      } else {
        WithinAtMost(step, limit, ts, n - 1, lo, hi, bound);
      }
    }
  }

  /** From the first call made between lo and hi on, at least as many pass as pass between lo and hi. */
  lemma {:induction false} FirstWithin<S>(step: Step<S>, limit: nat, ts: seq<real>, n: nat, lo: real, hi: real, k: nat)
    returns (i: nat)
    requires k < n <= |ts| && lo <= ts[k] <= hi
    ensures i < n && lo <= ts[i] <= hi
    ensures PassedWithin(step, limit, ts, n, lo, hi) <= Passed(step, limit, ts, i, n)
  {
    hide Passes;
    if j :| 0 <= j < n - 1 && lo <= ts[j] <= hi {
      i := FirstWithin(step, limit, ts, n - 1, lo, hi, j);
    } else {
      i := n - 1;
      NoneWithin(step, limit, ts, n - 1, lo, hi);
    }
  }

  lemma {:induction false} NoneWithin<S>(step: Step<S>, limit: nat, ts: seq<real>, n: nat, lo: real, hi: real)
    requires n <= |ts| && forall k :: 0 <= k < n ==> !(lo <= ts[k] <= hi)
    ensures PassedWithin(step, limit, ts, n, lo, hi) == 0
  {
    if n > 0 { NoneWithin(step, limit, ts, n - 1, lo, hi); }
  }

  // ----- All keys in one table -----

  function Get<S>(m: map<string, S>, key: string): Option<S> {
    if key in m then Some(m[key]) else None
  }

  /** The table after the calls. */
  function Table<S>(step: Step<S>, calls: seq<Call>): map<string, S> {
    if calls == [] then map[] else
    var m := |calls| - 1;
    var c := calls[m];
    var before := Table(step, calls[..m]);
    before[c.key := step(c.limit, Get(before, c.key), c.now).0]
  }

  /** The answer to the last of the calls. */
  predicate Reply<S>(step: Step<S>, calls: seq<Call>)
    requires calls != []
  {
    var m := |calls| - 1;
    step(calls[m].limit, Get(Table(step, calls[..m]), calls[m].key), calls[m].now).1
  }

  /** The times at which one key was called. */
  function Mine(calls: seq<Call>, key: string): seq<real> {
    if calls == [] then [] else
    var m := |calls| - 1;
    Mine(calls[..m], key) + if calls[m].key == key then [calls[m].now] else []
  }

  predicate OneLimit(calls: seq<Call>, key: string, limit: nat) {
    forall c :: c in calls && c.key == key ==> c.limit == limit
  }

  /** No other key's calls matter: a key's entry and every answer it gets are those of its calls alone. */
  lemma {:induction false} EachKeyAlone<S>(step: Step<S>, calls: seq<Call>, key: string, limit: nat)
    requires OneLimit(calls, key, limit)
    ensures Get(Table(step, calls), key) == After(step, limit, Mine(calls, key))
    ensures calls != [] && calls[|calls| - 1].key == key
            ==> Mine(calls, key) != [] && Reply(step, calls) == Passes(step, limit, Mine(calls, key))
  {
    if calls != [] {
      var m := |calls| - 1;
      EachKeyAlone(step, calls[..m], key, limit);
      if calls[m].key == key {
        assert calls[m] in calls;
        var mine := Mine(calls, key);
        assert mine[..|mine| - 1] == Mine(calls[..m], key);
      } else {
        assert Mine(calls, key) == Mine(calls[..m], key);
      }
    }
  }

  /** How many calls of one key between lo and hi pass, in a run of calls with any keys. */
  function RepliesWithin<S>(step: Step<S>, calls: seq<Call>, key: string, lo: real, hi: real): nat {
    if calls == [] then 0 else
    var m := |calls| - 1;
    RepliesWithin(step, calls[..m], key, lo, hi) +
    if calls[m].key == key && lo <= calls[m].now <= hi && Reply(step, calls) then 1 else 0
  }

  lemma {:induction false} RepliesArePasses<S>(step: Step<S>, calls: seq<Call>, key: string, limit: nat, lo: real,
                                               hi: real)
    requires OneLimit(calls, key, limit)
    ensures RepliesWithin(step, calls, key, lo, hi)
            == PassedWithin(step, limit, Mine(calls, key), |Mine(calls, key)|, lo, hi)
  {
    if calls != [] {
      var m := |calls| - 1;
      RepliesArePasses(step, calls[..m], key, limit, lo, hi);
      EachKeyAlone(step, calls, key, limit);
      if calls[m].key == key {
        var mine := Mine(calls, key);
        assert mine[..|mine| - 1] == Mine(calls[..m], key) && mine[..|mine|] == mine;
        PassedWithinOfPrefix(step, limit, mine, |mine| - 1, |mine| - 1, lo, hi);
      } else {
        assert Mine(calls, key) == Mine(calls[..m], key);
      }
    }
  }
}

/** mcp/ratelimit.go. */
module TokenBucket {
  import opened Basics
  import opened KeyedCalls

  datatype Bucket = Bucket(tokens: real, lastFill: real)

  /** Calls per minute of a rate class; an unknown class counts as read. */
  function LimitOf(rateClass: string): (limit: nat)
    ensures rateClass == "input" ==> limit == 20
    ensures rateClass == "control" ==> limit == 10
    ensures rateClass == "admin" ==> limit == 3
    ensures rateClass !in ["input", "control", "admin"] ==> limit == 60
  {
    match rateClass
    case "input" => 20
    case "control" => 10
    case "admin" => 3
    case _ => 60
  }

  function Key(email: string, rateClass: string): string { email + "|" + rateClass }

  function Refill(limit: nat, since: real, now: real): real { (now - since) * (limit as real / 60.0) }

  function Capped(limit: nat, tokens: real): real {
    if tokens > limit as real then limit as real else tokens
  }

  /** The tokens there are when a call looks. */
  function Found(limit: nat, e: Option<Bucket>, now: real): real {
    var b := if e.Some? then e.value else Bucket(limit as real, now);
    Capped(limit, b.tokens + Refill(limit, b.lastFill, now))
  }

  function Take(limit: nat, e: Option<Bucket>, now: real): (Bucket, bool) {
    var tokens := Found(limit, e, now);
    if tokens < 1.0 then (Bucket(tokens, now), false) else (Bucket(tokens - 1.0, now), true)
  }

  class Limiter {
    var buckets: map<string, Bucket>

    constructor ()
      ensures buckets == map[]
    {
      buckets := map[];
    }

    method Allow(email: string, rateClass: string, now: real) returns (ok: bool)
      modifies this
      ensures var r := Take(LimitOf(rateClass), Get(old(buckets), Key(email, rateClass)), now);
              ok == r.1 && buckets == old(buckets)[Key(email, rateClass) := r.0]
    {
      var limit := LimitOf(rateClass);
      var key := Key(email, rateClass);
      if key !in buckets { buckets := buckets[key := Bucket(limit as real, now)]; }
      var b := buckets[key];
      var elapsed := now - b.lastFill;
      var refill := elapsed * (limit as real / 60.0);
      assert refill == Refill(limit, b.lastFill, now);
      assert key !in old(buckets) ==> refill == 0.0 && Refill(limit, now, now) == 0.0;
      hide Refill;
      b := b.(tokens := b.tokens + refill);
      if b.tokens > limit as real { b := b.(tokens := limit as real); }
      b := b.(lastFill := now);
      if b.tokens < 1.0 {
        buckets := buckets[key := b];
        return false;
      }
      buckets := buckets[key := b.(tokens := b.tokens - 1.0)];
      return true;
    }
  }

  // ----- One bucket -----

  lemma RefillAdds(limit: nat, a: real, b: real, c: real)
    ensures Refill(limit, a, b) + Refill(limit, b, c) == Refill(limit, a, c)
  {
    var r := limit as real / 60.0;
    assert (b - a) * r + (c - b) * r == (c - a) * r;
  }

  lemma RefillGrows(limit: nat, a: real, b: real, length: real)
    requires b - a <= length
    ensures Refill(limit, a, b) <= length * (limit as real / 60.0)
  {
    var r := limit as real / 60.0;
    assert (length - (b - a)) * r >= 0.0;
    assert (length - (b - a)) * r == length * r - (b - a) * r;
  }

  /** The rate itself, counted from call i: what it still grants call j. */
  function Grant(limit: nat, ts: seq<real>, i: nat, j: nat): real
    requires i <= j < |ts|
  {
    limit as real + Refill(limit, ts[i], ts[j]) - Passed(Take, limit, ts, i, j) as real
  }

  /** The bucket holds the least that the rate grants, over every earlier call it may be counted from. */
  lemma {:induction false} FoundIsLeastGrant(limit: nat, ts: seq<real>, j: nat)
    requires j < |ts|
    ensures forall i :: 0 <= i <= j ==> Found(limit, After(Take, limit, ts[..j]), ts[j]) <= Grant(limit, ts, i, j)
    ensures exists i :: 0 <= i <= j && Found(limit, After(Take, limit, ts[..j]), ts[j]) == Grant(limit, ts, i, j)
  {
    hide Refill;
    assert Refill(limit, ts[j], ts[j]) == 0.0 by { RefillAdds(limit, ts[j], ts[j], ts[j]); }
    assert Grant(limit, ts, j, j) == limit as real;
    if j > 0 {
      FoundIsLeastGrant(limit, ts, j - 1);
      assert ts[..j][..j - 1] == ts[..j - 1];
      forall i | 0 <= i < j
        ensures Grant(limit, ts, i, j) == Grant(limit, ts, i, j - 1) + Refill(limit, ts[j - 1], ts[j])
                  - if Passes(Take, limit, ts[..j]) then 1.0 else 0.0
      {
        RefillAdds(limit, ts[i], ts[j - 1], ts[j]);
      }
      var k :| 0 <= k <= j - 1 &&
               Found(limit, After(Take, limit, ts[..j - 1]), ts[j - 1]) == Grant(limit, ts, k, j - 1);
      var w := if Grant(limit, ts, k, j) > limit as real then j else k;
      assert Found(limit, After(Take, limit, ts[..j]), ts[j]) == Grant(limit, ts, w, j);
    }
  }

  /** Letting call j through would be one too many for the time since call i. */
  predicate WouldExceed(limit: nat, ts: seq<real>, i: nat, j: nat)
    requires i <= j < |ts|
  {
    Passed(Take, limit, ts, i, j) as real + 1.0 > limit as real + Refill(limit, ts[i], ts[j])
  }

  /** Whatever the order of the clock readings: a call is refused just when letting it through would put
      more than limit + elapsed * limit / 60 calls after some earlier call. */
  lemma RefusedIffWouldExceed(limit: nat, ts: seq<real>, j: nat)
    requires j < |ts|
    ensures !Passes(Take, limit, ts[..j + 1]) <==> exists i :: 0 <= i <= j && WouldExceed(limit, ts, i, j)
  {
    hide Refill;
    FoundIsLeastGrant(limit, ts, j);
    assert ts[..j + 1][..j] == ts[..j];
    var k :| 0 <= k <= j && Found(limit, After(Take, limit, ts[..j]), ts[j]) == Grant(limit, ts, k, j);
    assert forall i :: 0 <= i <= j && WouldExceed(limit, ts, i, j) ==> Grant(limit, ts, i, j) < 1.0;
    assert Grant(limit, ts, k, j) < 1.0 ==> WouldExceed(limit, ts, k, j);
  }

  /** In any stretch of time, of any length, at most limit + length * limit / 60 calls of a bucket pass. */
  lemma AtMostTheRate(limit: nat, ts: seq<real>, lo: real, length: real)
    requires length >= 0.0
    ensures PassedWithin(Take, limit, ts, |ts|, lo, lo + length) as real
            <= limit as real + length * (limit as real / 60.0)
  {
    hide Refill;
    var bound := limit as real + length * (limit as real / 60.0);
    assert bound >= 0.0 by { RefillGrows(limit, 0.0, 0.0, length); RefillAdds(limit, 0.0, 0.0, 0.0); }
    forall i, j | 0 <= i <= j < |ts| && lo <= ts[i] <= lo + length && lo <= ts[j] <= lo + length &&
                  Passes(Take, limit, ts[..j + 1])
      ensures Passed(Take, limit, ts, i, j + 1) as real <= bound
    {
      RefusedIffWouldExceed(limit, ts, j);
      assert !WouldExceed(limit, ts, i, j);
      RefillGrows(limit, ts[i], ts[j], length);
    }
    WithinAtMost(Take, limit, ts, |ts|, lo, lo + length, bound);
  }

  // ----- Accounts and classes -----

  datatype ToolCall = ToolCall(email: string, rateClass: string, now: real)

  predicate NoBar(s: string) { '|' !in s }

  /** The names in use are such. */
  lemma ClassesHaveNoBar()
    ensures NoBar("read") && NoBar("input") && NoBar("control") && NoBar("admin")
  {}

  lemma LastBar(e: string, c: string)
    requires NoBar(c)
    ensures |e| < |Key(e, c)| && Key(e, c)[|e|] == '|'
    ensures forall i :: |e| < i < |Key(e, c)| ==> Key(e, c)[i] != '|'
  {
    assert forall i :: |e| < i < |Key(e, c)| ==> Key(e, c)[i] == c[i - |e| - 1];
  }

  lemma KeyInjective(e1: string, c1: string, e2: string, c2: string)
    requires NoBar(c1) && NoBar(c2) && Key(e1, c1) == Key(e2, c2)
    ensures e1 == e2 && c1 == c2
  {
    LastBar(e1, c1);
    LastBar(e2, c2);
    var k := Key(e1, c1);
    assert k[..|e1|] == e1 && k[|e1| + 1..] == c1;
    assert k[..|e2|] == e2 && k[|e2| + 1..] == c2;
  }

  function Keyed(calls: seq<ToolCall>): (ks: seq<Call>)
    ensures |ks| == |calls|
    ensures forall i :: 0 <= i < |ks| ==>
              ks[i] == Call(Key(calls[i].email, calls[i].rateClass), LimitOf(calls[i].rateClass), calls[i].now)
  {
    seq(|calls|, i requires 0 <= i < |calls| =>
      Call(Key(calls[i].email, calls[i].rateClass), LimitOf(calls[i].rateClass), calls[i].now))
  }

  /** Over any run with any accounts and any tools, whose classes have no bar in their names: one account's
      calls of one class that pass between lo and lo + length number at most limit + length * limit / 60. */
  lemma AccountAtMostTheRate(calls: seq<ToolCall>, email: string, rateClass: string, lo: real, length: real)
    requires length >= 0.0 && NoBar(rateClass)
    requires forall c :: c in calls ==> NoBar(c.rateClass)
    ensures var limit := LimitOf(rateClass);
            RepliesWithin(Take, Keyed(calls), Key(email, rateClass), lo, lo + length) as real
              <= limit as real + length * (limit as real / 60.0)
  {
    hide Keyed, Key, LimitOf, Mine, RepliesWithin, PassedWithin, OneLimit, NoBar;
    var ks, key, limit := Keyed(calls), Key(email, rateClass), LimitOf(rateClass);
    OneLimitPerKey(calls, email, rateClass);
    RepliesArePasses(Take, ks, key, limit, lo, lo + length);
    AtMostTheRate(limit, Mine(ks, key), lo, length);
  }

  lemma OneLimitPerKey(calls: seq<ToolCall>, email: string, rateClass: string)
    requires NoBar(rateClass) && forall c :: c in calls ==> NoBar(c.rateClass)
    ensures OneLimit(Keyed(calls), Key(email, rateClass), LimitOf(rateClass))
  {
    hide Key, LimitOf, NoBar;
    var ks, key, limit := Keyed(calls), Key(email, rateClass), LimitOf(rateClass);
    forall c | c in ks && c.key == key
      ensures c.limit == limit
    {
      var i :| 0 <= i < |ks| && ks[i] == c;
      assert calls[i] in calls;
      KeyInjective(calls[i].email, calls[i].rateClass, email, rateClass);
    }
  }
}

/** glasses/handler.go. */
module FixedWindow {
  import opened Basics
  import opened KeyedCalls

  datatype Entry = Entry(count: int, resetAt: real)

  const WINDOW := 60.0

  function Hit(limit: nat, e: Option<Entry>, now: real): (Entry, bool) {
    if e.None? || now > e.value.resetAt then (Entry(1, now + WINDOW), true)
    else (e.value.(count := e.value.count + 1), e.value.count + 1 <= limit)
  }

  class RateLimiter {
    const limit: nat
    const window: real := WINDOW
    var seen: map<string, Entry>

    constructor (perMin: nat)
      ensures limit == perMin && window == 60.0 && seen == map[]
    {
      limit, seen := perMin, map[];
    }

    method Allow(key: string, now: real) returns (ok: bool)
      modifies this
      ensures var r := Hit(limit, Get(old(seen), key), now);
              ok == r.1 && seen == old(seen)[key := r.0]
    {
      if key !in seen || now > seen[key].resetAt {
        seen := seen[key := Entry(1, now + window)];
        return true;
      }
      seen := seen[key := seen[key].(count := seen[key].count + 1)];
      return seen[key].count <= limit;
    }
  }

  /** The call that opened the window call j falls into. */
  function Opener(ts: seq<real>, j: nat): (o: nat)
    requires j < |ts|
    ensures o <= j && ts[j] <= ts[o] + 60.0
  {
    if j == 0 || ts[j] > ts[Opener(ts, j - 1)] + WINDOW then j else Opener(ts, j - 1)
  }

  /** A call passes just when it opens a window or is among the first `limit` calls of its window. */
  lemma {:induction false} PassesIffEarlyInWindow(limit: nat, ts: seq<real>, j: nat)
    requires j < |ts|
    ensures Passes(Hit, limit, ts[..j + 1]) <==> j == Opener(ts, j) || j - Opener(ts, j) < limit
    ensures After(Hit, limit, ts[..j + 1]) == Some(Entry(j - Opener(ts, j) + 1, ts[Opener(ts, j)] + 60.0))
  {
    assert ts[..j + 1][..j] == ts[..j];
    if j > 0 { PassesIffEarlyInWindow(limit, ts, j - 1); }
  }

  function Max(a: int, b: int): int { if a > b then a else b }

  /** Calls a up to b, all of the window opened by call o: at most max(limit, 1) pass, and one less when
      the opener is not among them. */
  lemma {:induction false} OneWindow(limit: nat, ts: seq<real>, o: nat, a: nat, b: nat)
    requires o <= a <= b <= |ts|
    requires forall j :: a <= j < b ==> Opener(ts, j) == o
    ensures Passed(Hit, limit, ts, a, b) <= Max(0, o + Max(limit, 1) - a)
  {
    if a < b {
      OneWindow(limit, ts, o, a, b - 1);
      PassesIffEarlyInWindow(limit, ts, b - 1);
    }
  }

  /** Openers do not go back, and a call's opener opens its own window. */
  lemma {:induction false} OpenerMonotone(ts: seq<real>, i: nat, j: nat)
    requires i <= j < |ts|
    ensures Opener(ts, i) <= Opener(ts, j)
    ensures Opener(ts, i) < Opener(ts, j) ==> i < Opener(ts, j)
    ensures Opener(ts, Opener(ts, j)) == Opener(ts, j)
    decreases j
  {
    if i < j {
      OpenerMonotone(ts, i, j - 1);
    } else if j > 0 {
      OpenerMonotone(ts, j - 1, j - 1);
    }
  }

  /** The most that pass in a stretch no longer than the window. */
  function Most(limit: nat): nat { if limit == 0 then 1 else 2 * limit - 1 }

  /** With a clock that does not go back: calls i to j, no further apart than the window, fall into two
      windows at most, and of the first its opener is missing when there are two. */
  lemma AtMostAcrossTwo(limit: nat, ts: seq<real>, i: nat, j: nat)
    requires NonDecreasing(ts) && i <= j < |ts| && ts[j] - ts[i] <= WINDOW
    ensures Passed(Hit, limit, ts, i, j + 1) <= Most(limit)
  {
    hide Passed, Opener;
    var p, q := Opener(ts, i), Opener(ts, j);
    OpenerMonotone(ts, i, j);
    if p == q {
      forall k | i <= k < j + 1 ensures Opener(ts, k) == p { OpenerMonotone(ts, i, k); OpenerMonotone(ts, k, j); }
      OneWindow(limit, ts, p, i, j + 1);
    } else {
      forall k | i <= k < q ensures Opener(ts, k) == p { BetweenOpeners(ts, i, k, j); }
      forall k | q <= k < j + 1 ensures Opener(ts, k) == q { OpenerMonotone(ts, q, k); OpenerMonotone(ts, k, j); }
      OpenerMonotone(ts, i, q);
      OpenerMonotone(ts, i, i);
      OpenerIsLate(ts, p, q);
      assert p != i;
      OneWindow(limit, ts, p, i, q);
      OneWindow(limit, ts, q, q, j + 1);
      PassedSplits(Hit, limit, ts, i, q, j + 1);
    }
  }

  /** A later opener is more than a window after an earlier one. */
  lemma {:induction false} OpenerIsLate(ts: seq<real>, p: nat, q: nat)
    requires p < q < |ts| && Opener(ts, p) == p && Opener(ts, q) == q
    requires NonDecreasing(ts)
    ensures ts[q] > ts[p] + WINDOW
  {
    OpenerMonotone(ts, p, q - 1);
    assert ts[p] <= ts[Opener(ts, q - 1)];
  }

  /** Within a window's length of call i no window opens between call i and the one call j is in. */
  lemma BetweenOpeners(ts: seq<real>, i: nat, k: nat, j: nat)
    requires NonDecreasing(ts) && j < |ts| && i <= k < Opener(ts, j) && ts[j] - ts[i] <= WINDOW
    ensures Opener(ts, k) == Opener(ts, i)
  {
    var m, q := Opener(ts, k), Opener(ts, j);
    OpenerMonotone(ts, i, k);
    OpenerMonotone(ts, k, j);
    OpenerMonotone(ts, k, k);
    OpenerMonotone(ts, j, j);
    assert i <= m ==> ts[i] <= ts[m];
    assert ts[q] <= ts[j];
    OpenerIsLate(ts, m, q);
  }

  /** In any stretch no longer than the window, at most 2 * limit - 1 calls of a key pass (and one when
      the limit is 0). */
  lemma AtMostTwiceTheLimit(limit: nat, ts: seq<real>, lo: real, hi: real)
    requires NonDecreasing(ts) && hi - lo <= 60.0
    ensures PassedWithin(Hit, limit, ts, |ts|, lo, hi) <= Most(limit)
  {
    forall i, j | 0 <= i <= j < |ts| && lo <= ts[i] <= hi && lo <= ts[j] <= hi && Passes(Hit, limit, ts[..j + 1])
      ensures Passed(Hit, limit, ts, i, j + 1) as real <= Most(limit) as real
    {
      AtMostAcrossTwo(limit, ts, i, j);
    }
    WithinAtMost(Hit, limit, ts, |ts|, lo, hi, Most(limit) as real);
  }

  /** Two full windows that meet: one call at 0, limit - 1 at the end of its window, limit just after it. */
  function TwoBursts(limit: nat): (ts: seq<real>)
    requires limit >= 1
    ensures |ts| == 2 * limit
    ensures NonDecreasing(ts)
  {
    seq(2 * limit, i => if i == 0 then 0.0 else if i < limit then WINDOW else WINDOW + 1.0)
  }

  lemma {:induction false} TwoBurstsOpeners(limit: nat, j: nat)
    requires limit >= 1 && j < 2 * limit
    ensures Opener(TwoBursts(limit), j) == if j < limit then 0 else limit
  {
    if j > 0 { TwoBurstsOpeners(limit, j - 1); }
  }

  lemma {:induction false} TwoBurstsPass(limit: nat, n: nat)
    requires limit >= 1 && n <= 2 * limit
    ensures PassedWithin(Hit, limit, TwoBursts(limit), n, WINDOW, WINDOW + 1.0) == Max(n - 1, 0)
  {
    if n > 0 {
      TwoBurstsPass(limit, n - 1);
      TwoBurstsOpeners(limit, n - 1);
      PassesIffEarlyInWindow(limit, TwoBursts(limit), n - 1);
    }
  }

  /** The bound is reached: within one second, when the limit is positive. */
  lemma MostIsReached(limit: nat) returns (ts: seq<real>, lo: real, hi: real)
    ensures NonDecreasing(ts) && hi - lo <= 1.0
    ensures PassedWithin(Hit, limit, ts, |ts|, lo, hi) == Most(limit)
  {
    if limit == 0 {
      ts, lo, hi := [0.0], 0.0, 0.0;
      PassesIffEarlyInWindow(limit, ts, 0);
      assert ts[..1] == ts;
      assert PassedWithin(Hit, limit, ts, 0, lo, hi) == 0;
    } else {
      ts, lo, hi := TwoBursts(limit), WINDOW, WINDOW + 1.0;
      TwoBurstsPass(limit, 2 * limit);
    }
  }

  /** Twice the limit bounds every such stretch just when the limit is positive: a limit of 0 still lets
      each window's first call through. */
  lemma TwiceTheLimitIffPositive(limit: nat)
    ensures limit >= 1 <==>
            forall ts: seq<real>, lo: real, hi: real :: NonDecreasing(ts) && hi - lo <= 60.0 ==>
              PassedWithin(Hit, limit, ts, |ts|, lo, hi) <= 2 * limit
  {
    forall ts: seq<real>, lo: real, hi: real | NonDecreasing(ts) && hi - lo <= 60.0
      ensures PassedWithin(Hit, limit, ts, |ts|, lo, hi) <= Most(limit)
    {
      AtMostTwiceTheLimit(limit, ts, lo, hi);
    }
    var ts, lo, hi := MostIsReached(limit);
  }

  /** The same for one address in a run of calls from any addresses. */
  lemma AddressAtMostTwice(calls: seq<Call>, key: string, limit: nat, lo: real, hi: real)
    requires OneLimit(calls, key, limit) && hi - lo <= 60.0
    requires forall i, j :: 0 <= i <= j < |calls| ==> calls[i].now <= calls[j].now
    ensures RepliesWithin(Hit, calls, key, lo, hi) <= Most(limit)
  {
    RepliesArePasses(Hit, calls, key, limit, lo, hi);
    MineInOrder(calls, key);
    AtMostTwiceTheLimit(limit, Mine(calls, key), lo, hi);
  }

  lemma {:induction false} MineInOrder(calls: seq<Call>, key: string)
    requires forall i, j :: 0 <= i <= j < |calls| ==> calls[i].now <= calls[j].now
    ensures NonDecreasing(Mine(calls, key))
    ensures forall t :: t in Mine(calls, key) ==> calls != [] && t <= calls[|calls| - 1].now
  {
    if calls != [] {
      var m := |calls| - 1;
      MineInOrder(calls[..m], key);
      var mine, rest := Mine(calls, key), Mine(calls[..m], key);
      forall i, j | 0 <= i <= j < |mine| ensures mine[i] <= mine[j] {
        if j < |rest| { assert mine[i] == rest[i] && mine[j] == rest[j]; }
        else if i < |rest| { assert rest[i] in rest; }
      }
    }
  }
}
