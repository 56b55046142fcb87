/** glasses/ask_firestore.go and PutAnswer in glasses/glasses.go: an answer goes to the question's own
    document or to the pull collection, and a delivered reply stays readable for a grace period. */
module Asks {
  import opened Basics

  const SECOND := 1_000_000_000
  const TTL := 600 * SECOND
  const GRACE := 60 * SECOND
  const MAX_TEXT := 4000

  datatype Ask = Ask(pc: string, requestID: string, createdAt: int, answer: string,
                     answeredAt: Option<int>, deliveredAt: Option<int>, expireAt: int)

  datatype Answer = Answer(pc: string, requestID: string, text: string, createdAt: int, expireAt: int)

  /** glasses_asks and glasses_answers. */
  datatype Store = Store(asks: map<string, Ask>, answers: map<string, Answer>)

  /** What an operation meets: whether its read succeeds, its two clock readings, what others have made of
      the store between its read and its update if they did anything, and its write's result. */
  datatype Env = Env(readable: bool, now: int, between: Option<Store>, later: int, write: WriteResult)

  datatype Reply =
    | Expires(at: int)
    | NotRouted
    | Text(text: string)
    | NotYet
    | NotFound
    | Invalid
    | NotRegistered
    | Failed

  predicate Plain(c: char) { 'a' <= c <= 'z' || '0' <= c <= '9' || c == '-' }

  predicate ValidPC(s: string) { 1 <= |s| <= 64 && forall c :: c in s ==> Plain(c) }

  predicate ValidRequestID(s: string) {
    3 <= |s| <= 50 && s[0] in {'r', 't'} && s[1] == '-' && forall c :: c in s[2..] ==> Plain(c)
  }

  predicate ValidText(s: string) { 1 <= |s| <= MAX_TEXT }

  predicate ValidPut(pc: string, requestID: string, text: string) {
    ValidPC(pc) && ValidRequestID(requestID) && ValidText(text)
  }

  function DocID(pc: string, requestID: string): string { pc + "_" + requestID }

  /** A valid pc has no underscore, so no two questions share a document. */
  lemma DocIDInjective(pc1: string, r1: string, pc2: string, r2: string)
    requires ValidPC(pc1) && ValidPC(pc2) && DocID(pc1, r1) == DocID(pc2, r2)
    ensures pc1 == pc2 && r1 == r2
  {
    FirstUnderscore(pc1, r1);
    FirstUnderscore(pc2, r2);
    var id := DocID(pc1, r1);
    assert id[..|pc1|] == pc1 && id[|pc1| + 1..] == r1;
    assert id[..|pc2|] == pc2 && id[|pc2| + 1..] == r2;
  }

  lemma FirstUnderscore(pc: string, r: string)
    requires ValidPC(pc)
    ensures |pc| < |DocID(pc, r)| && DocID(pc, r)[|pc|] == '_'
    ensures forall i :: 0 <= i < |pc| ==> DocID(pc, r)[i] != '_'
  {
    forall i | 0 <= i < |pc| ensures DocID(pc, r)[i] != '_' { assert pc[i] in pc; }
  }

  // ----- The operations on values -----

  predicate Live(asks: map<string, Ask>, id: string, now: int) {
    id in asks && asks[id].expireAt > now
  }

  function WriteAsk(s: Store, id: string, d: Ask, w: WriteResult): Store {
    if w == Err(false) then s else s.(asks := s.asks[id := d])
  }

  function Register(s: Store, pc: string, requestID: string, e: Env): (Store, Reply) {
    if !ValidPC(pc) || !ValidRequestID(requestID) then (s, Invalid) else
    var d := Ask(pc, requestID, e.now, "", None, None, e.now + TTL);
    (WriteAsk(s, DocID(pc, requestID), d, e.write), if e.write == Ok then Expires(e.now + TTL) else Failed)
  }

  function Answered(d: Ask, text: string, now: int): Ask {
    d.(answer := text, answeredAt := Some(now), expireAt := now + TTL)
  }

  /** The update that follows the read; it fails when the document is gone by then. */
  function RecordAnswer(s: Store, id: string, text: string, now: int, w: WriteResult): (Store, Reply) {
    if id !in s.asks then (s, Failed)
    else (WriteAsk(s, id, Answered(s.asks[id], text, now), w), if w == Ok then Expires(now + TTL) else Failed)
  }

  /** The store that an update finds. */
  function Between(s: Store, e: Env): Store { if e.between.Some? then e.between.value else s }

  function AnswerTo(s: Store, pc: string, requestID: string, text: string, e: Env): (Store, Reply) {
    var id := DocID(pc, requestID);
    if !ValidPC(pc) || !ValidRequestID(requestID) then (s, NotRouted)
    else if !e.readable then (s, Failed)
    else if !Live(s.asks, id, e.now) then (s, NotRouted)
    else RecordAnswer(Between(s, e), id, text, e.later, e.write)
  }

  function Min(a: int, b: int): int { if a < b then a else b }

  /** What a reply's reader takes from the document it has read. */
  function Taken(read: Ask): Reply {
    if read.answer == "" then NotYet else Text(read.answer)
  }

  /** The update that follows the read: made from the document as it was read, and failing when the
      document is gone by then. */
  function MarkDelivered(s: Store, id: string, read: Ask, now: int, w: WriteResult): (Store, Reply) {
    if Taken(read) == NotYet || read.deliveredAt.Some? then (s, Taken(read))
    else if id !in s.asks then (s, Failed)
    else
      var d := s.asks[id].(deliveredAt := Some(now), expireAt := Min(read.expireAt, now + GRACE));
      (WriteAsk(s, id, d, w), if w == Ok then Taken(read) else Failed)
  }

  function Take(s: Store, pc: string, requestID: string, e: Env): (Store, Reply) {
    var id := DocID(pc, requestID);
    if !e.readable then (s, Failed)
    else if !Live(s.asks, id, e.now) then (s, NotFound)
    else MarkDelivered(Between(s, e), id, s.asks[id], e.later, e.write)
  }

  function Put(s: Store, pc: string, requestID: string, text: string, now: int, w: WriteResult): (Store, Reply) {
    if !ValidPut(pc, requestID, text) then (s, Invalid) else
    var a := Answer(pc, requestID, text, now, now + TTL);
    (if w == Err(false) then s else s.(answers := s.answers[DocID(pc, requestID) := a]),
     if w == Ok then Expires(now + TTL) else Failed)
  }

  datatype Registry = Registered(yes: bool) | Unknown

  /** The store and the caller's answer after a PutAnswer whose question, if any, takes its own write. */
  function Route(s: Store, pc: string, requestID: string, text: string, reg: Registry, e: Env, put: WriteResult)
    : (Store, Reply)
  {
    if !ValidPut(pc, requestID, text) then (s, Invalid)
    else if reg.Unknown? then (s, Failed)
    else if !reg.yes then (s, NotRegistered)
    else
      var (s1, r) := AnswerTo(s, pc, requestID, text, e);
      if r == NotRouted then Put(s1, pc, requestID, text, e.later, put) else (s1, r)
  }

  class Firestore {
    var asks: map<string, Ask>
    var answers: map<string, Answer>

    ghost function State(): Store
      reads this
    {
      Store(asks, answers)
    }

    method RegisterAsk(pc: string, requestID: string, e: Env) returns (r: Reply)
      modifies this`asks
      ensures (State(), r) == Register(old(State()), pc, requestID, e)
      ensures r == Invalid <==> !ValidPC(pc) || !ValidRequestID(requestID)
    {
      if !ValidPC(pc) || !ValidRequestID(requestID) { return Invalid; }
      var exp := e.now + TTL;
      if e.write != Err(false) {
        asks := asks[DocID(pc, requestID) := Ask(pc, requestID, e.now, "", None, None, exp)];
      }
      return if e.write == Ok then Expires(exp) else Failed;
    }

    method AskDoc(pc: string, requestID: string, readable: bool, now: int) returns (failed: bool, d: Option<Ask>)
      ensures failed == !readable
      ensures d.Some? <==> readable && Live(asks, DocID(pc, requestID), now)
      ensures d.Some? ==> d.value == asks[DocID(pc, requestID)]
    {
      if !readable { return true, None; }
      if DocID(pc, requestID) !in asks { return false, None; }
      var read := asks[DocID(pc, requestID)];
      if !(read.expireAt > now) { return false, None; }
      return false, Some(read);
    }

    /** Whatever others do to the store. */
    method Meanwhile(e: Env)
      modifies this
      ensures State() == Between(old(State()), e)
    {
      if e.between.Some? { asks, answers := e.between.value.asks, e.between.value.answers; }
    }

    /** AnswerAsk's update, whatever has happened since its read. */
    method UpdateAnswer(id: string, text: string, now: int, w: WriteResult) returns (r: Reply)
      modifies this`asks
      ensures (State(), r) == RecordAnswer(old(State()), id, text, now, w)
    {
      if id !in asks { return Failed; }
      var exp := now + TTL;
      if w != Err(false) {
        asks := asks[id := asks[id].(answer := text, answeredAt := Some(now), expireAt := exp)];
      }
      return if w == Ok then Expires(exp) else Failed;
    }

    method AnswerAsk(pc: string, requestID: string, text: string, e: Env) returns (r: Reply)
      modifies this
      ensures (State(), r) == AnswerTo(old(State()), pc, requestID, text, e)
    {
      if !ValidPC(pc) || !ValidRequestID(requestID) { return NotRouted; }
      var failed, read := AskDoc(pc, requestID, e.readable, e.now);
      if failed { return Failed; }
      if read.None? { return NotRouted; }
      Meanwhile(e);
      r := UpdateAnswer(DocID(pc, requestID), text, e.later, e.write);
    }

    /** TakeAskReply from its read on, whatever has happened since. */
    method UpdateDelivered(id: string, read: Ask, now: int, w: WriteResult) returns (r: Reply)
      modifies this`asks
      ensures (State(), r) == MarkDelivered(old(State()), id, read, now, w)
    {
      var text := read.answer;
      if text == "" { return NotYet; }
      if read.deliveredAt.None? {
        var exp := read.expireAt;
        if now + GRACE < exp { exp := now + GRACE; }
        if id !in asks { return Failed; }
        if w != Err(false) {
          asks := asks[id := asks[id].(deliveredAt := Some(now), expireAt := exp)];
        }
        if w != Ok { return Failed; }
      }
      return Text(text);
    }

    method TakeAskReply(pc: string, requestID: string, e: Env) returns (r: Reply)
      modifies this
      ensures (State(), r) == Take(old(State()), pc, requestID, e)
    {
      var failed, read := AskDoc(pc, requestID, e.readable, e.now);
      if failed { return Failed; }
      if read.None? { return NotFound; }
      Meanwhile(e);
      r := UpdateDelivered(DocID(pc, requestID), read.value, e.later, e.write);
    }

    method PutPull(pc: string, requestID: string, text: string, now: int, w: WriteResult) returns (r: Reply)
      modifies this`answers
      ensures (State(), r) == Put(old(State()), pc, requestID, text, now, w)
    {
      if !ValidPut(pc, requestID, text) { return Invalid; }
      if w != Err(false) {
        answers := answers[DocID(pc, requestID) := Answer(pc, requestID, text, now, now + TTL)];
      }
      return if w == Ok then Expires(now + TTL) else Failed;
    }

    /** A success writes one document: the question's own if it is registered and unexpired when read,
        which the pull collection then never sees, and else the pull collection's. */
    method PutAnswer(pc: string, requestID: string, text: string, reg: Registry, e: Env, put: WriteResult)
      returns (r: Reply)
      modifies this
      ensures (State(), r) == Route(old(State()), pc, requestID, text, reg, e, put)
      ensures r == Invalid <==> !ValidPut(pc, requestID, text)
      ensures r == NotRegistered <==> ValidPut(pc, requestID, text) && reg == Registered(false)
      ensures ValidPut(pc, requestID, text) && (reg == Unknown || (reg.yes && !e.readable)) ==>
                r == Failed && State() == old(State())
      ensures ValidPut(pc, requestID, text) && reg == Registered(true) && e.readable ==>
                (r.Expires? <==> if Live(old(asks), DocID(pc, requestID), e.now)
                                 then DocID(pc, requestID) in Between(old(State()), e).asks && e.write == Ok
                                 else put == Ok)
      ensures r in {Invalid, NotRegistered, Failed} || r == Expires(e.later + 600_000_000_000)
      ensures r.Expires? && Live(old(asks), DocID(pc, requestID), e.now)
              ==> var b := Between(old(State()), e); var id := DocID(pc, requestID);
                  id in b.asks && answers == b.answers &&
                  asks == b.asks[id := b.asks[id].(answer := text, answeredAt := Some(e.later),
                                                   expireAt := e.later + 600_000_000_000)]
      ensures r.Expires? && !Live(old(asks), DocID(pc, requestID), e.now)
              ==> asks == old(asks) &&
                  answers == old(answers)[DocID(pc, requestID) := Answer(pc, requestID, text, e.later, r.at)]
      ensures r in {Invalid, NotRegistered} ==> State() == old(State())
    {
      if !ValidPut(pc, requestID, text) { return Invalid; }
      match reg
      case Unknown => return Failed;
      case Registered(yes) =>
        if !yes { return NotRegistered; }
        r := AnswerAsk(pc, requestID, text, e);
        if r == NotRouted { r := PutPull(pc, requestID, text, e.later, put); }
    }
  }

  // ----- Runs -----

  datatype Op =
    | DoRegister(pc: string, requestID: string, e: Env)
    | DoPutAnswer(pc: string, requestID: string, text: string, reg: Registry, e: Env, put: WriteResult)
    | DoTake(pc: string, requestID: string, e: Env)
    | Remove(id: string, now: int)                 // the TTL policy deletes a document, if it has expired

  function Do(s: Store, op: Op): Store {
    match op
    case DoRegister(pc, requestID, e) => Register(s, pc, requestID, e).0
    case DoPutAnswer(pc, requestID, text, reg, e, put) => Route(s, pc, requestID, text, reg, e, put).0
    case DoTake(pc, requestID, e) => Take(s, pc, requestID, e).0
    case Remove(id, now) =>
      if id in s.asks && s.asks[id].expireAt <= now then s.(asks := s.asks - {id}) else s
  }

  function Run(s: Store, ops: seq<Op>): Store
    decreases |ops|
  {
    if ops == [] then s else Run(Do(s, ops[0]), ops[1..])
  }

  function Begins(op: Op): int { if op.Remove? then op.now else op.e.now }

  function Ends(op: Op): int { if op.Remove? then op.now else op.e.later }

  /** Nothing happens between its read and its update. */
  predicate Alone(op: Op) { !op.Remove? ==> op.e.between == None }

  /** One operation after the other, on a clock that does not go back, from `from` to `to`. */
  predicate InOrder(ops: seq<Op>, from: int, to: int)
    decreases |ops|
  {
    if ops == [] then from <= to
    else Alone(ops[0]) && from <= Begins(ops[0]) <= Ends(ops[0]) && InOrder(ops[1..], Ends(ops[0]), to)
  }

  /** The question is neither registered anew nor answered. */
  predicate LeavesAlone(op: Op, pc: string, requestID: string) {
    op.DoRegister? || op.DoPutAnswer? ==> (op.pc, op.requestID) != (pc, requestID)
  }

  /** The document is d, already delivered, or was removed when its time was over. */
  predicate Keeps(s: Store, id: string, d: Ask, now: int) {
    d.deliveredAt.Some? && if id in s.asks then s.asks[id] == d else d.expireAt <= now
  }

  lemma KeepsStep(s: Store, op: Op, pc: string, requestID: string, d: Ask, now: int)
    requires ValidPC(pc) && Keeps(s, DocID(pc, requestID), d, now)
    requires LeavesAlone(op, pc, requestID) && Alone(op) && now <= Begins(op) <= Ends(op)
    ensures Keeps(Do(s, op), DocID(pc, requestID), d, Ends(op))
  {
    hide DocID;
    if (op.DoRegister? || op.DoPutAnswer?) && ValidPC(op.pc) && DocID(op.pc, op.requestID) == DocID(pc, requestID) {
      DocIDInjective(op.pc, op.requestID, pc, requestID);
    }
  }

  lemma {:induction false} KeepsRun(s: Store, ops: seq<Op>, pc: string, requestID: string, d: Ask, now: int, to: int)
    requires ValidPC(pc) && Keeps(s, DocID(pc, requestID), d, now)
    requires InOrder(ops, now, to) && forall op :: op in ops ==> LeavesAlone(op, pc, requestID)
    ensures Keeps(Run(s, ops), DocID(pc, requestID), d, to)
    decreases |ops|
  {
    hide DocID, LeavesAlone, Do;
    if ops != [] {
      KeepsStep(s, ops[0], pc, requestID, d, now);
      KeepsRun(Do(s, ops[0]), ops[1..], pc, requestID, d, Ends(ops[0]), to);
    }
  }

  /** The expiry a delivered question keeps: the grace shortens the first delivery's only. */
  function Until(d: Ask, deliveredNow: int): int {
    if d.deliveredAt.Some? then d.expireAt else Min(d.expireAt, deliveredNow + GRACE)
  }

  /** A take touches nothing but its question's mark and expiry, and never makes the expiry later than it
      was when the take read it; so with nothing in between, never later at all. */
  lemma TakeOnlyShortens(s: Store, pc: string, requestID: string, e: Env)
    ensures var (s1, r) := Take(s, pc, requestID, e);
            var id := DocID(pc, requestID);
            var b := if e.readable && Live(s.asks, id, e.now) then Between(s, e) else s;
            && s1.answers == b.answers && s1.asks - {id} == b.asks - {id} && s1.asks.Keys == b.asks.Keys
            && (id in b.asks ==> s1.asks[id].answer == b.asks[id].answer)
            && (id in b.asks && s1 != b ==> id in s.asks && s1.asks[id].expireAt <= s.asks[id].expireAt)
            && (e.between == None && id in s.asks ==> s1.asks[id].expireAt <= s.asks[id].expireAt)
            && (r.Text? ==> id in s.asks && r.text == s.asks[id].answer)
            && (r.Text? && (e.between == None || s.asks[id].deliveredAt == None) ==>
                  id in s1.asks && s1.asks[id].deliveredAt.Some? && s1.asks[id].expireAt == Until(s.asks[id], e.later))
  {
    hide DocID;
    var id := DocID(pc, requestID);
    var s1 := Take(s, pc, requestID, e).0;
    assert s1.asks - {id} == Between(s, e).asks - {id} || s1 == s;
  }

  /** After a reply is delivered, and whatever else happens but a new registration or answer of that
      question: the same text is returned until the expiry the delivery left, and then not-found. */
  lemma SameReplyThenNotFound(s: Store, pc: string, requestID: string, e: Env, ops: seq<Op>, again: Env)
    requires ValidPC(pc) && e.now <= e.later && e.between == None && Take(s, pc, requestID, e).1.Text?
    requires InOrder(ops, e.later, again.now) && forall op :: op in ops ==> LeavesAlone(op, pc, requestID)
    requires again.readable
    ensures var (s1, r) := Take(s, pc, requestID, e);
            var until := Until(s.asks[DocID(pc, requestID)], e.later);
            Take(Run(s1, ops), pc, requestID, again).1 == if again.now < until then r else NotFound
  {
    hide DocID, InOrder, LeavesAlone, Run;
    var (s1, r) := Take(s, pc, requestID, e);
    KeepsRun(s1, ops, pc, requestID, s1.asks[DocID(pc, requestID)], e.later, again.now);
  }

  /** A routed answer is what the next take returns, as long as it has not expired. */
  lemma AnswerIsTaken(s: Store, pc: string, requestID: string, text: string, reg: Registry, e: Env, put: WriteResult,
                      t: Env)
    requires Live(s.asks, DocID(pc, requestID), e.now)
    requires Route(s, pc, requestID, text, reg, e, put).1.Expires?
    requires t.readable && t.between == None && t.write == Ok
    ensures var s1 := Route(s, pc, requestID, text, reg, e, put).0;
            Take(s1, pc, requestID, t).1 == if t.now < e.later + TTL then Text(text) else NotFound
  {
    hide DocID;
  }

  /** An answer to a question that has been delivered keeps the old mark, so its own delivery has no grace:
      it stays readable for the whole TTL. */
  lemma ReAnswerHasNoGrace(s: Store, pc: string, requestID: string, text: string, reg: Registry, e: Env,
                           put: WriteResult, t: Env)
    requires Live(s.asks, DocID(pc, requestID), e.now) && t.between == None
    requires Route(s, pc, requestID, text, reg, e, put).1.Expires?
    requires DocID(pc, requestID) in Between(s, e).asks
    requires Between(s, e).asks[DocID(pc, requestID)].deliveredAt.Some?
    ensures var s1 := Route(s, pc, requestID, text, reg, e, put).0;
            Take(s1, pc, requestID, t).0 == s1 && s1.asks[DocID(pc, requestID)].expireAt == e.later + TTL
  {
    hide DocID;
  }

  // ----- The pull loop -----

  const MAX_WAIT := 25 * SECOND
  const POLL_INTERVAL := SECOND

  function ClampWait(d: int): (r: int)
    ensures r == if d < 0 then 0 else if d <= 25_000_000_000 then d else 25_000_000_000
  {
    if d < 0 then 0 else if d > MAX_WAIT then MAX_WAIT else d
  }

  /** A query's result, and whether the context ends in the wait that follows it. */
  datatype Query = Items(items: seq<Answer>, now: int, cancelled: bool) | QueryFailed

  datatype Pulled = Got(items: seq<Answer>) | Cancelled | PullFailed

  /** Queries are an interval apart. */
  predicate Spaced(start: int, queries: seq<Query>) {
    forall i :: 0 <= i < |queries| && queries[i].Items? ==> start + i * POLL_INTERVAL <= queries[i].now
  }

  /** pullLoop on the results its queries will have. Every query before the last one used is empty, too early
      and followed by a full wait; the last is a failure, or has items, or is at or after the deadline, or is
      followed by a wait that the context ends. That is one of the first 26 at any wait. */
  method PullLoop(start: int, wait: int, queries: seq<Query>) returns (used: nat, r: Pulled)
    requires Spaced(start, queries) && |queries| >= 26
    ensures 1 <= used <= 26
    ensures forall i :: 0 <= i < used - 1 ==>
              var q := queries[i]; q.Items? && q.items == [] && q.now < start + ClampWait(wait) && !q.cancelled
    ensures match queries[used - 1]
            case QueryFailed => r == PullFailed
            case Items(items, now, cancelled) =>
              if items != [] || now >= start + ClampWait(wait) then r == Got(items) else cancelled && r == Cancelled
  {
    var deadline := start + ClampWait(wait);
    used := 0;
    while true
      invariant used <= 25
      invariant forall i :: 0 <= i < used ==>
                  var q := queries[i]; q.Items? && q.items == [] && q.now < deadline && !q.cancelled
      decreases 26 - used
    {
      var q := queries[used];
      used := used + 1;
      match q {
        case QueryFailed => return used, PullFailed;
        case Items(items, now, cancelled) =>
          if |items| > 0 || !(now < deadline) { return used, Got(items); }
          if cancelled { return used, Cancelled; }
      }
    }
  }
}
