/** What a take of glasses/ask_firestore.go replies, from the document alone; and a question that nobody has
    answered. */
module AskReplies {
  import opened Basics
  import opened Asks

  predicate AllPlain(s: string) {
    forall i :: 0 <= i < |s| ==> 'a' <= s[i] <= 'z' || '0' <= s[i] <= '9' || s[i] == '-'
  }

  lemma PlainEach(s: string)
    ensures AllPlain(s) <==> forall c :: c in s ==> Plain(c)
  {
    if forall c :: c in s ==> Plain(c) {
      forall i | 0 <= i < |s| ensures Plain(s[i]) { assert s[i] in s; }
    }
  }

  /** The formats: a PC has 1 to 64 lower-case letters, digits or hyphens; a request id has r- or t- and then 1
      to 48 of them; a text has 1 to 4000 characters. */
  lemma FormatsMean(pc: string, requestID: string, text: string)
    ensures ValidPC(pc) <==> 1 <= |pc| <= 64 && AllPlain(pc)
    ensures ValidRequestID(requestID) <==>
              3 <= |requestID| <= 50 && requestID[..2] in ["r-", "t-"] && AllPlain(requestID[2..])
    ensures ValidPut(pc, requestID, text) <==> ValidPC(pc) && ValidRequestID(requestID) && 1 <= |text| <= 4000
  {
    hide Plain, AllPlain;
    PlainEach(pc);
    if |requestID| >= 2 {
      PlainEach(requestID[2..]);
      assert requestID[..2] == [requestID[0], requestID[1]];
    }
  }

  /** A take that nothing interrupts: not found, not answered yet, answered before, or answered and now marked
      as delivered and left a minute at most. */
  lemma TakeMeans(s: Store, pc: string, requestID: string, e: Env)
    requires e.readable && e.between == None
    ensures var id := pc + "_" + requestID;
            var (s1, r) := Take(s, pc, requestID, e);
            if id !in s.asks || s.asks[id].expireAt <= e.now then s1 == s && r == NotFound
            else if s.asks[id].answer == "" then s1 == s && r == NotYet
            else if s.asks[id].deliveredAt.Some? then s1 == s && r == Text(s.asks[id].answer)
            else
              var until := if e.later + 60_000_000_000 < s.asks[id].expireAt then e.later + 60_000_000_000
                           else s.asks[id].expireAt;
              var marked := s.asks[id].(deliveredAt := Some(e.later), expireAt := until);
              && s1 == (if e.write == Err(false) then s else s.(asks := s.asks[id := marked]))
              && r == if e.write == Ok then Text(s.asks[id].answer) else Failed
  {}

  /** The question is as it was registered, or was removed when its time was over. */
  predicate Unanswered(s: Store, id: string, d: Ask, now: int) {
    d.answer == "" && if id in s.asks then s.asks[id] == d else d.expireAt <= now
  }

  lemma UnansweredStep(s: Store, op: Op, pc: string, requestID: string, d: Ask, now: int)
    requires ValidPC(pc) && Unanswered(s, DocID(pc, requestID), d, now)
    requires LeavesAlone(op, pc, requestID) && Alone(op) && now <= Begins(op) <= Ends(op)
    ensures Unanswered(Do(s, op), DocID(pc, requestID), d, Ends(op))
  {
    hide DocID;
    if (op.DoRegister? || op.DoPutAnswer?) && ValidPC(op.pc) && DocID(op.pc, op.requestID) == DocID(pc, requestID) {
      DocIDInjective(op.pc, op.requestID, pc, requestID);
    }
  }

  lemma {:induction false} UnansweredRun(s: Store, ops: seq<Op>, pc: string, requestID: string, d: Ask, now: int,
                                         to: int)
    requires ValidPC(pc) && Unanswered(s, DocID(pc, requestID), d, now)
    requires InOrder(ops, now, to) && forall op :: op in ops ==> LeavesAlone(op, pc, requestID)
    ensures Unanswered(Run(s, ops), DocID(pc, requestID), d, to)
    decreases |ops|
  {
    hide DocID, LeavesAlone, Do;
    if ops != [] {
      UnansweredStep(s, ops[0], pc, requestID, d, now);
      UnansweredRun(Do(s, ops[0]), ops[1..], pc, requestID, d, Ends(ops[0]), to);
    }
  }

  /** A registered question that is not answered: over every run it is not-yet for ten minutes and then
      not-found, however often it is asked for, and asking changes nothing. */
  lemma {:induction false} UnansweredIsNotYet(s: Store, pc: string, requestID: string, e: Env, ops: seq<Op>, again: Env)
    requires ValidPC(pc) && ValidRequestID(requestID) && e.write != Err(false)
    requires InOrder(ops, e.now, again.now) && forall op :: op in ops ==> LeavesAlone(op, pc, requestID)
    requires again.readable && again.between == None
    ensures e.write == Ok ==> Register(s, pc, requestID, e).1 == Expires(e.now + 600_000_000_000)
    ensures var s1 := Run(Register(s, pc, requestID, e).0, ops);
            Take(s1, pc, requestID, again) == (s1, if again.now < e.now + 600_000_000_000 then NotYet else NotFound)
  {
    hide DocID, InOrder, LeavesAlone, Run;
    var s1 := Register(s, pc, requestID, e).0;
    UnansweredRun(s1, ops, pc, requestID, s1.asks[DocID(pc, requestID)], e.now, again.now);
  }

  /** The TTL policy removes a question just when its time is over, and no later look can tell. */
  lemma TtlIsInvisible(s: Store, id: string, now: int, pc: string, requestID: string, e: Env)
    ensures var s1 := Do(s, Remove(id, now));
            && s1.answers == s.answers
            && s1.asks == (if id in s.asks && s.asks[id].expireAt <= now then s.asks - {id} else s.asks)
            && (e.now >= now ==> Take(s1, pc, requestID, e).1 == Take(s, pc, requestID, e).1)
  {
    hide DocID;
  }

  /** The question is neither registered, answered nor asked for. */
  predicate Untouched(op: Op, pc: string, requestID: string) {
    op.DoRegister? || op.DoPutAnswer? || op.DoTake? ==> (op.pc, op.requestID) != (pc, requestID)
  }

  predicate Same(s: Store, id: string, d: Ask, now: int) {
    if id in s.asks then s.asks[id] == d else d.expireAt <= now
  }

  lemma SameStep(s: Store, op: Op, pc: string, requestID: string, d: Ask, now: int)
    requires ValidPC(pc) && Same(s, DocID(pc, requestID), d, now)
    requires Untouched(op, pc, requestID) && Alone(op) && now <= Begins(op) <= Ends(op)
    requires op.DoTake? ==> ValidPC(op.pc)
    ensures Same(Do(s, op), DocID(pc, requestID), d, Ends(op))
  {
    hide DocID;
    if !op.Remove? && ValidPC(op.pc) && DocID(op.pc, op.requestID) == DocID(pc, requestID) {
      DocIDInjective(op.pc, op.requestID, pc, requestID);
    }
  }

  lemma {:induction false} SameRun(s: Store, ops: seq<Op>, pc: string, requestID: string, d: Ask, now: int, to: int)
    requires ValidPC(pc) && Same(s, DocID(pc, requestID), d, now) && InOrder(ops, now, to)
    requires forall op :: op in ops ==> Untouched(op, pc, requestID) && (op.DoTake? ==> ValidPC(op.pc))
    ensures Same(Run(s, ops), DocID(pc, requestID), d, to)
    decreases |ops|
  {
    hide DocID, Untouched, Do;
    if ops != [] {
      assert ops[0] in ops;
      SameStep(s, ops[0], pc, requestID, d, now);
      SameRun(Do(s, ops[0]), ops[1..], pc, requestID, d, Ends(ops[0]), to);
    }
  }

  /** The life of a question, whatever else is asked and answered meanwhile: registered, answered while it
      lasts, and then taken, it gives the answer for ten minutes from the answer, and then it is not found. */
  lemma {:induction false} LifeOfAQuestion(s: Store, pc: string, requestID: string, text: string, e1: Env,
                                           before: seq<Op>, e2: Env, put: WriteResult, after: seq<Op>, e3: Env)
    requires ValidPut(pc, requestID, text) && e1.write == Ok && e2.write == Ok && e3.write == Ok
    requires e2.readable && e3.readable && e2.between == None && e3.between == None
    requires InOrder(before, e1.now, e2.now) && e2.now < e1.now + 600_000_000_000
    requires InOrder(after, e2.later, e3.now)
    requires forall op :: op in before ==> LeavesAlone(op, pc, requestID)
    requires forall op :: op in after ==> Untouched(op, pc, requestID) && (op.DoTake? ==> ValidPC(op.pc))
    ensures var s1 := Run(Do(s, DoRegister(pc, requestID, e1)), before);
            var s2 := Run(Do(s1, DoPutAnswer(pc, requestID, text, Registered(true), e2, put)), after);
            Take(s2, pc, requestID, e3).1 == if e3.now < e2.later + 600_000_000_000 then Text(text) else NotFound
  {
    hide DocID, InOrder, LeavesAlone, Untouched, Run, ValidPC, ValidRequestID;
    var id := DocID(pc, requestID);
    var s0 := Do(s, DoRegister(pc, requestID, e1));
    UnansweredRun(s0, before, pc, requestID, s0.asks[id], e1.now, e2.now);
    var s1 := Do(Run(s0, before), DoPutAnswer(pc, requestID, text, Registered(true), e2, put));
    SameRun(s1, after, pc, requestID, s1.asks[id], e2.later, e3.now);
  }
}
