/** Requests of glasses/ask_firestore.go that overlap: each reads the question, reads the clock and lands
    its write in three steps, and anything may happen in between, so that a late write may carry an
    early clock. */
module AskOverlaps {
  import opened Basics
  import opened Asks

  /** A request under way: what it will write, and its clock reading once it has made one. */
  datatype Flight =
    | Registering(id: string, at: Option<int>, pc: string, requestID: string)
    | Taking(id: string, at: Option<int>, read: Ask)
    | Answering(id: string, at: Option<int>, text: string)

  /** The clocks that a question's registrations and answers have carried: the one that landed last, and
      the latest of them. */
  datatype Renewed = Renewed(last: int, latest: int)

  datatype World = World(s: Store, now: int, flights: map<nat, Flight>, renewed: map<string, Renewed>)

  const START := World(Store(map[], map[]), 0, map[], map[])

  datatype Action =
    | Tick(to: int)
    | BeginRegister(f: nat, pc: string, requestID: string)
    | ReadForTake(f: nat, pc: string, requestID: string)
    | ReadForAnswer(f: nat, pc: string, requestID: string, text: string, put: WriteResult)
    | Clock(f: nat)
    | Land(f: nat, write: WriteResult)
    | Remove(id: string)                              // the TTL policy

  predicate Enabled(w: World, a: Action) {
    match a
    case Tick(to) => w.now <= to
    case BeginRegister(f, pc, requestID) => f !in w.flights && ValidPC(pc) && ValidRequestID(requestID)
    case ReadForTake(f, _, _) => f !in w.flights
    case ReadForAnswer(f, pc, requestID, text, _) => f !in w.flights && ValidPut(pc, requestID, text)
    case Clock(f) => f in w.flights && w.flights[f].at == None
    case Land(f, _) => f in w.flights && w.flights[f].at.Some?
    case Remove(_) => true
  }

  /** What the read of a take answers at once, or leaves to its update. */
  function Looked(w: World, id: string): Reply {
    if !Live(w.s.asks, id, w.now) then NotFound else Taken(w.s.asks[id])
  }

  /** It is the whole reply of a take that does nothing else, and of any whose write lands. */
  lemma LookedIsTheReply(w: World, pc: string, requestID: string, later: int)
    ensures Looked(w, DocID(pc, requestID)) == Take(w.s, pc, requestID, Env(true, w.now, None, later, Ok)).1
    ensures !FirstToSee(w, DocID(pc, requestID)) ==>
              Take(w.s, pc, requestID, Env(true, w.now, None, later, Ok)).0 == w.s
  {}

  /** A take has more to do when it is the first to see the reply. */
  predicate FirstToSee(w: World, id: string) {
    Looked(w, id).Text? && w.s.asks[id].deliveredAt.None?
  }

  /** The write of a request under way, and its reply. */
  function Landed(s: Store, g: Flight, write: WriteResult): (Store, Reply)
    requires g.at.Some?
  {
    match g
    case Registering(_, at, pc, requestID) => Register(s, pc, requestID, Env(true, at.value, None, at.value, write))
    case Taking(id, at, read) => MarkDelivered(s, id, read, at.value, write)
    case Answering(id, at, text) => RecordAnswer(s, id, text, at.value, write)
  }

  function Max(a: int, b: int): int { if a < b then b else a }

  /** A registration or an answer that has reached the document renews it. */
  function RenewedBy(w: World, g: Flight, write: WriteResult): map<string, Renewed>
    requires g.at.Some?
  {
    if g.Taking? || write == Err(false) || (g.Answering? && g.id !in w.s.asks) then w.renewed
    else
      var latest := if g.id in w.renewed then Max(w.renewed[g.id].latest, g.at.value) else g.at.value;
      w.renewed[g.id := Renewed(g.at.value, latest)]
  }

  function Do(w: World, a: Action): World
    requires Enabled(w, a)
  {
    match a
    case Tick(to) => w.(now := to)
    case BeginRegister(f, pc, requestID) =>
      w.(flights := w.flights[f := Registering(DocID(pc, requestID), Some(w.now), pc, requestID)])
    case ReadForTake(f, pc, requestID) =>
      var id := DocID(pc, requestID);
      if FirstToSee(w, id) then w.(flights := w.flights[f := Taking(id, None, w.s.asks[id])]) else w
    case ReadForAnswer(f, pc, requestID, text, put) =>
      var id := DocID(pc, requestID);
      if Live(w.s.asks, id, w.now) then w.(flights := w.flights[f := Answering(id, None, text)])
      else w.(s := Put(w.s, pc, requestID, text, w.now, put).0)
    case Clock(f) => w.(flights := w.flights[f := w.flights[f].(at := Some(w.now))])
    case Land(f, write) =>
      w.(s := Landed(w.s, w.flights[f], write).0, flights := w.flights - {f},
         renewed := RenewedBy(w, w.flights[f], write))
    case Remove(id) =>
      if id in w.s.asks && w.s.asks[id].expireAt <= w.now then w.(s := w.s.(asks := w.s.asks - {id})) else w
  }

  function Next(w: World, a: Action): World { if Enabled(w, a) then Do(w, a) else w }

  function Run(w: World, acts: seq<Action>): World
    decreases |acts|
  {
    if acts == [] then w else Run(Next(w, acts[0]), acts[1..])
  }

  lemma {:induction false} RunAppend(w: World, acts: seq<Action>, more: seq<Action>)
    ensures Run(w, acts + more) == Run(Run(w, acts), more)
    decreases |acts|
  {
    hide Next;
    if acts == [] {
      assert acts + more == more;
    } else {
      assert (acts + more)[0] == acts[0] && (acts + more)[1..] == acts[1..] + more;
      RunAppend(Next(w, acts[0]), acts[1..], more);
    }
  }

  lemma RunOne(w: World, a: Action)
    ensures Run(w, [a]) == Next(w, a)
  {
    hide Next;
    assert [a][1..] == [];
    assert Run(Next(w, a), []) == Next(w, a);
  }

  lemma RunTwo(w: World, a: Action, b: Action)
    ensures Run(w, [a, b]) == Next(Next(w, a), b)
  {
    hide Next;
    assert [a, b][1..] == [b];
    RunOne(Next(w, a), b);
  }

  // ----- A request that nothing overlaps -----

  lemma RunFour(w: World, a: Action, b: Action, c: Action, d: Action)
    ensures Run(w, [a, b, c, d]) == Next(Next(Next(Next(w, a), b), c), d)
  {
    hide Next;
    assert [a, b, c, d] == [a, b] + [c, d];
    RunAppend(w, [a, b], [c, d]);
    RunTwo(w, a, b);
    RunTwo(Next(Next(w, a), b), c, d);
  }

  /** The three steps of a take, with time passing before its clock reading, are the operation itself. */
  lemma AloneIsTake(w: World, f: nat, pc: string, requestID: string, later: int, write: WriteResult)
    requires f !in w.flights && w.now <= later
    ensures var w' := Run(w, [ReadForTake(f, pc, requestID), Tick(later), Clock(f), Land(f, write)]);
            && w'.s == Take(w.s, pc, requestID, Env(true, w.now, None, later, write)).0
            && w'.flights == w.flights && w'.now == later
  {
    hide DocID, Run;
    RunFour(w, ReadForTake(f, pc, requestID), Tick(later), Clock(f), Land(f, write));
  }

  /** So are those of an answer; one to a question that is not live goes to the pull collection at once. */
  lemma AloneIsPutAnswer(w: World, f: nat, pc: string, requestID: string, text: string, later: int, write: WriteResult,
                         put: WriteResult)
    requires f !in w.flights && w.now <= later && ValidPut(pc, requestID, text)
    ensures var w' := Run(w, [ReadForAnswer(f, pc, requestID, text, put), Tick(later), Clock(f), Land(f, write)]);
            var clock := if Live(w.s.asks, DocID(pc, requestID), w.now) then later else w.now;
            && w'.s == Route(w.s, pc, requestID, text, Registered(true), Env(true, w.now, None, clock, write), put).0
            && w'.flights == w.flights && w'.now == later
  {
    hide DocID, Run, ValidPC, ValidRequestID, ValidText;
    RunFour(w, ReadForAnswer(f, pc, requestID, text, put), Tick(later), Clock(f), Land(f, write));
  }

  /** And those of a registration, whose clock is read first. */
  lemma AloneIsRegister(w: World, f: nat, pc: string, requestID: string, later: int, write: WriteResult)
    requires f !in w.flights && w.now <= later && ValidPC(pc) && ValidRequestID(requestID)
    ensures var w' := Run(w, [BeginRegister(f, pc, requestID), Tick(later), Clock(f), Land(f, write)]);
            && w'.s == Register(w.s, pc, requestID, Env(true, w.now, None, w.now, write)).0
            && w'.flights == w.flights && w'.now == later
  {
    hide DocID, Run, ValidPC, ValidRequestID;
    RunFour(w, BeginRegister(f, pc, requestID), Tick(later), Clock(f), Land(f, write));
  }

  /** A removal by the TTL policy, and the passing of time, are those of the operations too. */
  lemma RemovalIsRemove(w: World, id: string, now: int)
    ensures Next(w, Action.Remove(id)) == w.(s := Asks.Do(w.s, Op.Remove(id, w.now)))
    ensures w.now <= now ==> Next(w, Tick(now)) == w.(now := now)
  {}

  // ----- What overlapping requests may do to an expiry -----

  /** A question lives no longer than its TTL from the latest clock of its registrations and answers; just
      its TTL from the last one to land while undelivered; and once delivered that, or no longer than the
      grace from its last delivery. */
  predicate ExpirySound(w: World, id: string)
    requires id in w.s.asks
  {
    var d := w.s.asks[id];
    && id in w.renewed
    && d.expireAt <= w.renewed[id].latest + TTL
    && (d.expireAt == w.renewed[id].last + TTL || (d.deliveredAt.Some? && d.expireAt <= d.deliveredAt.value + GRACE))
  }

  predicate RenewalSound(w: World, id: string)
    requires id in w.renewed
  {
    w.renewed[id].last <= w.renewed[id].latest <= w.now
  }

  /** What a take still holds is an undelivered reply that was renewed no later than the latest renewal;
      no request carries a clock of the future. */
  predicate FlightSound(w: World, f: nat)
    requires f in w.flights
  {
    var g := w.flights[f];
    && (g.at.Some? ==> g.at.value <= w.now)
    && match g
       case Registering(id, at, pc, requestID) =>
         at.Some? && id == DocID(pc, requestID) && ValidPC(pc) && ValidRequestID(requestID)
       case Taking(id, _, read) =>
         read.deliveredAt.None? && read.answer != "" && id in w.renewed && read.expireAt <= w.renewed[id].latest + TTL
       case Answering(_, _, text) => text != ""
  }

  ghost predicate Sound(w: World) {
    && (forall id :: id in w.s.asks ==> ExpirySound(w, id))
    && (forall id :: id in w.renewed ==> RenewalSound(w, id))
    && (forall f :: f in w.flights ==> FlightSound(w, f))
  }

  lemma LandKeepsExpiry(w: World, f: nat, write: WriteResult, id: string)
    requires Enabled(w, Land(f, write)) && id in Do(w, Land(f, write)).s.asks
    requires FlightSound(w, f) && (id in w.s.asks ==> ExpirySound(w, id))
    ensures ExpirySound(Do(w, Land(f, write)), id)
  {
    hide DocID, ValidPC, ValidRequestID;
  }

  lemma ExpiryStep(w: World, a: Action, id: string)
    requires Sound(w) && Enabled(w, a) && id in Do(w, a).s.asks
    ensures ExpirySound(Do(w, a), id)
  {
    hide DocID, ValidPC, ValidRequestID, ValidText, RenewalSound, FlightSound, Landed, RenewedBy;
    if a.Land? {
      assert FlightSound(w, a.f) && (id in w.s.asks ==> ExpirySound(w, id));
      LandKeepsExpiry(w, a.f, a.write, id);
    } else {
      assert id in w.s.asks && ExpirySound(w, id);
    }
  }

  lemma RenewalStep(w: World, a: Action, id: string)
    requires Sound(w) && Enabled(w, a) && id in Do(w, a).renewed
    ensures RenewalSound(Do(w, a), id)
    ensures id in w.renewed ==> w.renewed[id].latest <= Do(w, a).renewed[id].latest
  {
    hide DocID, ValidPC, ValidRequestID, ValidText, ExpirySound;
    if id in w.renewed { assert RenewalSound(w, id); }
    if a.Land? { assert FlightSound(w, a.f); }
  }

  lemma FlightStep(w: World, a: Action, f: nat)
    requires Sound(w) && Enabled(w, a) && f in Do(w, a).flights
    requires forall id :: id in w.renewed ==>
               id in Do(w, a).renewed && w.renewed[id].latest <= Do(w, a).renewed[id].latest
    ensures FlightSound(Do(w, a), f)
  {
    hide DocID, ValidPC, ValidRequestID, RenewalSound;
    if f in w.flights { assert FlightSound(w, f); }
    if a.ReadForTake? {
      var id := DocID(a.pc, a.requestID);
      if id in w.s.asks { assert ExpirySound(w, id); }
    }
  }

  lemma RenewalsStay(w: World, a: Action)
    requires Enabled(w, a)
    ensures w.renewed.Keys <= Do(w, a).renewed.Keys
  {
    hide DocID;
  }

  lemma StepSound(w: World, a: Action)
    requires Sound(w) && Enabled(w, a)
    ensures Sound(Do(w, a))
  {
    hide ExpirySound, FlightSound, RenewalSound, Do, Enabled;
    RenewalsStay(w, a);
    forall id | id in Do(w, a).renewed
      ensures RenewalSound(Do(w, a), id) && (id in w.renewed ==> w.renewed[id].latest <= Do(w, a).renewed[id].latest)
    {
      RenewalStep(w, a, id);
    }
    forall id | id in Do(w, a).s.asks ensures ExpirySound(Do(w, a), id) { ExpiryStep(w, a, id); }
    forall f | f in Do(w, a).flights ensures FlightSound(Do(w, a), f) { FlightStep(w, a, f); }
  }

  lemma {:induction false} RunSound(w: World, acts: seq<Action>)
    requires Sound(w)
    ensures Sound(Run(w, acts))
    decreases |acts|
  {
    hide Sound, Do, Enabled;
    if acts != [] {
      if Enabled(w, acts[0]) { StepSound(w, acts[0]); }
      RunSound(Next(w, acts[0]), acts[1..]);
    }
  }

  /** However any number of requests overlap, and however late their writes land: a question's expiry is its
      TTL from the last registration or answer to land, or earlier and within the grace of its last delivery. */
  lemma {:induction false} ExpiryIsBounded(acts: seq<Action>, id: string)
    requires id in Run(START, acts).s.asks
    ensures ExpirySound(Run(START, acts), id)
  {
    hide ExpirySound, Run;
    RunSound(START, acts);
  }

  /** Exactly when a take's write makes the expiry later: the question has been delivered since to an expiry
      that is short of this take's; or it is undelivered and a renewal with a clock so early has landed
      since the read that its TTL ends before. */
  lemma LaterIff(w: World, f: nat)
    requires Sound(w) && f in w.flights && w.flights[f].Taking? && w.flights[f].at.Some? && w.flights[f].id in w.s.asks
    ensures var g := w.flights[f];
            var d, mine := w.s.asks[g.id], Min(g.read.expireAt, g.at.value + GRACE);
            Landed(w.s, g, Ok).0.asks[g.id].expireAt > d.expireAt
            <==> if d.deliveredAt.Some? then d.expireAt < mine else w.renewed[g.id].last + TTL < mine
  {
    assert FlightSound(w, f) && ExpirySound(w, w.flights[f].id);
  }

  /** So with renewals that land in the order of their clocks, only a delivery since the read allows it. */
  lemma LaterOnlyAfterAnotherMark(w: World, f: nat)
    requires Sound(w) && f in w.flights && w.flights[f].Taking? && w.flights[f].at.Some? && w.flights[f].id in w.s.asks
    requires w.renewed[w.flights[f].id].last == w.renewed[w.flights[f].id].latest
    ensures var g := w.flights[f];
            Landed(w.s, g, Ok).0.asks[g.id].expireAt > w.s.asks[g.id].expireAt ==> w.s.asks[g.id].deliveredAt.Some?
  {
    assert FlightSound(w, f) && ExpirySound(w, w.flights[f].id);
  }

  /** An answer that lands between a take's read and its write is left with the grace of the reply before it. */
  lemma AnswerBetweenGetsOldGrace(w: World, take: nat, answer: nat)
    requires Sound(w) && take != answer && take in w.flights && answer in w.flights
    requires w.flights[take].Taking? && w.flights[answer].Answering? && w.flights[take].id == w.flights[answer].id
    requires w.flights[take].at.Some? && w.flights[answer].at.Some? && w.flights[take].id in w.s.asks
    ensures var id, read := w.flights[take].id, w.flights[take].read;
            var w1 := Do(w, Land(answer, Ok));
            var (s2, reply) := Landed(w1.s, w1.flights[take], Ok);
            reply == Text(read.answer) && s2.asks[id].answer == w.flights[answer].text &&
            w1.s.asks[id].expireAt == w.flights[answer].at.value + TTL &&
            s2.asks[id].expireAt == Min(read.expireAt, w.flights[take].at.value + GRACE)
  {
    assert FlightSound(w, take);
  }

  // ----- How long a reply lasts -----

  /** The question is neither registered nor answered by a request that begins with this step. */
  predicate LeavesAlone(a: Action, pc: string, requestID: string) {
    a.BeginRegister? || a.ReadForAnswer? ==> (a.pc, a.requestID) != (pc, requestID)
  }

  predicate AllLeaveAlone(acts: seq<Action>, pc: string, requestID: string) {
    forall a :: a in acts ==> LeavesAlone(a, pc, requestID)
  }

  /** A request under way that leaves the question with this text until then: a take of a reply that lasted
      as long, whose clock is not so old that its grace ends before; or an answer with the same text. */
  predicate Harmless(g: Flight, text: string, until: int) {
    match g
    case Registering(_, _, _, _) => false
    case Taking(_, at, read) => until <= read.expireAt && (at.Some? ==> until <= at.value + GRACE)
    case Answering(_, at, other) => other == text && (at.Some? ==> until <= at.value + TTL)
  }

  predicate AllHarmless(w: World, id: string, text: string, until: int) {
    forall f :: f in w.flights && w.flights[f].id == id ==> Harmless(w.flights[f], text, until)
  }

  /** Whoever looks before then finds the text. */
  predicate Lasts(w: World, id: string, text: string, until: int) {
    w.now < until ==> Looked(w, id) == Text(text)
  }

  predicate Holds(w: World, id: string, text: string, until: int) {
    w.now < until ==>
      AllHarmless(w, id, text, until) && id in w.s.asks && w.s.asks[id].answer == text && until <= w.s.asks[id].expireAt
  }

  lemma LandKeepsHolds(w: World, f: nat, write: WriteResult, id: string, text: string, until: int)
    requires Enabled(w, Land(f, write)) && FlightSound(w, f) && Holds(w, id, text, until)
    ensures Holds(Do(w, Land(f, write)), id, text, until)
  {
    hide DocID, ValidPC, ValidRequestID;
  }

  lemma HoldsStep(w: World, a: Action, pc: string, requestID: string, text: string, until: int)
    requires ValidPC(pc) && Enabled(w, a) && LeavesAlone(a, pc, requestID)
    requires forall f :: f in w.flights ==> FlightSound(w, f)
    requires Holds(w, DocID(pc, requestID), text, until) && until <= w.now + GRACE
    ensures Holds(Do(w, a), DocID(pc, requestID), text, until) && until <= Do(w, a).now + GRACE
  {
    hide DocID, Landed, RenewedBy, FlightSound;
    if (a.BeginRegister? || a.ReadForAnswer?) && DocID(a.pc, a.requestID) == DocID(pc, requestID) {
      DocIDInjective(a.pc, a.requestID, pc, requestID);
    } else if a.Land? {
      LandKeepsHolds(w, a.f, a.write, DocID(pc, requestID), text, until);
    }
  }

  lemma {:induction false} HoldsRun(w: World, acts: seq<Action>, pc: string, requestID: string, text: string,
                                    until: int)
    requires Sound(w) && ValidPC(pc) && AllLeaveAlone(acts, pc, requestID)
    requires Holds(w, DocID(pc, requestID), text, until) && until <= w.now + GRACE
    ensures Holds(Run(w, acts), DocID(pc, requestID), text, until)
    decreases |acts|
  {
    hide DocID, LeavesAlone, Do, Enabled, Holds, ExpirySound, RenewalSound, FlightSound;
    if acts != [] {
      assert acts[0] in acts;
      if Enabled(w, acts[0]) {
        HoldsStep(w, acts[0], pc, requestID, text, until);
        StepSound(w, acts[0]);
      }
      HoldsRun(Next(w, acts[0]), acts[1..], pc, requestID, text, until);
    }
  }

  /** A request lands, and time passes until what it leaves has expired. */
  function Spoil(w: World, f: nat): seq<Action>
    requires f in w.flights
  {
    var g := if w.flights[f].at.None? then w.flights[f].(at := Some(w.now)) else w.flights[f];
    var s := Landed(w.s, g, Ok).0;
    (if w.flights[f].at.None? then [Clock(f)] else []) +
    [Land(f, Ok), Tick(if g.id in s.asks then Max(w.now, s.asks[g.id].expireAt) else w.now)]
  }

  /** The same without waiting, for a request that changes the text. */
  function Overwrite(w: World, f: nat): seq<Action>
    requires f in w.flights
  {
    (if w.flights[f].at.None? then [Clock(f)] else []) + [Land(f, Ok)]
  }

  lemma OverwriteEnds(w: World, f: nat)
    requires f in w.flights
    ensures var g := if w.flights[f].at.None? then w.flights[f].(at := Some(w.now)) else w.flights[f];
            var v := Run(w, Overwrite(w, f));
            v.s == Landed(w.s, g, Ok).0 && v.now == w.now
  {
    hide Landed, RenewedBy;
    if w.flights[f].at.None? { RunTwo(w, Clock(f), Land(f, Ok)); } else { RunOne(w, Land(f, Ok)); }
    assert [] + [Land(f, Ok)] == [Land(f, Ok)] && [Clock(f)] + [Land(f, Ok)] == [Clock(f), Land(f, Ok)];
  }

  lemma SpoilEnds(w: World, f: nat)
    requires f in w.flights
    ensures var g := if w.flights[f].at.None? then w.flights[f].(at := Some(w.now)) else w.flights[f];
            var s := Landed(w.s, g, Ok).0;
            var v := Run(w, Spoil(w, f));
            v.s == s && v.now == if g.id in s.asks then Max(w.now, s.asks[g.id].expireAt) else w.now
  {
    hide Landed, RenewedBy, Run;
    var g := if w.flights[f].at.None? then w.flights[f].(at := Some(w.now)) else w.flights[f];
    var s := Landed(w.s, g, Ok).0;
    var last := Tick(if g.id in s.asks then Max(w.now, s.asks[g.id].expireAt) else w.now);
    OverwriteEnds(w, f);
    assert Spoil(w, f) == Overwrite(w, f) + [last];
    RunAppend(w, Overwrite(w, f), [last]);
    RunOne(Run(w, Overwrite(w, f)), last);
  }

  lemma HarmfulSpoils(w: World, f: nat, id: string, text: string, until: int) returns (acts: seq<Action>)
    requires f in w.flights && FlightSound(w, f) && w.flights[f].id == id
    requires id in w.s.asks && text != "" && w.now < until <= w.now + GRACE
    requires !Harmless(w.flights[f], text, until)
    ensures !Lasts(Run(w, acts), id, text, until)
    ensures forall a :: a in acts ==> a.Tick? || a.Clock? || a.Land?
  {
    hide DocID, Run;
    var g := w.flights[f];
    if g.Registering? || (g.Answering? && g.text != text) {
      acts := Overwrite(w, f);
      OverwriteEnds(w, f);
    } else {
      acts := Spoil(w, f);
      SpoilEnds(w, f);
    }
  }

  /** Exactly when a reply lasts, over every continuation that does not begin to register or answer the
      question again: a live question's text is found at every moment before `until`, which is no later
      than its expiry and the grace from now, if and only if every request under way is harmless. */
  lemma ReplyLastsIff(w: World, pc: string, requestID: string, text: string, until: int)
    requires Sound(w) && ValidPC(pc) && DocID(pc, requestID) in w.s.asks
    requires w.s.asks[DocID(pc, requestID)].answer == text && text != ""
    requires w.now < until <= Min(w.s.asks[DocID(pc, requestID)].expireAt, w.now + GRACE)
    ensures (forall acts ::
              AllLeaveAlone(acts, pc, requestID) ==> Lasts(Run(w, acts), DocID(pc, requestID), text, until))
            <==> AllHarmless(w, DocID(pc, requestID), text, until)
  {
    hide DocID, Run, Harmless, ExpirySound, RenewalSound, FlightSound;
    var id := DocID(pc, requestID);
    if AllHarmless(w, id, text, until) {
      forall acts | AllLeaveAlone(acts, pc, requestID) ensures Lasts(Run(w, acts), id, text, until) {
        HoldsRun(w, acts, pc, requestID, text, until);
      }
    } else {
      var f :| f in w.flights && w.flights[f].id == id && !Harmless(w.flights[f], text, until);
      var acts := HarmfulSpoils(w, f, id, text, until);
      assert AllLeaveAlone(acts, pc, requestID);
    }
  }

  // ----- When it is over -----

  /** Nothing under way can keep the question beyond that moment, or change its text. */
  predicate Ending(w: World, id: string, text: string, end: int) {
    && (forall f :: f in w.flights && w.flights[f].id == id ==>
          w.flights[f].Taking? && w.flights[f].read.expireAt <= end)
    && (id in w.s.asks ==> w.s.asks[id].answer == text && w.s.asks[id].expireAt <= end)
  }

  lemma LandKeepsEnding(w: World, f: nat, write: WriteResult, id: string, text: string, end: int)
    requires Enabled(w, Land(f, write)) && FlightSound(w, f) && Ending(w, id, text, end)
    ensures Ending(Do(w, Land(f, write)), id, text, end)
  {
    hide DocID, ValidPC, ValidRequestID;
  }

  lemma EndingStep(w: World, a: Action, pc: string, requestID: string, text: string, end: int)
    requires ValidPC(pc) && Enabled(w, a) && LeavesAlone(a, pc, requestID)
    requires forall f :: f in w.flights ==> FlightSound(w, f)
    requires Ending(w, DocID(pc, requestID), text, end)
    ensures Ending(Do(w, a), DocID(pc, requestID), text, end)
  {
    hide DocID, Landed, RenewedBy, FlightSound;
    if (a.BeginRegister? || a.ReadForAnswer?) && DocID(a.pc, a.requestID) == DocID(pc, requestID) {
      DocIDInjective(a.pc, a.requestID, pc, requestID);
    } else if a.Land? {
      LandKeepsEnding(w, a.f, a.write, DocID(pc, requestID), text, end);
    }
  }

  lemma {:induction false} EndingRun(w: World, acts: seq<Action>, pc: string, requestID: string, text: string, end: int)
    requires Sound(w) && ValidPC(pc) && AllLeaveAlone(acts, pc, requestID) && Ending(w, DocID(pc, requestID), text, end)
    ensures Ending(Run(w, acts), DocID(pc, requestID), text, end)
    decreases |acts|
  {
    hide DocID, LeavesAlone, Do, Enabled, Ending, ExpirySound, RenewalSound, FlightSound;
    if acts != [] {
      assert acts[0] in acts;
      if Enabled(w, acts[0]) {
        EndingStep(w, acts[0], pc, requestID, text, end);
        StepSound(w, acts[0]);
      }
      EndingRun(Next(w, acts[0]), acts[1..], pc, requestID, text, end);
    }
  }

  /** However many takes overlap: with no answer or registration under way or to come, whoever looks finds
      the one text or nothing, and nothing once the last of the expiries is over that the question has or
      that a take under way has read. */
  lemma NothingAfter(w: World, acts: seq<Action>, pc: string, requestID: string, text: string, end: int)
    requires Sound(w) && ValidPC(pc) && AllLeaveAlone(acts, pc, requestID) && text != ""
    requires Ending(w, DocID(pc, requestID), text, end)
    ensures var v := Run(w, acts);
            Looked(v, DocID(pc, requestID)) in {Text(text), NotFound} &&
            (v.now >= end ==> Looked(v, DocID(pc, requestID)) == NotFound)
  {
    hide DocID, Run;
    EndingRun(w, acts, pc, requestID, text, end);
  }

  // ----- The runs that show it -----

  lemma RunStep(w: World, acts: seq<Action>, k: nat)
    requires k < |acts|
    ensures Run(w, acts[..k + 1]) == Next(Run(w, acts[..k]), acts[k])
  {
    hide Next, Run;
    assert acts[..k + 1] == acts[..k] + [acts[k]];
    RunAppend(w, acts[..k], [acts[k]]);
    RunOne(Run(w, acts[..k]), acts[k]);
  }

  /** A question registered and answered with "a" at time 0. */
  function AskedAndAnswered(pc: string, requestID: string): seq<Action> {
    [BeginRegister(0, pc, requestID), Land(0, Ok), ReadForAnswer(1, pc, requestID, "a", Ok), Clock(1), Land(1, Ok)]
  }

  function WithAnswer(pc: string, requestID: string): World {
    var id := DocID(pc, requestID);
    World(Store(map[id := Ask(pc, requestID, 0, "a", Some(0), None, TTL)], map[]), 0, map[], map[id := Renewed(0, 0)])
  }

  lemma AskedAndAnsweredEnds(pc: string, requestID: string)
    requires ValidPC(pc) && ValidRequestID(requestID)
    ensures Run(START, AskedAndAnswered(pc, requestID)) == WithAnswer(pc, requestID)
  {
    hide DocID, Run, ValidPC, ValidRequestID;
    var acts := AskedAndAnswered(pc, requestID);
    assert acts[..0] == [] && acts[..5] == acts;
    RunNone(START);
    RunStep(START, acts, 0);
    RunStep(START, acts, 1);
    RunStep(START, acts, 2);
    RunStep(START, acts, 3);
    RunStep(START, acts, 4);
  }

  lemma RunNone(w: World)
    ensures Run(w, []) == w
  {}

  /** Two first takes overlap: the first leaves the question a minute, the second half a minute more. */
  lemma OverlappingTakesExtend(pc: string, requestID: string)
    requires ValidPC(pc) && ValidRequestID(requestID)
    ensures var id := DocID(pc, requestID);
            var acts := [ReadForTake(2, pc, requestID), ReadForTake(3, pc, requestID), Clock(2), Land(2, Ok),
                         Tick(30 * SECOND), Clock(3), Land(3, Ok)];
            var w := WithAnswer(pc, requestID);
            var first, second := Run(w, acts[..4]), Run(w, acts);
            && Run(START, AskedAndAnswered(pc, requestID)) == w
            && id in first.s.asks && first.s.asks[id].expireAt == 60 * SECOND
            && id in second.s.asks && second.s.asks[id].expireAt == 90 * SECOND
  {
    hide DocID, Run, ValidPC, ValidRequestID;
    AskedAndAnsweredEnds(pc, requestID);
    var w := WithAnswer(pc, requestID);
    var acts := [ReadForTake(2, pc, requestID), ReadForTake(3, pc, requestID), Clock(2), Land(2, Ok),
                 Tick(30 * SECOND), Clock(3), Land(3, Ok)];
    assert acts[..0] == [] && acts[..7] == acts;
    RunNone(w);
    RunStep(w, acts, 0);
    RunStep(w, acts, 1);
    RunStep(w, acts, 2);
    RunStep(w, acts, 3);
    RunStep(w, acts, 4);
    RunStep(w, acts, 5);
    RunStep(w, acts, 6);
  }

  /** Near the end of "a" a take reads it, "b" is answered, and another take reads that. */
  function OldTakeAndAnswer(pc: string, requestID: string): seq<Action> {
    [Tick(590 * SECOND), ReadForTake(2, pc, requestID), ReadForAnswer(4, pc, requestID, "b", Ok), Clock(4), Land(4, Ok)]
  }

  function OldAndNewTake(pc: string, requestID: string): seq<Action> {
    OldTakeAndAnswer(pc, requestID) + [ReadForTake(3, pc, requestID), Clock(2), Clock(3)]
  }

  function FirstAnswer(pc: string, requestID: string): Ask {
    Ask(pc, requestID, 0, "a", Some(0), None, TTL)
  }

  lemma OldTakeAndAnswerEnds(pc: string, requestID: string)
    requires ValidPC(pc) && ValidRequestID(requestID)
    ensures var id, d := DocID(pc, requestID), FirstAnswer(pc, requestID);
            var v := Run(WithAnswer(pc, requestID), OldTakeAndAnswer(pc, requestID));
            v.s == Store(map[id := Answered(d, "b", 590 * SECOND)], map[]) && v.now == 590 * SECOND &&
            v.flights == map[2 := Taking(id, None, d)]
  {
    hide DocID, Run, ValidPC, ValidRequestID;
    var w, acts := WithAnswer(pc, requestID), OldTakeAndAnswer(pc, requestID);
    var id := DocID(pc, requestID);
    var take, answer := Taking(id, None, FirstAnswer(pc, requestID)), Answering(id, None, "b");
    assert acts[..0] == [] && acts[..5] == acts;
    RunNone(w);
    RunStep(w, acts, 0);
    RunStep(w, acts, 1);
    RunStep(w, acts, 2);
    assert Run(w, acts[..3]) == w.(now := 590 * SECOND, flights := map[2 := take, 4 := answer]);
    RunStep(w, acts, 3);
    RunStep(w, acts, 4);
  }

  lemma OldAndNewTakeEnds(pc: string, requestID: string)
    requires ValidPC(pc) && ValidRequestID(requestID)
    ensures var id, d := DocID(pc, requestID), FirstAnswer(pc, requestID);
            var e := Answered(d, "b", 590 * SECOND);
            var v := Run(WithAnswer(pc, requestID), OldAndNewTake(pc, requestID));
            v.s == Store(map[id := e], map[]) && v.now == 590 * SECOND &&
            v.flights == map[2 := Taking(id, Some(v.now), d), 3 := Taking(id, Some(v.now), e)]
  {
    hide DocID, Run, OldTakeAndAnswer;
    OldTakeAndAnswerEnds(pc, requestID);
    var w := WithAnswer(pc, requestID);
    var v := Run(w, OldTakeAndAnswer(pc, requestID));
    var acts := [ReadForTake(3, pc, requestID), Clock(2), Clock(3)];
    RunAppend(w, OldTakeAndAnswer(pc, requestID), acts);
    assert acts[..0] == [] && acts[..3] == acts;
    RunNone(v);
    RunStep(v, acts, 0);
    RunStep(v, acts, 1);
    RunStep(v, acts, 2);
  }

  /** At one and the same moment: the old take leaves the question ten seconds, then the new one a minute. */
  lemma NewTakeExtends(pc: string, requestID: string)
    requires ValidPC(pc) && ValidRequestID(requestID)
    ensures var id := DocID(pc, requestID);
            var v := Run(WithAnswer(pc, requestID), OldAndNewTake(pc, requestID));
            var first, second := Run(v, [Land(2, Ok)]), Run(v, [Land(2, Ok), Land(3, Ok)]);
            && first.now == second.now == 590 * SECOND
            && id in first.s.asks && first.s.asks[id].expireAt == 600 * SECOND
            && id in second.s.asks && second.s.asks[id].expireAt == 650 * SECOND
  {
    hide DocID, Run;
    OldAndNewTakeEnds(pc, requestID);
    var v := Run(WithAnswer(pc, requestID), OldAndNewTake(pc, requestID));
    RunOne(v, Land(2, Ok));
    RunTwo(v, Land(2, Ok), Land(3, Ok));
  }

  /** The other way round: "b" is delivered, good for a minute, and is gone eleven seconds later. */
  lemma OldTakeCutsNewReply(pc: string, requestID: string)
    requires ValidPC(pc) && ValidRequestID(requestID)
    ensures var id := DocID(pc, requestID);
            var v := Run(WithAnswer(pc, requestID), OldAndNewTake(pc, requestID));
            var delivered := Run(v, [Land(3, Ok)]);
            var later := Run(v, [Land(3, Ok), Land(2, Ok), Tick(601 * SECOND)]);
            && 3 in v.flights && v.flights[3].at.Some? && Landed(v.s, v.flights[3], Ok).1 == Text("b")
            && id in delivered.s.asks && delivered.s.asks[id].expireAt == 650 * SECOND
            && Looked(later, id) == NotFound
  {
    hide DocID, Run;
    OldAndNewTakeEnds(pc, requestID);
    var v := Run(WithAnswer(pc, requestID), OldAndNewTake(pc, requestID));
    RunOne(v, Land(3, Ok));
    RunTwo(v, Land(3, Ok), Land(2, Ok));
    assert [Land(3, Ok), Land(2, Ok)] + [Tick(601 * SECOND)] == [Land(3, Ok), Land(2, Ok), Tick(601 * SECOND)];
    RunAppend(v, [Land(3, Ok), Land(2, Ok)], [Tick(601 * SECOND)]);
    RunOne(Run(v, [Land(3, Ok), Land(2, Ok)]), Tick(601 * SECOND));
  }
}
