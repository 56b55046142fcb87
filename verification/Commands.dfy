/** state/commands.go: remote commands wait in a PC's queue, are claimed once, run, and are
    acknowledged. Any number of watchers and pollers compete, working from snapshots that may be
    old and may be delivered again and again. */
module Commands {
  import opened Basics

  type Id = string

  /** What the requester fixed. The document's own `id` field is part of it. */
  datatype Body = Body(id: Id, cmd: string, sid: string, agent: string, requestedBy: string, source: string,
                       args: map<string, string>)

  /** A document of the queue. An acknowledgement of an unknown id makes one without a body. */
  datatype Doc = Doc(body: Option<Body>, status: string, detail: string)

  type Queue = map<Id, Doc>

  function Pushed(q: Queue, b: Body, r: WriteResult): Queue {
    if r == Err(false) then q else q[b.id := Doc(Some(b), "pending", "")]
  }

  /** A snapshot that makes a consumer try to claim, and the id it tries. */
  predicate Claimable(snap: Doc) { snap.status == "pending" && snap.body.Some? }

  predicate Pending(q: Queue, id: Id) { id in q && q[id].status == "pending" }

  /** The transaction: pending becomes running. */
  function AfterClaim(q: Queue, id: Id, r: WriteResult): Queue {
    if Pending(q, id) && r != Err(false) then q[id := q[id].(status := "running")] else q
  }

  /** It is handed out only if the transaction is known to have committed. */
  predicate Wins(q: Queue, id: Id, r: WriteResult) { Pending(q, id) && r == Ok }

  /** Set with MergeAll: status and detail are overwritten, the rest stays. */
  function Acked(q: Queue, id: Id, status: string, detail: string, r: WriteResult): Queue {
    if r == Err(false) then q
    else q[id := Doc(if id in q then q[id].body else None, status, detail)]
  }

  // ----- What may be pushed -----

  const VALID_COMMANDS := {
    "restart-agent", "self-update", "restart-proxy", "restart-claude", "update-claude", "update-all", "semi-auto",
    "restart-agent-session", "update-agent-cli", "restart-daemon", "read-pane", "send-input", "interrupt",
    "start-agent-session", "close-pane", "organize"}

  const VALID_AGENTS := {
    "agy", "amp", "claude", "cline", "codex", "copilot", "cursor", "devin", "droid", "gemini", "grok", "hermes", "kilo",
    "kimi", "kiro", "maki", "mastracode", "omp", "opencode", "pi", "qodercli"}

  const ARGS_MAX_BYTES := 16 * 1024

  /** The size of all keys and values; characters stand for bytes. */
  ghost function Size(args: map<string, string>): nat {
    if args == map[] then 0
    else
      var k :| k in args;
      |k| + |args[k]| + Size(args - {k})
  }

  /** It does not matter in which order the arguments are counted. */
  lemma {:induction false} SizeWithout(args: map<string, string>, k: string)
    requires k in args
    ensures Size(args) == |k| + |args[k]| + Size(args - {k})
  {
    var c :| c in args && Size(args) == |c| + |args[c]| + Size(args - {c});
    if c != k {
      SizeWithout(args - {c}, k);
      SizeWithout(args - {k}, c);
      assert (args - {c}) - {k} == (args - {k}) - {c};
    }
  }

  method ValidateArgs(args: map<string, string>) returns (ok: bool)
    ensures ok <==> "" !in args && Size(args) <= 16384
  {
    var total, rest := 0, args;
    while rest != map[]
      invariant rest.Keys <= args.Keys && forall k :: k in rest ==> rest[k] == args[k]
      invariant "" in args ==> "" in rest
      invariant total + Size(rest) == Size(args) && total <= ARGS_MAX_BYTES
      decreases |rest|
    {
      var k :| k in rest;
      SizeWithout(rest, k);
      if k == "" { return false; }
      total := total + |k| + |rest[k]|;
      if total > ARGS_MAX_BYTES { return false; }
      rest := rest - {k};
    }
    return true;
  }

  // ----- The queue -----

  datatype PushReply = Queued | Refused | Failed

  /** What becomes of a poll's claim: a rival is faster, or the transaction ends in r. */
  datatype Fate = Rival | Mine(r: WriteResult)

  function AfterFate(d: Doc, f: Fate): Doc {
    if Claimable(d) && f != Mine(Err(false)) then d.(status := "running") else d
  }

  /** What a poll returns: `order` is the query's result. */
  function Polled(q: Queue, order: seq<Id>, fates: seq<Fate>): seq<Body>
    requires |fates| == |order| && forall id :: id in order ==> id in q
  {
    if order == [] then []
    else
      var n := |order| - 1;
      var d := q[order[n]];
      Polled(q, order[..n], fates[..n]) + if Claimable(d) && fates[n] == Mine(Ok) then [d.body.value] else []
  }

  class CommandQueue {
    var q: Queue

    constructor () ensures q == map[] { q := map[]; }

    method PushCommandArgs(b: Body, r: WriteResult) returns (reply: PushReply)
      modifies this
      ensures reply == Refused <==> b.cmd !in VALID_COMMANDS || (b.agent != "" && b.agent !in VALID_AGENTS) ||
                                    "" in b.args || Size(b.args) > 16384
      ensures q == if reply == Refused || r == Err(false) then old(q)
                   else old(q)[b.id := Doc(Some(b), "pending", "")]
      ensures reply != Refused ==> q == Pushed(old(q), b, r)
      ensures reply == Queued ==> r == Ok
      ensures reply == Failed ==> r.Err?
    {
      if b.cmd !in VALID_COMMANDS { return Refused; }
      if b.agent != "" && b.agent !in VALID_AGENTS { return Refused; }
      var ok := ValidateArgs(b.args);
      if !ok { return Refused; }
      if r != Err(false) { q := q[b.id := Doc(Some(b), "pending", "")]; }
      return if r == Ok then Queued else Failed;
    }

    method ClaimCommandFor(id: Id, r: WriteResult) returns (won: bool)
      modifies this
      ensures var pending := id in old(q) && old(q)[id].status == "pending";
              && (won <==> pending && r == Ok)
              && q == if pending && r != Err(false) then old(q)[id := old(q)[id].(status := "running")] else old(q)
      ensures q == AfterClaim(old(q), id, r) && won == Wins(old(q), id, r)
    {
      if id !in q { return false; }
      if q[id].status != "pending" { return false; }
      if r != Err(false) { q := q[id := q[id].(status := "running")]; }
      return r == Ok;
    }

    method AckCommandFor(id: Id, status: string, detail: string, r: WriteResult) returns (failed: bool)
      modifies this
      ensures var body := if id in old(q) then old(q)[id].body else None;
              q == if r == Err(false) then old(q) else old(q)[id := Doc(body, status, detail)]
      ensures q == Acked(old(q), id, status, detail, r) && (failed <==> r.Err?)
    {
      if r != Err(false) {
        var b := if id in q then q[id].body else None;
        q := q[id := Doc(b, status, detail)];
      }
      return r.Err?;
    }

    /** A claim of this poll, after the rival's if there is one. */
    method ClaimAs(id: Id, f: Fate) returns (won: bool)
      requires id in q && Claimable(q[id])
      modifies this
      ensures q == old(q)[id := AfterFate(old(q)[id], f)] && won == (f == Mine(Ok))
    {
      if f == Rival { var _ := ClaimCommandFor(id, Ok); }
      won := ClaimCommandFor(id, if f.Mine? then f.r else Ok);
    }

    /** Only what this poll is known to have claimed is returned, in the query's order. Every document of
        the query's result ends as its own fate says, a document without an id field as it was. */
    method ClaimPendingCommands(order: seq<Id>, fates: seq<Fate>) returns (out: seq<Body>)
      requires |fates| == |order| && forall i, j :: 0 <= i < j < |order| ==> order[i] != order[j]
      requires forall id :: id in order ==> id in q && (q[id].body.Some? ==> q[id].body.value.id == id)
      modifies this
      ensures out == Polled(old(q), order, fates)
      ensures q.Keys == old(q).Keys
      ensures forall i :: 0 <= i < |order| ==>
                var d := old(q)[order[i]];
                q[order[i]] == if d.status == "pending" && d.body.Some? && fates[i] != Mine(Err(false))
                               then d.(status := "running") else d
      ensures forall id :: id in q && id !in order ==> q[id] == old(q)[id]
    {
      hide Polled;
      out := [];
      var snapshot := q;
      NothingPolled(q);
      for i := 0 to |order|
        invariant out == Polled(snapshot, order[..i], fates[..i])
        invariant q.Keys == snapshot.Keys && snapshot == old(q)
        invariant forall j :: 0 <= j < i ==> q[order[j]] == AfterFate(snapshot[order[j]], fates[j])
        invariant forall j :: i <= j < |order| ==> q[order[j]] == snapshot[order[j]]
        invariant forall id :: id in q && id !in order ==> q[id] == snapshot[id]
      {
        var id := order[i];
        PolledStep(snapshot, order, fates, i);
        var cm := snapshot[id];
        if cm.status == "pending" && cm.body.Some? {
          var won := ClaimAs(cm.body.value.id, fates[i]);
          if won { out := out + [cm.body.value]; }
        }
      }
      assert order[..|order|] == order && fates[..|order|] == fates;
    }
  }

  lemma NothingPolled(q: Queue)
    ensures Polled(q, [], []) == []
  {}

  lemma PolledStep(q: Queue, order: seq<Id>, fates: seq<Fate>, i: nat)
    requires i < |order| == |fates| && forall id :: id in order ==> id in q
    ensures var d := q[order[i]];
            Polled(q, order[..i + 1], fates[..i + 1])
            == Polled(q, order[..i], fates[..i]) + if Claimable(d) && fates[i] == Mine(Ok) then [d.body.value] else []
  {
    assert order[..i + 1][..i] == order[..i] && fates[..i + 1][..i] == fates[..i];
  }

  /** What a poll returns: the requests of just those documents of the query that were pending and that it
      is known to have claimed. */
  lemma {:induction false} PolledIff(q: Queue, order: seq<Id>, fates: seq<Fate>, b: Body)
    requires |fates| == |order| && forall id :: id in order ==> id in q
    ensures b in Polled(q, order, fates) <==>
            exists i :: 0 <= i < |order| && q[order[i]].status == "pending" && q[order[i]].body == Some(b) &&
              fates[i] == Mine(Ok)
  {
    if order != [] {
      var n := |order| - 1;
      PolledIff(q, order[..n], fates[..n], b);
    }
  }

  /** In the query's order: what is claimed of its first k documents comes first, and is at most k. */
  lemma {:induction false} PolledInOrder(q: Queue, order: seq<Id>, fates: seq<Fate>, k: nat)
    requires |fates| == |order| && k <= |order| && forall id :: id in order ==> id in q
    ensures Polled(q, order[..k], fates[..k]) <= Polled(q, order, fates)
    ensures |Polled(q, order, fates)| <= |order|
  {
    hide Claimable;
    if k == |order| {
      assert order[..k] == order && fates[..k] == fates;
      if k > 0 { PolledInOrder(q, order[..k - 1], fates[..k - 1], 0); }
    } else {
      var n := |order| - 1;
      PolledInOrder(q, order[..n], fates[..n], k);
      assert order[..n][..k] == order[..k] && fates[..n][..k] == fates[..k];
    }
  }

  /** What a listener hears: the document as it is, or that it is not there, or that listening ended. */
  datatype Heard = Snapshot(d: Option<Doc>) | Broken | Deadline

  datatype Waited = Finished(d: Doc) | TimedOut | WaitFailed

  /** WaitCommand on what is heard until the deadline. What decides it is the first final snapshot, error of
      the listener, or deadline; every snapshot before that shows no document or one that is not final. */
  method WaitCommand(hs: seq<Heard>) returns (r: Waited)
    requires hs != [] && hs[|hs| - 1] == Deadline
    ensures exists i :: 0 <= i < |hs| &&
              (forall j :: 0 <= j < i ==>
                var h := hs[j];
                h.Snapshot? && (h.d.Some? ==> h.d.value.status != "done" && h.d.value.status != "error")) &&
              match hs[i]
              case Broken => r == WaitFailed
              case Deadline => r == TimedOut
              case Snapshot(d) => d.Some? && d.value.status in ["done", "error"] && r == Finished(d.value)
  {
    var i := 0;
    while true
      invariant 0 <= i < |hs|
      invariant forall j :: 0 <= j < i ==>
                  var h := hs[j];
                  h.Snapshot? && (h.d.Some? ==> h.d.value.status != "done" && h.d.value.status != "error")
      decreases |hs| - i
    {
      match hs[i] {
        case Broken => return WaitFailed;
        case Deadline => return TimedOut;
        case Snapshot(d) =>
          if d.Some? && (d.value.status == "done" || d.value.status == "error") { return Finished(d.value); }
      }
      i := i + 1;
    }
  }

  // ----- Every run -----

  datatype Event = HandedOut(actor: nat, id: Id, body: Body) | Reopened(id: Id)

  /** The queue, every document state that has ever been visible, the commands pushed, and the log. */
  datatype World = World(q: Queue, past: set<(Id, Doc)>, pushed: map<Id, Body>, log: seq<Event>)

  const START := World(map[], {}, map[], [])

  datatype Action =
    | Push(b: Body, r: WriteResult)
    | Claim(actor: nat, id: Id, snap: Doc, r: WriteResult)      // on a snapshot, current or old
    | Ack(id: Id, status: string, detail: string, r: WriteResult)

  predicate Enabled(w: World, a: Action) {
    match a
    case Push(b, _) => b.id !in w.q && b.id !in w.pushed     // ids are random: new
    case Claim(_, id, snap, _) => (id, snap) in w.past && Claimable(snap)
    case Ack(_, _, _, _) => true
  }

  function Visible(past: set<(Id, Doc)>, q: Queue, id: Id): set<(Id, Doc)> {
    if id in q then past + {(id, q[id])} else past
  }

  function Do(w: World, a: Action): World
    requires Enabled(w, a)
  {
    match a
    case Push(b, r) =>
      var q := Pushed(w.q, b, r);
      World(q, Visible(w.past, q, b.id), w.pushed[b.id := b], w.log)
    case Claim(actor, _, snap, r) =>
      var id := snap.body.value.id;
      var q := AfterClaim(w.q, id, r);
      World(q, Visible(w.past, q, id), w.pushed,
            w.log + if Wins(w.q, id, r) then [HandedOut(actor, id, snap.body.value)] else [])
    case Ack(id, status, detail, r) =>
      var q := Acked(w.q, id, status, detail, r);
      World(q, Visible(w.past, q, id), w.pushed,
            w.log + if status == "pending" && r != Err(false) then [Reopened(id)] else [])
  }

  function Next(w: World, a: Action): World { if Enabled(w, a) then Do(w, a) else w }

  function Run(w: World, acts: seq<Action>): World
    decreases |acts|
  {
    if acts == [] then w else Run(Next(w, acts[0]), acts[1..])
  }

  function Handouts(log: seq<Event>, id: Id): nat {
    if log == [] then 0
    else Handouts(log[..|log| - 1], id) +
         if log[|log| - 1].HandedOut? && log[|log| - 1].id == id then 1 else 0
  }

  function Reopens(log: seq<Event>, id: Id): nat {
    if log == [] then 0
    else Reopens(log[..|log| - 1], id) + if log[|log| - 1] == Reopened(id) then 1 else 0
  }

  lemma LogStep(log: seq<Event>, ev: Event, id: Id)
    ensures Handouts(log + [ev], id) == Handouts(log, id) + if ev.HandedOut? && ev.id == id then 1 else 0
    ensures Reopens(log + [ev], id) == Reopens(log, id) + if ev == Reopened(id) then 1 else 0
  {
    assert (log + [ev])[..|log|] == log;
  }

  /** A document is pushed data under its id, or was made by an acknowledgement. */
  predicate DocSound(w: World, id: Id, d: Doc) {
    d.body.Some? ==> id in w.pushed && w.pushed[id] == d.body.value && d.body.value.id == id
  }

  predicate EventSound(w: World, ev: Event) {
    ev.HandedOut? ==> ev.id in w.pushed && ev.body == w.pushed[ev.id]
  }

  predicate IdCounted(w: World, id: Id) {
    Handouts(w.log, id) + (if Pending(w.q, id) then 1 else 0)
    <= (if id in w.pushed then 1 else 0) + Reopens(w.log, id)
  }

  ghost predicate Sound(w: World) {
    && (forall id :: id in w.q ==> (id, w.q[id]) in w.past)
    && (forall id, d :: (id, d) in w.past ==> DocSound(w, id, d))
    && (forall i :: 0 <= i < |w.log| ==> EventSound(w, w.log[i]))
    && (forall id :: IdCounted(w, id))
    && (forall id :: id in w.pushed ==> w.pushed[id].id == id)
  }

  lemma DocsStep(w: World, a: Action)
    requires Sound(w) && Enabled(w, a)
    ensures var w' := Do(w, a);
            (forall id :: id in w'.q ==> (id, w'.q[id]) in w'.past) &&
            (forall id, d :: (id, d) in w'.past ==> DocSound(w', id, d))
  {
    hide Handouts, Reopens, IdCounted;
    var w' := Do(w, a);
    forall id, d | (id, d) in w'.past ensures DocSound(w', id, d) {
      if (id, d) in w.past {
        assert DocSound(w, id, d);
      } else if a.Claim? {
        assert DocSound(w, id, w.q[id]);
      } else if a.Ack? && id in w.q {
        assert DocSound(w, id, w.q[id]);
      }
    }
  }

  lemma EventsStep(w: World, a: Action)
    requires Sound(w) && Enabled(w, a)
    ensures forall i :: 0 <= i < |Do(w, a).log| ==> EventSound(Do(w, a), Do(w, a).log[i])
  {
    hide Handouts, Reopens, IdCounted;
    var w' := Do(w, a);
    if a.Claim? { assert DocSound(w, a.id, a.snap); }
    forall i | 0 <= i < |w'.log| ensures EventSound(w', w'.log[i]) {
      if i < |w.log| { assert EventSound(w, w.log[i]); }
    }
  }

  lemma CountStep(w: World, a: Action, id: Id)
    requires Sound(w) && Enabled(w, a)
    ensures IdCounted(Do(w, a), id)
  {
    hide Handouts, Reopens;
    assert IdCounted(w, id);
    if a.Claim? {
      LogStep(w.log, HandedOut(a.actor, a.snap.body.value.id, a.snap.body.value), id);
    } else if a.Ack? {
      LogStep(w.log, Reopened(a.id), id);
    }
    assert w.log + [] == w.log;
  }

  lemma StepSound(w: World, a: Action)
    requires Sound(w) && Enabled(w, a)
    ensures Sound(Do(w, a))
  {
    hide DocSound, EventSound, IdCounted;
    DocsStep(w, a);
    EventsStep(w, a);
    forall id ensures IdCounted(Do(w, a), id) { CountStep(w, a, id); }
    PushedStep(w, a);
  }

  lemma PushedStep(w: World, a: Action)
    requires Enabled(w, a)
    requires forall id :: id in w.pushed ==> w.pushed[id].id == id
    ensures forall id :: id in Do(w, a).pushed ==> Do(w, a).pushed[id].id == id
    ensures forall id :: id in w.pushed ==> id in Do(w, a).pushed && Do(w, a).pushed[id] == w.pushed[id]
  {}

  lemma {:induction false} RunSound(w: World, acts: seq<Action>)
    requires Sound(w)
    ensures Sound(Run(w, acts))
    decreases |acts|
  {
    hide Sound, Do, Enabled;
    if acts != [] {
      if Enabled(w, acts[0]) { StepSound(w, acts[0]); }
      RunSound(Next(w, acts[0]), acts[1..]);
    }
  }

  ghost predicate Reachable(w: World) { exists acts :: w == Run(START, acts) }

  lemma ReachableSound(w: World)
    requires Reachable(w)
    ensures Sound(w)
  {
    hide Run;
    var acts :| w == Run(START, acts);
    RunSound(START, acts);
  }

  // ----- The theorems -----

  /** However snapshots are delivered and consumers race, a command is handed out at most once, and
      once more for each acknowledgement that sets its status back to pending. */
  lemma {:induction false} HandoutsBounded(w: World, id: Id)
    requires Reachable(w)
    ensures Handouts(w.log, id) <= (if id in w.pushed then 1 else 0) + Reopens(w.log, id)
  {
    hide DocSound, EventSound;
    ReachableSound(w);
    assert IdCounted(w, id);
  }

  lemma {:induction false} NeverReopened(log: seq<Event>, id: Id)
    requires Reopened(id) !in log
    ensures Reopens(log, id) == 0
  {
    if log != [] { NeverReopened(log[..|log| - 1], id); }
  }

  /** With acknowledgements of done or error only, at most once. */
  lemma {:induction false} HandedOutAtMostOnce(w: World, id: Id)
    requires Reachable(w) && Reopened(id) !in w.log
    ensures Handouts(w.log, id) <= 1
  {
    HandoutsBounded(w, id);
    NeverReopened(w.log, id);
  }

  /** The condition is exact. After a handout a further claim succeeds if and only if the status is
      pending again, which only an acknowledgement that said so can have caused. */
  lemma {:induction false} SecondHandoutIffReopened(w: World, a: Action, id: Id)
    requires Reachable(w) && a.Claim? && a.id == id && a.r == Ok && Enabled(w, a) && Handouts(w.log, id) >= 1
    ensures Handouts(Do(w, a).log, id) == Handouts(w.log, id) + 1 <==> Pending(w.q, id)
    ensures Pending(w.q, id) ==> Reopened(id) in w.log
  {
    hide Handouts, Reopens, EventSound;
    ReachableSound(w);
    assert DocSound(w, id, a.snap);
    assert IdCounted(w, id);
    LogStep(w.log, HandedOut(a.actor, id, a.snap.body.value), id);
    assert w.log + [] == w.log;
    if Reopened(id) !in w.log { NeverReopened(w.log, id); }
  }

  /** The endpoint passes the acknowledged status through unchecked, so this run is possible. */
  lemma AckPendingHandsOutTwice(b: Body)
    ensures var d := Doc(Some(b), "pending", "");
            var w := Run(START, [Push(b, Ok), Claim(0, b.id, d, Ok), Ack(b.id, "pending", "", Ok),
                                 Claim(1, b.id, d, Ok)]);
            w.log == [HandedOut(0, b.id, b), Reopened(b.id), HandedOut(1, b.id, b)]
  {
    hide Run;
    var d := Doc(Some(b), "pending", "");
    var a1, a2, a3, a4 := Push(b, Ok), Claim(0, b.id, d, Ok), Ack(b.id, "pending", "", Ok), Claim(1, b.id, d, Ok);
    var w1 := Next(START, a1);
    var w2 := Next(w1, a2);
    var w3 := Next(w2, a3);
    RunFour(START, a1, a2, a3, a4);
  }

  lemma RunFour(w: World, a: Action, b: Action, c: Action, d: Action)
    ensures Run(w, [a, b, c, d]) == Next(Next(Next(Next(w, a), b), c), d)
  {
    hide Do, Enabled;
    assert [a, b, c, d][1..] == [b, c, d] && [b, c, d][1..] == [c, d] && [c, d][1..] == [d] && [d][1..] == [];
    assert Run(w, [a, b, c, d]) == Run(Next(w, a), [b, c, d]);
    assert Run(Next(w, a), [b, c, d]) == Run(Next(Next(w, a), b), [c, d]);
    assert Run(Next(Next(w, a), b), [c, d]) == Run(Next(Next(Next(w, a), b), c), [d]);
  }

  /** The life of a command, from any moment and whatever else is queued: pushed it is pending and not
      answered; claimed it is running, and handed out; acknowledged it has the status and the detail that
      were reported. No other document changes. */
  lemma LifeOfACommand(w: World, b: Body, actor: nat, status: string, detail: string)
    requires b.id !in w.q && b.id !in w.pushed
    ensures var pending := Doc(Some(b), "pending", "");
            var w1 := Run(w, [Push(b, Ok)]);
            var w2 := Run(w, [Push(b, Ok), Claim(actor, b.id, pending, Ok)]);
            var w3 := Run(w, [Push(b, Ok), Claim(actor, b.id, pending, Ok), Ack(b.id, status, detail, Ok)]);
            && w1.q == w.q[b.id := pending] && w1.log == w.log
            && w2.q == w.q[b.id := Doc(Some(b), "running", "")] && w2.log == w.log + [HandedOut(actor, b.id, b)]
            && w3.q == w.q[b.id := Doc(Some(b), status, detail)]
            && (status != "pending" ==> w3.log == w2.log)
  {
    hide Run;
    var d := Doc(Some(b), "pending", "");
    RunThree(w, Push(b, Ok), Claim(actor, b.id, d, Ok), Ack(b.id, status, detail, Ok));
  }

  /** What the log records: a handout just when a claim finds the command pending and is known to have
      committed, a reopening just when an acknowledgement that says pending lands. */
  lemma LogMeans(w: World, a: Action)
    requires Enabled(w, a)
    ensures Do(w, a).log == w.log +
              match a
              case Push(_, _) => []
              case Claim(actor, _, snap, r) =>
                var b := snap.body.value;
                if b.id in w.q && w.q[b.id].status == "pending" && r == Ok then [HandedOut(actor, b.id, b)] else []
              case Ack(id, status, _, r) => if status == "pending" && r != Err(false) then [Reopened(id)] else []
  {
    assert w.log + [] == w.log;
  }

  lemma RunThree(w: World, a: Action, b: Action, c: Action)
    ensures Run(w, [a]) == Next(w, a) && Run(w, [a, b]) == Next(Next(w, a), b)
    ensures Run(w, [a, b, c]) == Next(Next(Next(w, a), b), c)
  {
    hide Do, Enabled;
    assert [a, b, c][1..] == [b, c] && [a, b][1..] == [b] && [b, c][1..] == [c] && [c][1..] == [] && [b][1..] == [];
    assert [a][1..] == [];
    assert Run(w, [a]) == Run(Next(w, a), []);
    assert Run(w, [a, b]) == Run(Next(w, a), [b]) && Run(Next(w, a), [b]) == Run(Next(Next(w, a), b), []);
    assert Run(w, [a, b, c]) == Run(Next(w, a), [b, c]) && Run(Next(w, a), [b, c]) == Run(Next(Next(w, a), b), [c]);
    assert Run(Next(Next(w, a), b), [c]) == Run(Next(Next(Next(w, a), b), c), []);
  }

  /** Every handed-out command is, field by field, the one that was pushed under its id, however old
      the snapshot it was claimed on. */
  lemma {:induction false} HandsOutWhatWasPushed(w: World, i: nat)
    requires Reachable(w) && i < |w.log| && w.log[i].HandedOut?
    ensures w.log[i].id in w.pushed && w.log[i].body == w.pushed[w.log[i].id]
  {
    hide DocSound, IdCounted;
    ReachableSound(w);
    assert EventSound(w, w.log[i]);
  }

  /** Acknowledgements say done or error. */
  predicate Proper(a: Action) {
    a.Ack? ==> a.status == "done" || a.status == "error"
  }

  /** One command, from one moment to a later one: its request is the same; it is pending only if it was, and
      running only if it was that or pending; and a new final status is done or error. */
  predicate Advances(q: Queue, q': Queue, id: Id) {
    id in q ==>
      && id in q' && q'[id].body == q[id].body
      && (q'[id].status == "pending" ==> q[id].status == "pending")
      && (q'[id].status == "running" ==> q[id].status in ["pending", "running"])
      && (q'[id].status in ["pending", "running", "done", "error"] || q'[id].status == q[id].status)
  }

  lemma AdvancesStep(w: World, a: Action, id: Id)
    requires Enabled(w, a) && Proper(a)
    ensures Advances(w.q, Do(w, a).q, id)
  {}

  /** Over every run: claims and acknowledgements never change what was asked, and the status only
      moves forward, from pending to running to a final one. */
  lemma {:induction false} OnlyForward(w: World, acts: seq<Action>, id: Id)
    requires forall a :: a in acts ==> Proper(a)
    ensures Advances(w.q, Run(w, acts).q, id)
    decreases |acts|
  {
    hide Do, Enabled;
    if acts != [] {
      if Enabled(w, acts[0]) { AdvancesStep(w, acts[0], id); }
      assert forall a :: a in acts[1..] ==> a in acts;
      OnlyForward(Next(w, acts[0]), acts[1..], id);
    }
  }
}
