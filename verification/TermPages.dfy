/** The page's pipe in web/static/term.js: what the META filter lets through goes to a synchronized-output
    filter made anew for each connection, and from there to the terminal. */
module TermPages {
  import opened Basics
  import opened Framing
  import opened MetaHistory
  import opened MetaPages
  import MetaFilter
  import SyncFilter

  /** A page, its present synchronized-output filter, and the terminal's writes so far. */
  datatype Term = Term(page: Page, sync: State, writes: seq<Piece>)

  /** The callback of the META filter: emitted text is fed on, a payload is not. */
  function FeedOn(st: State, call: Piece): Fed {
    match call case Text(t) => Feed(SyncFilter.SyncMarks(), st, t) case Frame(_) => Fed([], st)
  }

  function FeedAllOn(st: State, calls: seq<Piece>): Fed
    decreases |calls|
  {
    if calls == [] then Fed([], st)
    else
      var first := FeedOn(st, calls[0]);
      var rest := FeedAllOn(first.st, calls[1..]);
      Fed(first.pieces + rest.pieces, rest.st)
  }

  function Shows(t: Term, op: Op): Term {
    match op
    case Chunk(bytes) =>
      var fed := Feed(MetaFilter.MetaMarks(), t.page.st, bytes);
      var on := FeedAllOn(t.sync, MetaFilter.Calls(t.page.gate, fed.pieces));
      Term(Step(t.page, op), on.st, t.writes + on.pieces)
    case Reconnect => Term(Step(t.page, op), INITIAL, t.writes)
  }

  function Show(ops: seq<Op>): (t: Term)
    ensures t.page == Life(ops)
  {
    if ops == [] then Term(Life([]), INITIAL, [])
    else Shows(Show(ops[..|ops| - 1]), ops[|ops| - 1])
  }

  // ----- The reference -----

  /** The text among calls of emit and onMeta. */
  function TextOf(calls: seq<Piece>): seq<Byte>
    decreases |calls|
  {
    if calls == [] then [] else (if calls[0].Text? then calls[0].bytes else []) + TextOf(calls[1..])
  }

  /** The text of a connection's bytes that gets through. */
  function Through(g: MetaFilter.Gate, x: seq<Byte>): seq<Byte> {
    TextOf(MetaFilter.Calls(g, Seen(MetaFilter.MetaMarks(), Split(MetaFilter.MetaMarks(), x)).pieces))
  }

  function SeenSync(x: seq<Byte>): Fed { Seen(SyncFilter.SyncMarks(), Split(SyncFilter.SyncMarks(), x)) }

  /** The gate that a connection finds. */
  function GateFor(ws: seq<seq<Byte>>): MetaFilter.Gate { OneShot(ws).gate.(inHist := false) }

  /** One-shot on each connection: strip and gate its bytes, then cut what is left at its blocks. */
  function OneShotWrites(ws: seq<seq<Byte>>): seq<Piece> {
    if ws == [] then []
    else
      var init := ws[..|ws| - 1];
      Join(OneShotWrites(init), SeenSync(Through(GateFor(init), ws[|ws| - 1])).pieces)
  }

  // ----- Text does not depend on where it was cut -----

  lemma {:induction false} TextOfAppend(a: seq<Piece>, b: seq<Piece>)
    ensures TextOf(a + b) == TextOf(a) + TextOf(b)
    decreases |a|
  {
    if a == [] {
      assert a + b == b;
    } else {
      assert (a + b)[0] == a[0] && (a + b)[1..] == a[1..] + b;
      TextOfAppend(a[1..], b);
    }
  }

  lemma TextOfOne(p: Piece)
    ensures TextOf([p]) == if p.Text? then p.bytes else []
  {
    assert [p][1..] == [];
    assert TextOf([]) == [];
  }

  lemma TextOfPush(out: seq<Piece>, p: Piece)
    ensures TextOf(Push(out, p)) == TextOf(out + [p])
  {
    hide TextOf;
    TextOfAppend(out, [p]);
    TextOfOne(p);
    if p.Text? && p.bytes != [] && out != [] && out[|out| - 1].Text? {
      var init, t := out[..|out| - 1], out[|out| - 1];
      assert out == init + [t];
      TextOfAppend(init, [t]);
      TextOfOne(t);
      TextOfAppend(init, [Text(t.bytes + p.bytes)]);
      TextOfOne(Text(t.bytes + p.bytes));
    }
  }

  lemma {:induction false} TextOfJoin(out: seq<Piece>, ps: seq<Piece>)
    ensures TextOf(Join(out, ps)) == TextOf(out + ps)
    decreases |ps|
  {
    hide TextOf, Push;
    if ps == [] {
      assert out + ps == out;
    } else {
      TextOfJoin(Push(out, ps[0]), ps[1..]);
      TextOfPush(out, ps[0]);
      TextOfAppend(Push(out, ps[0]), ps[1..]);
      TextOfAppend(out + [ps[0]], ps[1..]);
      assert (out + [ps[0]]) + ps[1..] == out + ps;
    }
  }

  lemma SameText(a: seq<Piece>, b: seq<Piece>)
    requires Join([], a) == Join([], b)
    ensures TextOf(a) == TextOf(b)
  {
    hide Join, TextOf;
    TextOfJoin([], a);
    TextOfJoin([], b);
    assert [] + a == a && [] + b == b;
  }

  // ----- One more chunk of a connection -----

  /** What gets through of a longer stream is what got through and what the chunk adds. */
  lemma ThroughContinues(g: MetaFilter.Gate, x: seq<Byte>, c: seq<Byte>)
    ensures var s := Connected(g, [], x);
            var fed := Feed(MetaFilter.MetaMarks(), s.st, c);
            Through(g, x + c) == Through(g, x) + TextOf(MetaFilter.Calls(s.gate, fed.pieces))
  {
    hide MetaFilter.OscMarker, MetaFilter.StMarker, Feed, Seen;
    hide Split, Join, MetaFilter.Calls, MetaFilter.GateAfter, TextOf;
    var m := MetaFilter.MetaMarks();
    var ps := Seen(m, Split(m, x)).pieces;
    var fed := Feed(m, Seen(m, Split(m, x)).st, c);
    var all := Seen(m, Split(m, x + c)).pieces;
    Resume(m, x, c, []);
    JoinNone([]);
    JoinAppend([], ps, fed.pieces);
    CallsJoined(g, ps + fed.pieces);
    CallsJoined(g, all);
    SameText(MetaFilter.Calls(g, ps + fed.pieces), MetaFilter.Calls(g, all));
    MetaFilter.CallsAppend(g, ps, fed.pieces);
    TextOfAppend(MetaFilter.Calls(g, ps), MetaFilter.Calls(MetaFilter.GateAfter(g, ps), fed.pieces));
  }

  /** Feeding on call by call comes to the one-shot cut of the text so far. */
  lemma {:induction false} FeedOnContinues(x: seq<Byte>, calls: seq<Piece>, out: seq<Piece>)
    ensures var s, f := SeenSync(x), FeedAllOn(SeenSync(x).st, calls);
            var all := SeenSync(x + TextOf(calls));
            f.st == all.st && Join(Join(out, s.pieces), f.pieces) == Join(out, all.pieces)
    decreases |calls|
  {
    hide SyncFilter.BsuMarker, SyncFilter.EsuMarker, Feed, Seen, Split, Join;
    var s := SeenSync(x);
    if calls == [] {
      assert x + TextOf(calls) == x;
      JoinNone(Join(out, s.pieces));
    } else {
      var t := if calls[0].Text? then calls[0].bytes else [];
      var first := FeedOn(s.st, calls[0]);
      var rest := FeedAllOn(first.st, calls[1..]);
      assert x + TextOf(calls) == (x + t) + TextOf(calls[1..]);
      if calls[0].Text? {
        Resume(SyncFilter.SyncMarks(), x, t, out);
      } else {
        assert x + t == x;
        JoinNone(Join(out, s.pieces));
      }
      FeedOnContinues(x + t, calls[1..], out);
      JoinAppend(Join(out, s.pieces), first.pieces, rest.pieces);
    }
  }

  // ----- The page -----

  /** The terminal's writes and its filter are those of the reference. */
  ghost predicate IsWritten(t: Term, ws: seq<seq<Byte>>)
    requires ws != []
  {
    var init := ws[..|ws| - 1];
    t.sync == SeenSync(Through(GateFor(init), ws[|ws| - 1])).st && Join([], t.writes) == OneShotWrites(ws)
  }

  lemma ShowStep(ops: seq<Op>, op: Op)
    ensures Show(ops + [op]) == Shows(Show(ops), op)
  {
    hide Shows;
    assert (ops + [op])[..|ops|] == ops;
  }

  lemma WritesStep(ws: seq<seq<Byte>>, x: seq<Byte>)
    ensures OneShotWrites(ws + [x]) == Join(OneShotWrites(ws), SeenSync(Through(GateFor(ws), x)).pieces)
    ensures (ws + [x])[..|ws + [x]| - 1] == ws
  {
    hide GateFor, Through, SeenSync, Join;
    assert (ws + [x])[..|ws|] == ws;
  }

  lemma ConnectedAnywhere(g: MetaFilter.Gate, calls: seq<Piece>, x: seq<Byte>)
    ensures Connected(g, calls, x).st == Connected(g, [], x).st &&
            Connected(g, calls, x).gate == Connected(g, [], x).gate
  {}

  /** A new filter has seen nothing. */
  lemma NothingThrough(g: MetaFilter.Gate)
    ensures Through(g, []) == [] && SeenSync([]) == Fed([], INITIAL)
  {
    hide MetaFilter.OscMarker, MetaFilter.StMarker, SyncFilter.BsuMarker, SyncFilter.EsuMarker, Seen, Split;
    SeenNothing(MetaFilter.MetaMarks());
    SeenNothing(SyncFilter.SyncMarks());
    assert MetaFilter.Calls(g, []) == [];
  }

  lemma NothingIsWritten()
    ensures IsWritten(Show([]), Wires([]))
  {
    hide SeenSync, Through, OneShot;
    assert Wires([]) == [] + [[]];
    WritesStep([], []);
    NothingThrough(GateFor([]));
    JoinNone([]);
  }

  /** Over any chunks and reconnects the terminal's writes, up to where a text was cut, are what the one-shot
      parsers make of each connection's bytes: stripped and gated, then cut at their blocks. */
  lemma {:induction false} TermIsOneShot(ops: seq<Op>)
    ensures Join([], Show(ops).writes) == OneShotWrites(Wires(ops))
    ensures IsWritten(Show(ops), Wires(ops))
  {
    hide Feed, Join, MetaFilter.Calls, Connected, Wires, OneShot;
    hide OneShotWrites, Show, SeenSync, Through, FeedAllOn, Step;
    if ops == [] {
      NothingIsWritten();
    } else {
      var before, op := ops[..|ops| - 1], ops[|ops| - 1];
      assert ops == before + [op];
      TermIsOneShot(before);
      var t, ws := Show(before), Wires(before);
      ShowStep(before, op);
      WiresStep(before, op);
      match op
      case Chunk(bytes) =>
        var init, x := ws[..|ws| - 1], ws[|ws| - 1];
        var g := GateFor(init);
        assert ws == init + [x];
        PageIsOneShot(before);
        OneShotStep(init, x);
        ConnectedAnywhere(g, OneShot(init).calls, x);
        WritesStep(init, x);
        WritesStep(init, x + bytes);
        ThroughContinues(g, x, bytes);
        var calls := MetaFilter.Calls(t.page.gate, Feed(MetaFilter.MetaMarks(), t.page.st, bytes).pieces);
        FeedOnContinues(Through(g, x), calls, OneShotWrites(init));
        JoinAppend([], t.writes, FeedAllOn(t.sync, calls).pieces);
      case Reconnect =>
        WritesStep(ws, []);
        NothingThrough(GateFor(ws));
        JoinNone(OneShotWrites(ws));
    }
  }

  /** Two pages that receive the same bytes on each connection write the same to the terminal. */
  lemma SameWritesForAnyChunks(ops1: seq<Op>, ops2: seq<Op>)
    requires Wires(ops1) == Wires(ops2)
    ensures Join([], Show(ops1).writes) == Join([], Show(ops2).writes) && Show(ops1).sync == Show(ops2).sync
  {
    hide Show, Wires, OneShotWrites, Join, SeenSync, Through, GateFor;
    TermIsOneShot(ops1);
    TermIsOneShot(ops2);
  }
}
