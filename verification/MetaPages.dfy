/** A page as the network sees it: only each connection's bytes matter, not their chunks; and exactly
    when the next history is shown as promised. */
module MetaPages {
  import opened Basics
  import opened Markers
  import opened Framing
  import opened MetaFilter
  import opened MetaHistory

  // ----- Chunking does not matter to a page -----

  /** The bytes of each connection of a page. */
  function Wires(ops: seq<Op>): (ws: seq<seq<Byte>>)
    ensures ws != []
  {
    if ops == [] then [[]]
    else
      var before := Wires(ops[..|ops| - 1]);
      var k := |before| - 1;
      match ops[|ops| - 1]
      case Chunk(bytes) => before[..k] + [before[k] + bytes]
      case Reconnect => before + [[]]
  }

  datatype Shown = Shown(st: State, gate: Gate, calls: seq<Piece>)

  /** The reference: the one-shot parser on each connection, through the gate the earlier ones left. */
  function OneShot(ws: seq<seq<Byte>>): Shown {
    if ws == [] then Shown(INITIAL, CLOSED, [])
    else
      var before := OneShot(ws[..|ws| - 1]);
      Connected(before.gate.(inHist := false), before.calls, ws[|ws| - 1])
  }

  /** One connection after what was shown before it. */
  function Connected(g: Gate, calls: seq<Piece>, x: seq<Byte>): Shown {
    var seen := Seen(MetaMarks(), Split(MetaMarks(), x));
    Shown(seen.st, GateAfter(g, seen.pieces), Join(calls, Calls(g, seen.pieces)))
  }

  lemma PushLast(out: seq<Piece>, o: seq<Piece>, p: Piece)
    requires o != [] && o[|o| - 1].Text? && p.Text? && p.bytes != []
    ensures Join(out, Push(o, p)) == Push(Join(out, o), p)
  {
    hide Join, Push;
    var init, x := o[..|o| - 1], o[|o| - 1].bytes;
    assert o == init + [Text(x)];
    JoinAppend(out, init, [Text(x)]);
    JoinOne(Join(out, init), Text(x));
    JoinAppend(out, init, [Text(x + p.bytes)]);
    JoinOne(Join(out, init), Text(x + p.bytes));
    PushTexts(Join(out, init), x, p.bytes);
    PushOnText(init, x, p.bytes);
  }

  lemma PushOnText(init: seq<Piece>, x: seq<Byte>, y: seq<Byte>)
    requires y != []
    ensures Push(init + [Text(x)], Text(y)) == init + [Text(x + y)]
  {
    assert (init + [Text(x)])[..|init|] == init;
  }

  lemma JoinPush(out: seq<Piece>, o: seq<Piece>, p: Piece)
    ensures Join(out, Push(o, p)) == Push(Join(out, o), p)
  {
    if p.Text? && p.bytes != [] && o != [] && o[|o| - 1].Text? {
      PushLast(out, o, p);
    } else if Push(o, p) == o + [p] {
      JoinAppend(out, o, [p]);
      JoinOne(Join(out, o), p);
    }
  }

  /** Joining twice is joining once. */
  lemma {:induction false} JoinJoined(out: seq<Piece>, o: seq<Piece>, ps: seq<Piece>)
    ensures Join(out, Join(o, ps)) == Join(Join(out, o), ps)
    decreases |ps|
  {
    hide Push;
    if ps != [] {
      JoinJoined(out, Push(o, ps[0]), ps[1..]);
      JoinPush(out, o, ps[0]);
    }
  }

  /** One more chunk of a connection. */
  lemma ChunkContinues(g: Gate, calls: seq<Piece>, x: seq<Byte>, c: seq<Byte>)
    ensures var s := Connected(g, calls, x);
            var fed := Feed(MetaMarks(), s.st, c);
            Connected(g, calls, x + c)
            == Shown(fed.st, GateAfter(s.gate, fed.pieces), Join(s.calls, Calls(s.gate, fed.pieces)))
  {
    hide OscMarker, StMarker, Feed, Seen, Split, Join, Calls, GateAfter;
    var ps := Seen(MetaMarks(), Split(MetaMarks(), x)).pieces;
    var fed := Feed(MetaMarks(), Seen(MetaMarks(), Split(MetaMarks(), x)).st, c);
    var all := Seen(MetaMarks(), Split(MetaMarks(), x + c)).pieces;
    Resume(MetaMarks(), x, c, []);
    JoinNone([]);
    JoinAppend([], ps, fed.pieces);
    CallsJoined(g, ps + fed.pieces);
    CallsJoined(g, all);
    CallsAppend(g, ps, fed.pieces);
    SameCalls(calls, Calls(g, ps + fed.pieces), Calls(g, all));
    JoinAppend(calls, Calls(g, ps), Calls(GateAfter(g, ps), fed.pieces));
  }

  lemma CallsJoined(g: Gate, ps: seq<Piece>)
    ensures GateAfter(g, Join([], ps)) == GateAfter(g, ps)
    ensures Join([], Calls(g, Join([], ps))) == Join([], Calls(g, ps))
  {
    hide Join, Calls, GateAfter;
    JoinCalls(g, [], ps);
    assert [] + ps == ps;
  }

  lemma SameCalls(calls: seq<Piece>, a: seq<Piece>, b: seq<Piece>)
    requires Join([], a) == Join([], b)
    ensures Join(calls, a) == Join(calls, b)
  {
    hide Join;
    JoinNone(calls);
    JoinJoined(calls, [], a);
    JoinJoined(calls, [], b);
  }

  /** A new connection starts with nothing. */
  lemma NothingYet(g: Gate, calls: seq<Piece>)
    ensures Connected(g, calls, []) == Shown(INITIAL, g, calls)
  {
    hide OscMarker, StMarker, Seen, Split;
    SeenNothing(MetaMarks());
    JoinNone(calls);
    assert Calls(g, []) == [] && GateAfter(g, []) == g;
  }

  lemma OneShotStep(ws: seq<seq<Byte>>, x: seq<Byte>)
    ensures OneShot(ws + [x]) == Connected(OneShot(ws).gate.(inHist := false), OneShot(ws).calls, x)
  {
    hide Connected;
    assert (ws + [x])[..|ws|] == ws;
  }

  lemma LifeStep(ops: seq<Op>, op: Op)
    ensures Life(ops + [op]) == Step(Life(ops), op)
  {
    hide Step;
    assert (ops + [op])[..|ops|] == ops;
  }

  lemma WiresStep(ops: seq<Op>, op: Op)
    ensures var ws := Wires(ops);
            var k := |ws| - 1;
            Wires(ops + [op]) == match op case Chunk(bytes) => ws[..k] + [ws[k] + bytes] case Reconnect => ws + [[]]
  {
    assert (ops + [op])[..|ops|] == ops;
  }

  lemma NothingIsShown()
    ensures var p, r := Life([]), OneShot(Wires([]));
            p.st == r.st && p.gate == r.gate && Join([], p.calls) == r.calls
  {
    hide OscMarker, StMarker, Join, Connected;
    assert Wires([]) == [] + [[]];
    OneShotStep([], []);
    NothingYet(CLOSED, []);
    JoinNone([]);
  }

  /** Main result for a page: over any chunks and reconnects its state, its gate and its calls, up to
      where a text was cut, are those of the one-shot parser on each connection's bytes. */
  lemma {:induction false} PageIsOneShot(ops: seq<Op>)
    ensures var p, r := Life(ops), OneShot(Wires(ops));
            p.st == r.st && p.gate == r.gate && Join([], p.calls) == r.calls
  {
    hide OscMarker, StMarker, Feed, Join, Calls, GateAfter, Connected, Life, Wires, OneShot;
    if ops == [] {
      NothingIsShown();
    } else {
      var before, op := ops[..|ops| - 1], ops[|ops| - 1];
      assert ops == before + [op];
      PageIsOneShot(before);
      var p, ws := Life(before), Wires(before);
      LifeStep(before, op);
      WiresStep(before, op);
      match op
      case Chunk(bytes) =>
        var init, x := ws[..|ws| - 1], ws[|ws| - 1];
        assert ws == init + [x];
        OneShotStep(init, x);
        OneShotStep(init, x + bytes);
        ChunkContinues(OneShot(init).gate.(inHist := false), OneShot(init).calls, x, bytes);
        JoinAppend([], p.calls, Calls(p.gate, Feed(MetaMarks(), p.st, bytes).pieces));
      case Reconnect =>
        OneShotStep(ws, []);
        NothingYet(p.gate.(inHist := false), Join([], p.calls));
    }
  }

  /** Two pages that receive the same bytes on each connection make the same calls. */
  lemma SameForAnyChunks(ops1: seq<Op>, ops2: seq<Op>)
    requires Wires(ops1) == Wires(ops2)
    ensures Join([], Life(ops1).calls) == Join([], Life(ops2).calls)
    ensures Life(ops1).st == Life(ops2).st && Life(ops1).gate == Life(ops2).gate
  {
    PageIsOneShot(ops1);
    PageIsOneShot(ops2);
  }

  // ----- Exactly when the next history is shown -----

  /** The bytes of one control sequence. */
  function Sequence(payload: seq<Byte>): seq<Byte> { OscMarker() + payload + StMarker() }

  /** A payload that ends at the ST which follows it. */
  predicate WholePayload(v: seq<Byte>) { First(v + StMarker(), StMarker()) == |v| }

  /** Text without an OSC, some of which can be let out at once. */
  predicate WholeText(text: seq<Byte>) { First(text, OscMarker()) < 0 && Hold(text, OscMarker()) < |text| }

  lemma SequenceSplit(v: seq<Byte>, text: seq<Byte>)
    requires WholePayload(v) && First(text, OscMarker()) < 0
    ensures Split(MetaMarks(), Sequence(v) + text) == Framed([], v, Plain(text))
  {
    hide OscMarker, StMarker, First, Split;
    var d, body := Sequence(v) + text, v + StMarker() + text;
    OscIsFirst(body);
    AfterMarker(OscMarker(), v, StMarker(), text);
    FirstStable(v + StMarker(), text, StMarker());
    SplitTurn(MetaMarks(), d);
    PlainSplit(MetaMarks(), text);
  }

  lemma AfterMarker(open: seq<Byte>, v: seq<Byte>, close: seq<Byte>, text: seq<Byte>)
    ensures var d, body := open + v + close + text, v + close + text;
            d == open + body && d[|open|..] == body && d[..0] == [] &&
            body[..|v|] == v && body[|v| + |close|..] == text
  {}

  lemma FeedInitial(m: Marks, d: seq<Byte>)
    requires m.Ok()
    ensures Feed(m, INITIAL, d) == Seen(m, Split(m, d))
  {
    hide First, Loop, Split, Seen;
    assert INITIAL.carry + d == d;
    LoopIsSplit(m, d);
  }

  lemma SeenOneFrame(m: Marks, v: seq<Byte>, text: seq<Byte>)
    requires m.Ok()
    ensures var cut := |text| - Hold(text, m.open);
            Seen(m, Framed([], v, Plain(text)))
            == Fed([Frame(v)] + TextPiece(text[..cut]), State(false, [], text[cut..]))
  {
    hide Hold, Longest;
    var ps := Seen(m, Plain(text)).pieces;
    assert [] + [Frame(v)] + ps == [Frame(v)] + ps;
  }

  /** A chunk that begins with a sequence, and its text. */
  lemma OneSequence(v: seq<Byte>, text: seq<Byte>)
    requires WholePayload(v) && First(text, OscMarker()) < 0
    ensures var cut := |text| - Hold(text, OscMarker());
            Feed(MetaMarks(), INITIAL, Sequence(v) + text)
            == Fed([Frame(v)] + TextPiece(text[..cut]), State(false, [], text[cut..]))
  {
    hide OscMarker, StMarker, First, Hold, Longest, Feed, Split, Seen, Sequence, TextPiece;
    FeedInitial(MetaMarks(), Sequence(v) + text);
    SequenceSplit(v, text);
    SeenOneFrame(MetaMarks(), v, text);
  }

  lemma OscIsFirst(body: seq<Byte>)
    ensures First(OscMarker() + body, OscMarker()) == 0
  {
    hide First;
    IsFirst(OscMarker() + body, OscMarker(), 0);
  }

  lemma PlainSplit(m: Marks, text: seq<Byte>)
    requires m.Ok() && First(text, m.open) < 0
    ensures Split(m, text) == Plain(text)
  {
    hide First;
  }

  /** What it lets out of a whole text. */
  function Visible(text: seq<Byte>): seq<Byte> { text[..|text| - Hold(text, OscMarker())] }

  /** A new connection that brings one more history. */
  function NextHistory(v: seq<Byte>, text: seq<Byte>): seq<Op> { [Reconnect, Chunk(Sequence(v) + text)] }

  lemma NextHistoryItems(ops: seq<Op>, v: seq<Byte>, text: seq<Byte>)
    requires WholePayload(v) && WholeText(text)
    ensures Life(ops + NextHistory(v, text)).items
            == Life(ops).items + [NewConnection] + [Raw(Frame(v))] + [Raw(Text(Visible(text)))]
  {
    hide OscMarker, StMarker, First, Hold, Leftmost, Longest, Feed, Life, Sequence;
    assert ops + NextHistory(v, text) == (ops + [Reconnect]) + [Chunk(Sequence(v) + text)];
    LifeStep(ops, Reconnect);
    LifeStep(ops + [Reconnect], Chunk(Sequence(v) + text));
    OneSequence(v, text);
    assert Raws([Frame(v)] + [Text(Visible(text))]) == [Raw(Frame(v))] + [Raw(Text(Visible(text)))];
  }

  /** The calls so far are the promised ones. */
  predicate Promised(ops: seq<Op>) { Life(ops).calls == KeptOnce(Life(ops).items) }

  predicate StrayFree(ops: seq<Op>) { NoHarmfulStray(Life(ops).items, |Life(ops).items|) }

  /** Whatever history comes next: the page treats it as promised if and only if it has kept its promise
      so far and no hist_end has come outside a block, while the last v= META announced a body, before
      any block had completed. */
  lemma NextHistoryIffStrayFree(ops: seq<Op>, v: seq<Byte>, text: seq<Byte>)
    requires StartsHistory(v) && WholePayload(v) && WholeText(text)
    ensures Promised(ops + NextHistory(v, text)) <==> Promised(ops) && StrayFree(ops)
  {
    hide LastBodied, Completed, StrayEnd, InBlock, Kept, KeptOnce, Life, BlocksUnharmed;
    hide WholePayload, WholeText, Visible, NextHistory;
    var more := ops + NextHistory(v, text);
    PageShowsKept(ops);
    PageShowsKept(more);
    NextHistoryItems(ops, v, text);
    OnceIffUnharmed(Life(ops).items);
    OnceIffUnharmed(Life(more).items);
    BlockAppended(Life(ops).items, v, Visible(text));
  }

  lemma BlockAppended(items: seq<Item>, v: seq<Byte>, t: seq<Byte>)
    requires StartsHistory(v)
    ensures BlocksUnharmed(items + [NewConnection] + [Raw(Frame(v))] + [Raw(Text(t))])
            <==> BlocksUnharmed(items) && NoHarmfulStray(items, |items|)
  {
    hide LastBodied, Completed, StrayEnd, InBlock, BlocksUnharmed;
    var one := items + [NewConnection];
    var two := one + [Raw(Frame(v))];
    NotBoth(Raw(Frame(v)));
    DoneStep(items, NewConnection);
    DoneStep(one, Raw(Frame(v)));
    InBlockStep(one, Raw(Frame(v)));
    UnharmedStep(items, NewConnection);
    UnharmedStep(one, Raw(Frame(v)));
    UnharmedStep(two, Raw(Text(t)));
  }

  lemma {:induction false} ItemsGrow(ops: seq<Op>, m: nat)
    requires m <= |ops|
    ensures Life(ops[..m]).items <= Life(ops).items
  {
    hide Feed, GateAfter, After;
    if m == |ops| {
      assert ops[..m] == ops;
    } else {
      var k := |ops| - 1;
      ItemsGrow(ops[..k], m);
      assert ops[..k][..m] == ops[..m];
    }
  }

  lemma PrefixUnharmed(items: seq<Item>, init: seq<Item>)
    requires init <= items && BlocksUnharmed(items)
    ensures BlocksUnharmed(init)
  {
    hide Completed, StrayEnd, InBlock, LastBodied;
    var rest := items[|init|..];
    assert init + rest == items;
    forall k | 0 <= k < |init| && BlockText(init, k) ensures NoHarmfulStray(init, k) {
      PastOnly(init, rest, k);
      EndsPastOnly(init, rest, k);
      assert BlockText(items, k);
    }
  }

  /** The next history is shown as promised at moment m. */
  predicate NextAsPromised(ops: seq<Op>, m: nat, v: seq<Byte>, text: seq<Byte>)
    requires m <= |ops|
  {
    Promised(ops[..m] + NextHistory(v, text))
  }

  /** The condition for a whole life is exact: after every call of feed and reset any next history is
      treated as promised, if and only if no harmful stray stands there, nor before a block's text. */
  lemma HistoryOnceIffStrayFree(ops: seq<Op>)
    ensures (forall m, v, text ::
              0 <= m <= |ops| && StartsHistory(v) && WholePayload(v) && WholeText(text)
              ==> NextAsPromised(ops, m, v, text))
            <==> BlocksUnharmed(Life(ops).items) && forall m :: 0 <= m <= |ops| ==> StrayFree(ops[..m])
  {
    hide WholePayload, WholeText, BlocksUnharmed, Life, NextHistory, StrayFree, Promised, Kept, KeptOnce;
    forall m, v, text | 0 <= m <= |ops| && StartsHistory(v) && WholePayload(v) && WholeText(text)
      ensures NextAsPromised(ops, m, v, text) <==> Promised(ops[..m]) && StrayFree(ops[..m])
    {
      NextHistoryIffStrayFree(ops[..m], v, text);
    }
    forall m | 0 <= m <= |ops| ensures BlocksUnharmed(Life(ops).items) ==> Promised(ops[..m]) {
      if BlocksUnharmed(Life(ops).items) {
        ItemsGrow(ops, m);
        PrefixUnharmed(Life(ops).items, Life(ops[..m]).items);
        PromisedIffUnharmed(ops[..m]);
      }
    }
    PromisedIffUnharmed(ops);
    assert ops[..|ops|] == ops;
    var v, text := SomeHistory();
    assert forall m :: 0 <= m <= |ops| ==>
      (NextAsPromised(ops, m, v, text) <==> Promised(ops[..m]) && StrayFree(ops[..m]));
  }

  lemma PromisedIffUnharmed(ops: seq<Op>)
    ensures Promised(ops) <==> BlocksUnharmed(Life(ops).items)
  {
    hide Life, Kept, KeptOnce, BlocksUnharmed;
    PageShowsKept(ops);
    OnceIffUnharmed(Life(ops).items);
  }

  // ----- The page that loses its history -----

  /** v=2;hist=1 */
  const V2_HIST_1: seq<Byte> := V_EQ + [0x32] + HIST_1

  lemma FirstByteMissing(x: seq<Byte>, pat: seq<Byte>, i: int)
    requires pat != [] && pat[0] !in x
    ensures !At(x, pat, i) && (i > 0 ==> !Tail(x, pat, i))
  {
    if 0 <= i && i + |pat| <= |x| {
      assert x[i..i + |pat|][0] == x[i];
    }
    if 0 < i <= |x| && i < |pat| {
      assert x[|x| - i..][0] == x[|x| - i];
    }
  }

  /** Bytes without a marker's first byte have no start of it in them. */
  lemma NoStart(x: seq<Byte>, pat: seq<Byte>)
    requires |pat| > 0 && pat[0] !in x
    ensures First(x, pat) < 0 && Hold(x, pat) == 0
  {
    hide First, Hold;
    forall i ensures !At(x, pat, i) && (i > 0 ==> !Tail(x, pat, i)) {
      FirstByteMissing(x, pat, i);
    }
    IsFirst(x, pat, -1);
    IsHold(x, pat, 0);
  }

  /** They are whole as a payload: the marker after them is the first. */
  lemma EndsAtFirst(x: seq<Byte>, pat: seq<Byte>)
    requires |pat| > 0 && pat[0] !in x
    ensures First(x + pat, pat) == |x|
  {
    hide First;
    var d := x + pat;
    assert forall i :: 0 <= i < |x| ==> d[i] == x[i];
    forall i | 0 <= i < |x| ensures !At(d, pat, i) {
      if i + |pat| <= |d| { assert d[i..i + |pat|][0] == d[i]; }
    }
    assert d[|x|..|x| + |pat|] == pat;
    IsFirst(d, pat, |x|);
  }

  lemma SomeHistory() returns (v: seq<Byte>, text: seq<Byte>)
    ensures StartsHistory(v) && WholePayload(v) && WholeText(text)
  {
    hide First, Hold;
    v, text := V_EQ, [0x41];
    NoStart(v, OscMarker());
    EndsAtFirst(v, StMarker());
    NoStart(text, OscMarker());
    EndsAtFirst(text, StMarker());
  }

  lemma V2Announces()
    ensures StartsHistory(V2_HIST_1) && HasBody(V2_HIST_1) && 0x1b !in V2_HIST_1 && 0x1b !in HIST_END
  {
    hide First;
    assert V2_HIST_1[3..3 + |HIST_1|] == HIST_1;
    assert At(V2_HIST_1, HIST_1, 3);
  }

  /** A page: a connection cut inside a hist=1 block, a hist_end alone on the next, then a whole history. */
  function CutPage(text: seq<Byte>): seq<Op> {
    [Chunk(Sequence(V2_HIST_1)), Reconnect, Chunk(Sequence(HIST_END)), Chunk(Sequence(V2_HIST_1)), Chunk(text)]
  }

  function CutItems(text: seq<Byte>): seq<Item> {
    [Raw(Frame(V2_HIST_1)), NewConnection, Raw(Frame(HIST_END)), Raw(Frame(V2_HIST_1)), Raw(Text(text))]
  }

  lemma CutPageItems(text: seq<Byte>)
    requires text != [] && 0x1b !in text
    ensures Life(CutPage(text)).items == CutItems(text)
  {
    hide OscMarker, StMarker, First, Hold, Feed, Life, Sequence;
    V2Announces();
    OnlySequence(V2_HIST_1);
    OnlySequence(HIST_END);
    OnlyText(text);
    var ops := CutPage(text);
    assert Life([]) == Page(INITIAL, CLOSED, [], []) by { NoLife(); }
    var a1, a2, a3, a4 := ops[..1], ops[..2], ops[..3], ops[..4];
    assert a1 == [] + [ops[0]] && a2 == a1 + [ops[1]] && a3 == a2 + [ops[2]];
    assert a4 == a3 + [ops[3]] && ops == a4 + [ops[4]];
    LifeStep([], ops[0]);
    LifeStep(a1, ops[1]);
    LifeStep(a2, ops[2]);
    LifeStep(a3, ops[3]);
    LifeStep(a4, ops[4]);
  }

  lemma NoLife()
    ensures Life([]) == Page(INITIAL, CLOSED, [], [])
  {}

  lemma OnlySequence(v: seq<Byte>)
    requires 0x1b !in v
    ensures Feed(MetaMarks(), INITIAL, Sequence(v)) == Fed([Frame(v)], INITIAL) && Raws([Frame(v)]) == [Raw(Frame(v))]
  {
    hide OscMarker, StMarker, First, Hold, Feed, Sequence;
    NoStart(v, OscMarker());
    EndsAtFirst(v, StMarker());
    NoStart([], OscMarker());
    EndsAtFirst([], StMarker());
    OneSequence(v, []);
    assert Sequence(v) + [] == Sequence(v);
  }

  lemma OnlyText(text: seq<Byte>)
    requires text != [] && 0x1b !in text
    ensures Feed(MetaMarks(), INITIAL, text) == Fed([Text(text)], INITIAL) && Raws([Text(text)]) == [Raw(Text(text))]
  {
    hide OscMarker, StMarker, First, Hold, Loop;
    NoStart(text, OscMarker());
    EndsAtFirst(text, StMarker());
    assert INITIAL.carry + text == text;
    LoopTurn(MetaMarks(), text, false, []);
    assert text[..|text|] == text && text[|text|..] == [];
  }

  /** The failing page: the text of its only whole history never reaches the screen, though no block has
      completed before it. */
  lemma StrayEndHidesHistory(text: seq<Byte>)
    requires text != [] && 0x1b !in text
    ensures var p := Life(CutPage(text));
            Text(text) !in p.calls && Text(text) in KeptOnce(p.items) && !Completed(p.items, |p.items|)
  {
    hide Life, Kept, KeptOnce, Completed, StrayEnd, InBlock, LastBodied;
    PageShowsKept(CutPage(text));
    CutPageItems(text);
    CutItemsLoseText(text);
  }

  lemma CutItemsLoseText(text: seq<Byte>)
    requires text != []
    ensures Text(text) !in Kept(CutItems(text)) && Text(text) in KeptOnce(CutItems(text)) &&
            !Completed(CutItems(text), 5)
  {
    hide First, Kept, KeptOnce, Completed, StrayEnd, InBlock, LastBodied;
    V2Announces();
    var v, text_ := Raw(Frame(V2_HIST_1)), Raw(Text(text));
    var a1, a2 := [v], [v, NewConnection];
    var a3, a4 := a2 + [Raw(Frame(HIST_END))], a2 + [Raw(Frame(HIST_END)), v];
    NothingPast();
    NotBoth(v);
    assert a1 == [] + [v] && a2 == a1 + [NewConnection] && a4 == a3 + [v] && CutItems(text) == a4 + [text_];
    InBlockStep([], v);
    LastBodiedStep([], v);
    DoneStep([], v);
    KeptStep([], v);
    InBlockStep(a1, NewConnection);
    LastBodiedStep(a1, NewConnection);
    DoneStep(a1, NewConnection);
    KeptStep(a1, NewConnection);
    InBlockStep(a2, a3[2]);
    LastBodiedStep(a2, a3[2]);
    DoneStep(a2, a3[2]);
    KeptStep(a2, a3[2]);
    InBlockStep(a3, v);
    DoneStep(a3, v);
    KeptStep(a3, v);
    DoneStep(a4, text_);
    KeptStep(a4, text_);
    NothingKept();
  }

  lemma NothingPast()
    ensures !InBlock([], 0) && !LastBodied([], 0) && !Completed([], 0) && !StrayEnd([], 0)
  {}
}
