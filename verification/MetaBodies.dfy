/** Which payloads mean what, spelled out: a history block counts as shown only if its v= payload has
    ;hist=1 in it somewhere. */
module MetaBodies {
  import opened Basics
  import opened Markers
  import opened Framing
  import opened MetaFilter
  import opened MetaHistory
  import opened MetaPages
  import SyncFilter

  // ----- Spelling -----

  /** The ASCII codes of the characters in use. */
  function Code(c: char): Byte {
    match c
    case '0' => 0x30 case '1' => 0x31 case '2' => 0x32 case '6' => 0x36 case '7' => 0x37
    case ';' => 0x3b case '=' => 0x3d case '?' => 0x3f case '[' => 0x5b case '\\' => 0x5c case ']' => 0x5d
    case '_' => 0x5f case 'd' => 0x64 case 'e' => 0x65 case 'h' => 0x68 case 'i' => 0x69 case 'l' => 0x6c
    case 'n' => 0x6e case 's' => 0x73 case 't' => 0x74 case 'v' => 0x76
    case _ => 0
  }

  predicate Spells(b: seq<Byte>, s: string) { |b| == |s| && forall i :: 0 <= i < |s| ==> b[i] == Code(s[i]) }

  /** The markers are an ESC and these characters. */
  lemma SyncMarkersSpelled()
    ensures SyncFilter.BsuMarker()[0] == 0x1b && Spells(SyncFilter.BsuMarker()[1..], "[?2026h")
    ensures SyncFilter.EsuMarker()[0] == 0x1b && Spells(SyncFilter.EsuMarker()[1..], "[?2026l")
  {}

  lemma MetaMarkersSpelled()
    ensures OscMarker()[0] == 0x1b && Spells(OscMarker()[1..], "]7707;")
    ensures StMarker()[0] == 0x1b && Spells(StMarker()[1..], "\\")
  {}

  lemma PayloadsSpelled()
    ensures Spells(V_EQ, "v=") && Spells(HIST_1, ";hist=1")
  {}

  lemma EndSpelled()
    ensures Spells(HIST_END, "hist_end")
  {}

  // ----- What a payload does -----

  lemma EndIsNoStart()
    ensures !(V_EQ <= HIST_END)
  {
    assert HIST_END[0] != V_EQ[0];
  }

  /** A payload that begins with v= opens a block, hist_end ends one, any other changes nothing; a block has
      a body if ;hist=1 stands at any place of its v= payload, and only the end of such a one is the end of
      a shown history. */
  lemma PayloadMeaning(g: Gate, p: seq<Byte>)
    ensures var h := OnPayload(g, p);
            && (h.inHist <==> V_EQ <= p || (g.inHist && p != HIST_END))
            && (h.hasBody <==> if V_EQ <= p then exists i :: At(p, HIST_1, i) else g.hasBody)
            && (h.done <==> g.done || (p == HIST_END && g.hasBody))
  {
    hide First;
    EndIsNoStart();
  }

  // ----- Pages without a body -----

  /** No v= payload has ;hist=1 in it. */
  ghost predicate Bodiless(p: Piece) {
    p.Frame? && V_EQ <= p.bytes ==> forall i :: !At(p.bytes, HIST_1, i)
  }

  ghost predicate BodilessItems(items: seq<Item>) {
    forall it :: it in items && it.Raw? ==> Bodiless(it.piece)
  }

  /** Every text and payload, in order. */
  function Pieces(items: seq<Item>): seq<Piece> {
    if items == [] then []
    else Pieces(items[..|items| - 1]) +
         match items[|items| - 1] case NewConnection => [] case Raw(p) => [p]
  }

  lemma {:induction false} BodilessPasses(g: Gate, ps: seq<Piece>)
    requires !g.hasBody && !g.done && forall p :: p in ps ==> Bodiless(p)
    ensures !GateAfter(g, ps).hasBody && !GateAfter(g, ps).done && Calls(g, ps) == ps
    decreases |ps|
  {
    hide OnPayload;
    if ps != [] {
      assert Bodiless(ps[0]);
      if ps[0].Frame? { PayloadMeaning(g, ps[0].bytes); }
      BodilessPasses(OnPiece(g, ps[0]), ps[1..]);
    }
  }

  lemma {:induction false} PiecesOfRaws(items: seq<Item>, ps: seq<Piece>)
    ensures Pieces(items + Raws(ps)) == Pieces(items) + ps
  {
    if ps == [] {
      assert items + Raws(ps) == items;
    } else {
      var n := |ps| - 1;
      PiecesOfRaws(items, ps[..n]);
      assert (items + Raws(ps))[..|items| + n] == items + Raws(ps[..n]);
      assert ps == ps[..n] + [ps[n]];
    }
  }

  /** A page that is never promised a body shows everything, whatever blocks and ends it receives. */
  lemma {:induction false} BodilessShowsAll(ops: seq<Op>)
    requires BodilessItems(Life(ops).items)
    ensures !Life(ops).gate.hasBody && !Life(ops).gate.done
    ensures Life(ops).calls == Pieces(Life(ops).items)
  {
    hide Feed, GateAfter, Calls, Pieces, Bodiless;
    if ops == [] {
      assert Pieces([]) == [] by { NoPieces(); }
    } else {
      var init, k := ops[..|ops| - 1], |ops| - 1;
      var p := Life(init);
      match ops[k]
      case Chunk(bytes) =>
        var ps := Feed(MetaMarks(), p.st, bytes).pieces;
        assert Life(ops).items == p.items + Raws(ps);
        assert BodilessItems(p.items);
        forall q | q in ps ensures Bodiless(q) {
          var i :| 0 <= i < |ps| && ps[i] == q;
          assert Raws(ps)[i] == Raw(q) && Raw(q) in Life(ops).items;
        }
        BodilessShowsAll(init);
        BodilessPasses(p.gate, ps);
        PiecesOfRaws(p.items, ps);
      case Reconnect =>
        assert BodilessItems(p.items);
        BodilessShowsAll(init);
        PiecesOfNew(p.items);
    }
  }

  lemma NoPieces()
    ensures Pieces([]) == []
  {}

  lemma PiecesOfNew(items: seq<Item>)
    ensures Pieces(items + [NewConnection]) == Pieces(items)
  {
    assert (items + [NewConnection])[..|items|] == items;
  }

  // ----- A body, and its end -----

  lemma OneFrame(p: Page, v: seq<Byte>)
    requires p.st == INITIAL && WholePayload(v)
    ensures Step(p, Chunk(Sequence(v)))
            == Page(INITIAL, OnPayload(p.gate, v), p.calls + [Frame(v)], p.items + [Raw(Frame(v))])
  {
    hide OscMarker, StMarker, First, Hold, Feed, Sequence, OnPayload;
    NoStart([], OscMarker());
    EndsAtFirst([], StMarker());
    OneSequence(v, []);
    assert Sequence(v) + [] == Sequence(v);
    CallsOne(p.gate, Frame(v));
    assert [Frame(v)] + TextPiece([]) == [Frame(v)];
    assert Raws([Frame(v)]) == [Raw(Frame(v))];
  }

  lemma OneText(p: Page, t: seq<Byte>)
    requires p.st == INITIAL && t != [] && 0x1b !in t
    ensures Step(p, Chunk(t))
            == Page(INITIAL, p.gate, if p.gate.inHist && p.gate.done then p.calls else p.calls + [Text(t)],
                    p.items + [Raw(Text(t))])
  {
    hide OscMarker, StMarker, Feed;
    OnlyText(t);
    CallsOne(p.gate, Text(t));
  }

  /** Whatever a page has been through: a block with ;hist=1 somewhere in its v= payload, then its end, and a
      history has been shown. */
  lemma BodyCompletes(ops: seq<Op>, v: seq<Byte>, i: int)
    requires V_EQ <= v && At(v, HIST_1, i) && WholePayload(v)
    ensures Life(ops + [Reconnect] + [Chunk(Sequence(v))] + [Chunk(Sequence(HIST_END))]).gate.done
  {
    hide First, Life, OnPayload;
    V2Announces();
    NoStart(HIST_END, OscMarker());
    EndsAtFirst(HIST_END, StMarker());
    var r := ops + [Reconnect];
    LifeStep(ops, Reconnect);
    LifeStep(r, Chunk(Sequence(v)));
    LifeStep(r + [Chunk(Sequence(v))], Chunk(Sequence(HIST_END)));
    OneFrame(Life(r), v);
    OneFrame(Life(r + [Chunk(Sequence(v))]), HIST_END);
    PayloadMeaning(Life(r).gate, v);
    PayloadMeaning(Life(r + [Chunk(Sequence(v))]).gate, HIST_END);
  }

  // ----- Two runs -----

  /** v=2;hist=0 */
  const V2_HIST_0: seq<Byte> := V_EQ + [0x32, 0x3b, 0x68, 0x69, 0x73, 0x74, 0x3d, 0x30]

  /** One history; then a new connection and another history. */
  function History(v: seq<Byte>, t: seq<Byte>): seq<Op> {
    [Chunk(Sequence(v))] + [Chunk(t)] + [Chunk(Sequence(HIST_END))]
  }

  function TwoHistories(v: seq<Byte>, t: seq<Byte>, u: seq<Byte>): seq<Op> {
    History(v, t) + [Reconnect] + [Chunk(Sequence(V2_HIST_1))] + [Chunk(u)]
  }

  lemma HistoryCalls(v: seq<Byte>, t: seq<Byte>)
    requires V_EQ <= v && 0x1b !in v && t != [] && 0x1b !in t
    ensures var p := Life(History(v, t)); p.st == INITIAL && !p.gate.inHist
    ensures Life(History(v, t)).gate.done == exists i :: At(v, HIST_1, i)
    ensures Life(History(v, t)).calls == [Frame(v), Text(t), Frame(HIST_END)]
  {
    hide First, Life, OnPayload, Sequence;
    V2Announces();
    NoStart(v, OscMarker());
    EndsAtFirst(v, StMarker());
    NoStart(HIST_END, OscMarker());
    EndsAtFirst(HIST_END, StMarker());
    var a, b, c := Chunk(Sequence(v)), Chunk(t), Chunk(Sequence(HIST_END));
    NoLife();
    LifeStep([], a);
    LifeStep([a], b);
    LifeStep([a] + [b], c);
    assert [] + [a] == [a];
    OneFrame(Life([]), v);
    PayloadMeaning(Life([]).gate, v);
    OneText(Life([a]), t);
    OneFrame(Life([a] + [b]), HIST_END);
    PayloadMeaning(Life([a] + [b]).gate, HIST_END);
    EndIsNoStart();
  }

  lemma TwoHistoriesCalls(v: seq<Byte>, t: seq<Byte>, u: seq<Byte>)
    requires V_EQ <= v && 0x1b !in v && t != [] && 0x1b !in t && u != [] && 0x1b !in u
    ensures var first := [Frame(v), Text(t), Frame(HIST_END), Frame(V2_HIST_1)];
            Life(TwoHistories(v, t, u)).calls == if exists i :: At(v, HIST_1, i) then first else first + [Text(u)]
  {
    hide First, Life, OnPayload, Sequence, History;
    V2Announces();
    NoStart(V2_HIST_1, OscMarker());
    EndsAtFirst(V2_HIST_1, StMarker());
    HistoryCalls(v, t);
    var ops := History(v, t);
    LifeStep(ops, Reconnect);
    LifeStep(ops + [Reconnect], Chunk(Sequence(V2_HIST_1)));
    LifeStep(ops + [Reconnect] + [Chunk(Sequence(V2_HIST_1))], Chunk(u));
    var p := Life(ops + [Reconnect]);
    OneFrame(p, V2_HIST_1);
    PayloadMeaning(p.gate, V2_HIST_1);
    OneText(Life(ops + [Reconnect] + [Chunk(Sequence(V2_HIST_1))]), u);
  }

  /** A history without a body is no history: the next one is shown. */
  lemma HistoryAfterNoneIsShown(t: seq<Byte>, u: seq<Byte>)
    requires t != [] && 0x1b !in t && u != [] && 0x1b !in u
    ensures Life(TwoHistories(V2_HIST_0, t, u)).calls
            == [Frame(V2_HIST_0), Text(t), Frame(HIST_END), Frame(V2_HIST_1), Text(u)]
  {
    assert 0x31 !in V2_HIST_0 && HIST_1[6] == 0x31;
    TwoHistoriesCalls(V2_HIST_0, t, u);
  }

  /** A second history is not. */
  lemma SecondHistoryIsHidden(t: seq<Byte>, u: seq<Byte>)
    requires t != [] && 0x1b !in t && u != [] && 0x1b !in u
    ensures Life(TwoHistories(V2_HIST_1, t, u)).calls
            == [Frame(V2_HIST_1), Text(t), Frame(HIST_END), Frame(V2_HIST_1)]
  {
    assert V2_HIST_1[3..3 + |HIST_1|] == HIST_1;
    assert At(V2_HIST_1, HIST_1, 3);
    TwoHistoriesCalls(V2_HIST_1, t, u);
  }
}
