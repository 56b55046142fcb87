/** A page's whole life: chunks of many connections through one META filter. History text is shown
    until one block announced with hist=1 has ended, and never after that. */
module MetaHistory {
  import opened Basics
  import opened Framing
  import opened MetaFilter

  datatype Op = Chunk(bytes: seq<Byte>) | Reconnect

  /** What the filter recognised, with the places where a connection began. */
  datatype Item = Raw(piece: Piece) | NewConnection

  datatype Page = Page(st: State, gate: Gate, calls: seq<Piece>, items: seq<Item>)

  function Raws(ps: seq<Piece>): seq<Item> {
    seq(|ps|, i requires 0 <= i < |ps| => Raw(ps[i]))
  }

  /** The effect of one `feed` or `feed.reset` call, as MetaFilter.Filter performs it. */
  function Step(p: Page, op: Op): Page {
    match op
    case Chunk(bytes) =>
      var fed := Feed(MetaMarks(), p.st, bytes);
      Page(fed.st, GateAfter(p.gate, fed.pieces), After(p.calls, p.gate, fed.pieces), p.items + Raws(fed.pieces))
    case Reconnect =>
      Page(INITIAL, p.gate.(inHist := false), p.calls, p.items + [NewConnection])
  }

  function Life(ops: seq<Op>): Page {
    if ops == [] then Page(INITIAL, CLOSED, [], [])
    else Step(Life(ops[..|ops| - 1]), ops[|ops| - 1])
  }

  // ----- What the history means, without any gate -----

  predicate Starts(it: Item) { it.Raw? && it.piece.Frame? && StartsHistory(it.piece.bytes) }
  predicate Bodied(it: Item) { Starts(it) && HasBody(it.piece.bytes) }
  predicate Ends(it: Item) { it.Raw? && it.piece.Frame? && EndsHistory(it.piece.bytes) }

  predicate NoEndBetween(items: seq<Item>, v: int, k: int)
    requires 0 <= v && k <= |items|
  {
    forall j :: v < j < k ==> !Ends(items[j]) && items[j] != NewConnection
  }

  predicate NoStartBetween(items: seq<Item>, v: int, k: int)
    requires 0 <= v && k <= |items|
  {
    forall j :: v < j < k ==> !Starts(items[j])
  }

  /** Position k lies in a history block of its connection: after a v= META, before its hist_end. */
  predicate InBlock(items: seq<Item>, k: nat)
    requires k <= |items|
  {
    exists v :: 0 <= v < k && Starts(items[v]) && NoEndBetween(items, v, k)
  }

  /** The last v= META of the page before position k announced a body. */
  predicate LastBodied(items: seq<Item>, k: nat)
    requires k <= |items|
  {
    exists v :: 0 <= v < k && Bodied(items[v]) && NoStartBetween(items, v, k)
  }

  /** A block announced with hist=1 has run from its META to its hist_end before position k. */
  predicate Completed(items: seq<Item>, k: nat)
    requires k <= |items|
  {
    exists e :: 0 <= e < k && Ends(items[e]) && InBlock(items, e) && LastBodied(items, e)
  }

  /** A hist_end outside every block, while the last v= META of the page announced a body. */
  predicate StrayEnd(items: seq<Item>, k: nat)
    requires k <= |items|
  {
    exists e :: 0 <= e < k && Ends(items[e]) && !InBlock(items, e) && LastBodied(items, e)
  }

  /** The calls the page makes: every piece, except history text after a completed block. */
  function Kept(items: seq<Item>): seq<Piece> {
    if items == [] then []
    else
      var k := |items| - 1;
      Kept(items[..k]) +
      match items[k]
      case NewConnection => []
      case Raw(p) =>
        if p.Text? && InBlock(items, k) && (Completed(items, k) || StrayEnd(items, k)) then [] else [p]
  }

  // ----- The gate computes it -----

  ghost predicate GateMeans(g: Gate, items: seq<Item>) {
    && g.inHist == InBlock(items, |items|)
    && g.hasBody == LastBodied(items, |items|)
    && g.done == (Completed(items, |items|) || StrayEnd(items, |items|))
  }

  /** These predicates look only at the items before the position. */
  lemma PastOnly(items: seq<Item>, more: seq<Item>, k: nat)
    requires k <= |items|
    ensures InBlock(items + more, k) == InBlock(items, k)
    ensures LastBodied(items + more, k) == LastBodied(items, k)
  {
    var all := items + more;
    assert forall j :: 0 <= j < k ==> all[j] == items[j];
    forall v | 0 <= v < k
      ensures NoEndBetween(all, v, k) == NoEndBetween(items, v, k)
      ensures NoStartBetween(all, v, k) == NoStartBetween(items, v, k)
    {}
  }

  lemma EndsPastOnly(items: seq<Item>, more: seq<Item>, k: nat)
    requires k <= |items|
    ensures Completed(items + more, k) == Completed(items, k)
    ensures StrayEnd(items + more, k) == StrayEnd(items, k)
  {
    hide InBlock, LastBodied;
    var all := items + more;
    forall e | 0 <= e < k
      ensures all[e] == items[e]
      ensures InBlock(all, e) == InBlock(items, e) && LastBodied(all, e) == LastBodied(items, e)
    {
      PastOnly(items, more, e);
    }
  }

  /** One more item: block membership. */
  lemma InBlockStep(items: seq<Item>, it: Item)
    ensures var all := items + [it];
            InBlock(all, |all|) == (Starts(it) || (InBlock(items, |items|) && !Ends(it) && it != NewConnection))
  {
    var all := items + [it];
    var n := |items|;
    assert all[n] == it && forall j :: 0 <= j < n ==> all[j] == items[j];
    if Starts(it) {
      assert NoEndBetween(all, n, n + 1);
    } else if InBlock(items, n) && !Ends(it) && it != NewConnection {
      var v :| 0 <= v < n && Starts(items[v]) && NoEndBetween(items, v, n);
      assert NoEndBetween(all, v, n + 1);
    }
    if InBlock(all, n + 1) && !Starts(it) {
      var v :| 0 <= v < n + 1 && Starts(all[v]) && NoEndBetween(all, v, n + 1);
      assert NoEndBetween(items, v, n);
    }
  }

  /** One more item: the last META. */
  lemma LastBodiedStep(items: seq<Item>, it: Item)
    ensures var all := items + [it];
            LastBodied(all, |all|) == (Bodied(it) || (LastBodied(items, |items|) && !Starts(it)))
  {
    var all := items + [it];
    var n := |items|;
    assert all[n] == it && forall j :: 0 <= j < n ==> all[j] == items[j];
    if Bodied(it) {
      assert NoStartBetween(all, n, n + 1);
    } else if LastBodied(items, n) && !Starts(it) {
      var v :| 0 <= v < n && Bodied(items[v]) && NoStartBetween(items, v, n);
      assert NoStartBetween(all, v, n + 1);
    }
    if LastBodied(all, n + 1) && !Bodied(it) {
      var v :| 0 <= v < n + 1 && Bodied(all[v]) && NoStartBetween(all, v, n + 1);
      assert NoStartBetween(items, v, n);
    }
  }

  /** One more item: completed blocks and stray ends. */
  lemma DoneStep(items: seq<Item>, it: Item)
    ensures var all := items + [it];
            var n := |items|;
            && Completed(all, n + 1) == (Completed(items, n) || (Ends(it) && InBlock(items, n) && LastBodied(items, n)))
            && StrayEnd(all, n + 1) == (StrayEnd(items, n) || (Ends(it) && !InBlock(items, n) && LastBodied(items, n)))
  {
    hide InBlock, LastBodied;
    var all := items + [it];
    var n := |items|;
    forall e | 0 <= e <= n
      ensures all[e] == if e < n then items[e] else it
      ensures InBlock(all, e) == InBlock(items, e) && LastBodied(all, e) == LastBodied(items, e)
    {
      PastOnly(items, [it], e);
    }
  }

  function OnItem(g: Gate, it: Item): Gate {
    match it case Raw(p) => OnPiece(g, p) case NewConnection => g.(inHist := false)
  }

  lemma GateMeansStep(g: Gate, items: seq<Item>, it: Item)
    requires GateMeans(g, items)
    ensures GateMeans(OnItem(g, it), items + [it])
    ensures Kept(items + [it]) == Kept(items) +
            match it case NewConnection => [] case Raw(p) => if Passes(g, p) then [p] else []
  {
    hide InBlock, LastBodied, Completed, StrayEnd;
    InBlockStep(items, it);
    LastBodiedStep(items, it);
    DoneStep(items, it);
    NotBoth(it);
    var all := items + [it];
    assert all[..|items|] == items && all[|items|] == it;
    PastOnly(items, [it], |items|);
    EndsPastOnly(items, [it], |items|);
  }

  /** A payload cannot both open and close a block. */
  lemma NotBoth(it: Item)
    ensures !(Starts(it) && Ends(it))
  {
    assert HIST_END[0] != V_EQ[0];
  }

  lemma {:induction false} PiecesMean(g: Gate, items: seq<Item>, ps: seq<Piece>)
    requires GateMeans(g, items)
    ensures GateMeans(GateAfter(g, ps), items + Raws(ps))
    ensures Kept(items + Raws(ps)) == Kept(items) + Calls(g, ps)
    decreases |ps|
  {
    hide GateMeans, Kept, OnPiece, Passes;
    if ps == [] {
      assert items + Raws(ps) == items;
    } else {
      GateMeansStep(g, items, Raw(ps[0]));
      PiecesMean(OnPiece(g, ps[0]), items + [Raw(ps[0])], ps[1..]);
      assert items + Raws(ps) == (items + [Raw(ps[0])]) + Raws(ps[1..]);
    }
  }

  /** Main result: over any sequence of chunks and reconnects, what reaches emit and onMeta is every
      text and payload recognised, in order, except text in a history block once one is over. */
  lemma {:induction false} PageShowsKept(ops: seq<Op>)
    ensures GateMeans(Life(ops).gate, Life(ops).items) && Life(ops).calls == Kept(Life(ops).items)
  {
    hide GateMeans, Kept, Feed, GateAfter, Calls;
    if ops == [] {
      Nothing();
    } else {
      var p := Life(ops[..|ops| - 1]);
      PageShowsKept(ops[..|ops| - 1]);
      match ops[|ops| - 1]
      case Chunk(bytes) => PiecesMean(p.gate, p.items, Feed(MetaMarks(), p.st, bytes).pieces);
      case Reconnect =>
        GateMeansStep(p.gate, p.items, NewConnection);
    }
  }

  lemma Nothing()
    ensures GateMeans(CLOSED, []) && Kept([]) == []
  {}

  // ----- History once -----

  /** The calls as the comment above cmMakeMetaFilter promises them: history only until one completes. */
  function KeptOnce(items: seq<Item>): seq<Piece> {
    if items == [] then []
    else
      var k := |items| - 1;
      KeptOnce(items[..k]) +
      match items[k]
      case NewConnection => []
      case Raw(p) => if p.Text? && InBlock(items, k) && Completed(items, k) then [] else [p]
  }

  /** No stray hist_end before position k, unless a block has completed by then all the same. */
  predicate NoHarmfulStray(items: seq<Item>, k: nat)
    requires k <= |items|
  {
    StrayEnd(items, k) ==> Completed(items, k)
  }

  /** One item's share of the calls. */
  function Share(it: Item, hidden: bool): seq<Piece> {
    match it case NewConnection => [] case Raw(p) => if p.Text? && hidden then [] else [p]
  }

  lemma KeptStep(items: seq<Item>, it: Item)
    ensures var n := |items|;
            && Kept(items + [it])
               == Kept(items) + Share(it, InBlock(items, n) && (Completed(items, n) || StrayEnd(items, n)))
            && KeptOnce(items + [it]) == KeptOnce(items) + Share(it, InBlock(items, n) && Completed(items, n))
  {
    hide LastBodied, Completed, StrayEnd, InBlock;
    PastOnly(items, [it], |items|);
    EndsPastOnly(items, [it], |items|);
    assert (items + [it])[..|items|] == items;
  }

  /** Position k holds text of a history block. */
  predicate BlockText(items: seq<Item>, k: nat)
    requires k < |items|
  {
    items[k].Raw? && items[k].piece.Text? && InBlock(items, k)
  }

  /** Every text of a history block comes at a moment without a harmful stray. */
  ghost predicate BlocksUnharmed(items: seq<Item>) {
    forall k :: 0 <= k < |items| && BlockText(items, k) ==> NoHarmfulStray(items, k)
  }

  lemma UnharmedStep(items: seq<Item>, it: Item)
    ensures BlocksUnharmed(items + [it]) <==>
            && BlocksUnharmed(items)
            && (it.Raw? && it.piece.Text? && InBlock(items, |items|) ==> NoHarmfulStray(items, |items|))
  {
    hide LastBodied, Completed, StrayEnd, InBlock;
    var all := items + [it];
    forall k | 0 <= k <= |items|
      ensures all[k] == if k < |items| then items[k] else it
      ensures InBlock(all, k) == InBlock(items, k) && NoHarmfulStray(all, k) == NoHarmfulStray(items, k)
    {
      PastOnly(items, [it], k);
      EndsPastOnly(items, [it], k);
    }
    assert BlocksUnharmed(all) ==> forall k :: 0 <= k < |items| && BlockText(items, k) ==> BlockText(all, k);
    assert BlockText(all, |items|) <==> it.Raw? && it.piece.Text? && InBlock(items, |items|);
    assert BlocksUnharmed(items) ==> forall k :: 0 <= k < |items| && BlockText(all, k) ==> BlockText(items, k);
  }

  /** A page's calls so far are the promised ones if and only if its block texts are unharmed; and it
      never makes more calls than promised. */
  lemma {:induction false} OnceIffUnharmed(items: seq<Item>)
    ensures Kept(items) == KeptOnce(items) <==> BlocksUnharmed(items)
    ensures |Kept(items)| <= |KeptOnce(items)|
    ensures |Kept(items)| == |KeptOnce(items)| ==> Kept(items) == KeptOnce(items)
  {
    hide LastBodied, Completed, StrayEnd, InBlock, Kept, KeptOnce, BlocksUnharmed;
    if items == [] {
      NothingKept();
    } else {
      var k := |items| - 1;
      assert items == items[..k] + [items[k]];
      OnceIffUnharmed(items[..k]);
      KeptStep(items[..k], items[k]);
      UnharmedStep(items[..k], items[k]);
    }
  }

  lemma NothingKept()
    ensures Kept([]) == [] && KeptOnce([]) == [] && BlocksUnharmed([])
  {}

  /** A v= META of the same connection comes before position e. */
  predicate FollowsStart(items: seq<Item>, e: nat)
    requires e <= |items|
  {
    exists v :: 0 <= v < e && Starts(items[v]) && NoConnectionBetween(items, v, e)
  }

  predicate NoConnectionBetween(items: seq<Item>, v: int, k: int)
    requires 0 <= v && k <= |items|
  {
    forall j :: v < j < k ==> items[j] != NewConnection
  }

  /** The first end after `v` and before `e`, if `e` is not in v's block. */
  lemma FirstEnd(items: seq<Item>, v: nat, e: nat) returns (f: nat)
    requires v < e <= |items| && Starts(items[v]) && NoConnectionBetween(items, v, e) && !InBlock(items, e)
    ensures v < f < e && Ends(items[f]) && NoEndBetween(items, v, f)
  {
    f := v + 1;
    while f < e && !Ends(items[f])
      invariant v < f <= e && NoEndBetween(items, v, f)
    {
      f := f + 1;
    }
  }

  /** When every hist_end follows a v= META of its connection, a stray end does no harm: the last block
      before it has completed. */
  lemma FollowingEndsAreHarmless(items: seq<Item>, k: nat)
    requires k <= |items|
    requires forall e :: 0 <= e < k && Ends(items[e]) ==> FollowsStart(items, e)
    ensures NoHarmfulStray(items, k)
  {
    if StrayEnd(items, k) {
      var e :| 0 <= e < k && Ends(items[e]) && !InBlock(items, e) && LastBodied(items, e);
      var v :| 0 <= v < e && Bodied(items[v]) && NoStartBetween(items, v, e);
      var u :| 0 <= u < e && Starts(items[u]) && NoConnectionBetween(items, u, e);
      assert u <= v;
      var f := FirstEnd(items, v, e);
      assert NoStartBetween(items, v, f);
      assert InBlock(items, f) && LastBodied(items, f);
    }
  }

  /** If every hist_end follows a v= META of its connection, a page shows text outside blocks always, and
      block text exactly while no hist=1 block has completed. A block cut off before its hist_end has
      not completed: it is shown, and so is the next one. */
  lemma {:induction false} HistoryOnce(ops: seq<Op>)
    requires forall e :: 0 <= e < |Life(ops).items| && Ends(Life(ops).items[e]) ==> FollowsStart(Life(ops).items, e)
    ensures Life(ops).calls == KeptOnce(Life(ops).items)
  {
    hide Kept, KeptOnce, Life, NoHarmfulStray, FollowsStart;
    PageShowsKept(ops);
    var items := Life(ops).items;
    forall k | 0 <= k < |items| ensures NoHarmfulStray(items, k) { FollowingEndsAreHarmless(items, k); }
    OnceIffUnharmed(items);
  }
}
