/** cmTrackScroll and cmLastContentRow in web/static/term.js: where the page scrolls to while it follows
    the cursor. Pixels are real numbers. */
module Scroll {
  /** The last row with content below the cursor, or the cursor's. */
  method LastContentRow(lines: seq<string>, cy: int) returns (row: int)
    ensures row >= cy
    ensures forall i :: 0 <= i < |lines| && i > row ==> lines[i] == ""
    ensures row > cy ==> 0 <= row < |lines| && lines[row] != ""
  {
    var r := |lines| - 1;
    while r >= 0
      invariant -1 <= r < |lines|
      invariant forall i :: r < i < |lines| ==> lines[i] == ""
    {
      if lines[r] != "" { return if cy > r then cy else r; }
      r := r - 1;
    }
    return cy;
  }

  datatype Mode = Settle | UserScroll

  datatype View = View(mode: Mode, following: bool, cy: int, pinRow: int,
                       cellH: real, clientHeight: real, scrollHeight: real, scrollTop: real)

  datatype Tracked = Tracked(scrollTop: real, following: bool)

  function CellH(v: View): (h: real)
    ensures h > 0.0
  {
    if v.cellH > 0.0 then v.cellH else 1.0
  }

  /** The upper edge of a row. */
  function RowTop(row: int, cellH: real): real { row as real * cellH }

  function MaxTop(v: View): (t: real)
    ensures t >= 0.0
  {
    if v.scrollHeight - v.clientHeight > 0.0 then v.scrollHeight - v.clientHeight else 0.0
  }

  function Clamp(v: View, t: real): (r: real)
    ensures 0.0 <= r <= MaxTop(v)
  {
    if t < 0.0 then 0.0 else if t > MaxTop(v) then MaxTop(v) else t
  }

  function PinRow(v: View): int { if v.pinRow > v.cy then v.pinRow else v.cy }

  function PinTop(v: View): real {
    var pinTop := Clamp(v, RowTop(PinRow(v) + 1, CellH(v)) - v.clientHeight);
    if pinTop > RowTop(v.cy, CellH(v)) then Clamp(v, RowTop(v.cy + 1, CellH(v)) - v.clientHeight) else pinTop
  }

  function TrackScroll(v: View): Tracked {
    match v.mode
    case UserScroll =>
      Tracked(v.scrollTop, v.scrollTop + v.clientHeight >= RowTop(v.cy + 1, CellH(v)) - CellH(v))
    case Settle =>
      if v.following then Tracked(PinTop(v), true) else Tracked(v.scrollTop, false)
  }

  /** A page of `rows` rows of cellH pixels, a window of one row or more, the cursor on the page. */
  predicate Fits(v: View, rows: int) {
    && v.cellH > 0.0 && v.scrollHeight == RowTop(rows, v.cellH) && v.clientHeight >= v.cellH
    && 0 <= v.cy < rows
  }

  predicate RowVisible(v: View, top: real, row: int) {
    top <= RowTop(row, CellH(v)) && RowTop(row + 1, CellH(v)) <= top + v.clientHeight
  }

  lemma RowsApart(a: int, b: int, h: real)
    requires h > 0.0
    ensures RowTop(a + 1, h) == RowTop(a, h) + h
    ensures a <= b ==> RowTop(a, h) <= RowTop(b, h)
    ensures a < b ==> RowTop(a + 1, h) <= RowTop(b, h)
  {
    assert (a + 1) as real * h == a as real * h + h;
    if a <= b { assert (b - a) as real * h >= 0.0; assert b as real * h == a as real * h + (b - a) as real * h; }
    if a < b {
      assert (b - a - 1) as real * h >= 0.0;
      assert b as real * h == (a + 1) as real * h + (b - a - 1) as real * h;
    }
  }

  /** Settling while following: the place is on the page and the whole cursor row is visible. */
  lemma SettleShowsCursor(v: View, rows: int)
    requires Fits(v, rows) && v.mode == Settle && v.following
    ensures var r := TrackScroll(v);
            r.following && 0.0 <= r.scrollTop <= MaxTop(v) && RowVisible(v, r.scrollTop, v.cy)
  {
    hide RowTop;
    var h := v.cellH;
    RowsApart(0, v.cy, h);
    RowsApart(v.cy, v.cy, h);
    RowsApart(v.cy, rows, h);
    RowsApart(v.cy + 1, PinRow(v) + 1, h);
    assert RowTop(0, h) == 0.0 by { RowZero(h); }
  }

  lemma RowZero(h: real)
    ensures RowTop(0, h) == 0.0
  {}

  /** The content's last row is brought to view too, just when both it and the cursor's row fit. */
  lemma SettleShowsPinIffItFits(v: View, rows: int)
    requires Fits(v, rows) && v.mode == Settle && v.following && PinRow(v) < rows
    ensures var bottom := RowTop(PinRow(v) + 1, v.cellH);
            bottom <= TrackScroll(v).scrollTop + v.clientHeight <==> bottom - RowTop(v.cy, v.cellH) <= v.clientHeight
  {
    hide RowTop;
    var h := v.cellH;
    RowZero(h);
    RowsApart(0, v.cy, h);
    RowsApart(v.cy, v.cy, h);
    RowsApart(v.cy, rows, h);
    RowsApart(PinRow(v), rows, h);
    RowsApart(v.cy + 1, PinRow(v) + 1, h);
  }

  /** The scroll event that a pin causes, and settling again, change nothing. */
  lemma SettledIsStable(v: View, rows: int)
    requires Fits(v, rows) && v.mode == Settle && v.following
    ensures var r := TrackScroll(v);
            && TrackScroll(v.(mode := UserScroll, scrollTop := r.scrollTop)) == r
            && TrackScroll(v.(scrollTop := r.scrollTop)) == r
  {
    hide RowTop;
    SettleShowsCursor(v, rows);
    RowsApart(v.cy, v.cy, v.cellH);
  }

  /** While not following, nothing but the user moves the page; a user's scroll never moves it itself. */
  lemma NeverMovesReader(v: View)
    requires !v.following || v.mode == UserScroll
    ensures TrackScroll(v).scrollTop == v.scrollTop
  {}

  lemma PinIsLeast(v: View, rows: int, top: real)
    requires Fits(v, rows) && v.mode == Settle && v.following && PinRow(v) < rows
    ensures var bothFit := RowTop(PinRow(v) + 1, v.cellH) - RowTop(v.cy, v.cellH) <= v.clientHeight;
            var bottom := RowTop((if bothFit then PinRow(v) else v.cy) + 1, v.cellH);
            && bottom <= TrackScroll(v).scrollTop + v.clientHeight
            && (0.0 <= top && bottom <= top + v.clientHeight ==> TrackScroll(v).scrollTop <= top)
  {
    hide RowTop, PinRow;
    var h := v.cellH;
    SettleShowsPinIffItFits(v, rows);
    SettleShowsCursor(v, rows);
    RowZero(h);
    RowsApart(0, v.cy, h);
    RowsApart(PinRow(v), rows, h);
    RowsApart(v.cy, rows, h);
  }

  /** A settled page is scrolled no further than it must be: to the least place that shows the last content
      row, when that row and the cursor's both fit in the window, and otherwise the cursor's. */
  lemma SettlesAtLeastPlace(v: View, rows: int, top: real)
    requires Fits(v, rows) && v.mode == Settle && v.following && v.pinRow < rows
    ensures var pin := if v.pinRow < v.cy then v.cy else v.pinRow;
            var bothFit := (pin + 1) as real * v.cellH - v.cy as real * v.cellH <= v.clientHeight;
            var bottom := ((if bothFit then pin else v.cy) + 1) as real * v.cellH;
            && bottom <= TrackScroll(v).scrollTop + v.clientHeight
            && (0.0 <= top && bottom <= top + v.clientHeight ==> TrackScroll(v).scrollTop <= top)
  {
    hide TrackScroll, Fits;
    assert PinRow(v) < rows by { CursorOnPage(v, rows); }
    PinIsLeast(v, rows, top);
  }

  lemma CursorOnPage(v: View, rows: int)
    requires Fits(v, rows)
    ensures v.cy < rows
  {}

  /** Rows without a height count as one pixel, a content row above the cursor as the cursor's. */
  lemma OddViews(v: View)
    ensures v.cellH <= 0.0 ==> TrackScroll(v) == TrackScroll(v.(cellH := 1.0))
    ensures v.pinRow < v.cy ==> TrackScroll(v) == TrackScroll(v.(pinRow := v.cy))
  {}

  /** After a user's scroll the page follows unless the cursor's row lies wholly below the window. */
  lemma UserFollowsIff(v: View)
    requires v.mode == UserScroll
    ensures var h := if v.cellH > 0.0 then v.cellH else 1.0;
            TrackScroll(v).following <==> v.cy as real * h <= v.scrollTop + v.clientHeight
    ensures TrackScroll(v).scrollTop == v.scrollTop
  {
    var h := CellH(v);
    assert (v.cy + 1) as real * h == v.cy as real * h + h;
  }

  // ----- A page over time -----

  /** The screen as some frames left it. */
  datatype Frame = Frame(rows: int, cy: int, pinRow: int, cellH: real, clientHeight: real)

  function At(f: Frame, mode: Mode, t: Tracked): View {
    View(mode, t.following, f.cy, f.pinRow, f.cellH, f.clientHeight, RowTop(f.rows, f.cellH), t.scrollTop)
  }

  /** There is still enough page below the place. */
  predicate HasRoom(f: Frame, top: real) { 0.0 <= top <= MaxTop(At(f, Settle, Tracked(top, false))) }

  /** The page's handler runs when the place has changed. */
  function Scrolled(f: Frame, t: Tracked, top: real): Tracked {
    if top == t.scrollTop then t else TrackScroll(At(f, UserScroll, Tracked(top, t.following)))
  }

  /** A frame: the browser keeps the place on the page, which is a scroll if that moves it; then the page
      settles, which is another if that moves it. */
  function Landed(f: Frame, t: Tracked): Tracked {
    var kept := Scrolled(f, t, Clamp(At(f, Settle, t), t.scrollTop));
    var settled := TrackScroll(At(f, Settle, kept));
    Scrolled(f, kept.(following := settled.following), settled.scrollTop)
  }

  function Land(frames: seq<Frame>, t: Tracked): Tracked
    decreases |frames|
  {
    if frames == [] then t else Land(frames[1..], Landed(frames[0], t))
  }

  predicate FrameFits(f: Frame) { f.cellH > 0.0 && f.clientHeight >= f.cellH && 0 <= f.cy < f.rows }

  /** A place that the browser had to move shows the end of the page, and so the cursor. */
  lemma ClampedFollows(f: Frame, t: Tracked)
    requires FrameFits(f) && t.scrollTop > MaxTop(At(f, Settle, t))
    ensures Scrolled(f, t, MaxTop(At(f, Settle, t))).following
  {
    hide RowTop;
    RowsApart(f.cy, f.rows, f.cellH);
  }

  /** What a frame does to a page that follows, and to one that does not and keeps its place. */
  lemma LandedFollows(f: Frame, t: Tracked)
    requires FrameFits(f) && t.scrollTop >= 0.0
    ensures Landed(f, t).scrollTop >= 0.0
    ensures Landed(f, t).following <==> t.following || !HasRoom(f, t.scrollTop)
    ensures Landed(f, t).following ==> RowVisible(At(f, Settle, t), Landed(f, t).scrollTop, f.cy)
    ensures !Landed(f, t).following ==> Landed(f, t) == t
  {
    hide RowTop;
    var v := At(f, Settle, t);
    RowsApart(0, f.cy, f.cellH);
    RowsApart(f.cy, f.rows, f.cellH);
    if t.scrollTop > MaxTop(v) { ClampedFollows(f, t); }
    var kept := Scrolled(f, t, Clamp(v, t.scrollTop));
    if kept.following {
      var k := At(f, Settle, kept);
      SettleShowsCursor(k, f.rows);
      SettledIsStable(k, f.rows);
      assert At(f, UserScroll, TrackScroll(k)) == k.(mode := UserScroll, scrollTop := TrackScroll(k).scrollTop);
    }
  }

  /** Every frame leaves the place on the page. */
  predicate RoomAlways(frames: seq<Frame>, top: real) { forall f :: f in frames ==> HasRoom(f, top) }

  /** However the content grows, shrinks or is resized: a page that follows goes on following and shows
      the cursor's row after every frame. A page that does not follow stays where its reader left it, as
      long as every frame leaves that place on the page; and it follows again if and only if one does not. */
  lemma {:induction false} FollowsUntilUserLeaves(frames: seq<Frame>, t: Tracked)
    requires t.scrollTop >= 0.0 && forall f :: f in frames ==> FrameFits(f)
    ensures Land(frames, t).following <==> t.following || !RoomAlways(frames, t.scrollTop)
    ensures !Land(frames, t).following ==> Land(frames, t) == t
    ensures Land(frames, t).following && frames != [] ==>
              var f := frames[|frames| - 1];
              RowVisible(At(f, Settle, t), Land(frames, t).scrollTop, f.cy)
    decreases |frames|
  {
    hide RowTop, RowVisible, HasRoom, Landed;
    if frames != [] {
      var next := Landed(frames[0], t);
      LandedFollows(frames[0], t);
      FollowsUntilUserLeaves(frames[1..], next);
      assert RoomAlways(frames, t.scrollTop)
        <==> HasRoom(frames[0], t.scrollTop) && RoomAlways(frames[1..], t.scrollTop);
      VisibleWhatever(frames[|frames| - 1], t, next, Land(frames, t).scrollTop);
    }
  }

  /** The reader scrolls to a place. From then on, whatever frames come: the page follows just when the cursor's
      row was not wholly below the window there, or a frame has left the page too short for the place; until
      then the reader's place stays as it is. */
  lemma ReaderKeepsPlaceIff(f: Frame, t: Tracked, top: real, frames: seq<Frame>)
    requires f.cellH > 0.0 && 0.0 <= top && top != t.scrollTop && forall g :: g in frames ==> FrameFits(g)
    ensures var p := Land(frames, Scrolled(f, t, top));
            var short := exists g :: g in frames && g.rows as real * g.cellH - g.clientHeight < top && top > 0.0;
            && (p.following <==> f.cy as real * f.cellH <= top + f.clientHeight || short)
            && (!p.following ==> p.scrollTop == top)
  {
    hide FrameFits, Land, TrackScroll;
    UserFollowsIff(At(f, UserScroll, Tracked(top, t.following)));
    FollowsUntilUserLeaves(frames, Scrolled(f, t, top));
  }

  /** A page whose reader is moved: 10 rows of 10 pixels in a window of 30, scrolled to 50 and not following;
      the window grows to the whole page, so that the place is 0, and the page follows again. */
  lemma GrowingWindowFollows()
    ensures var f := Frame(10, 9, 9, 10.0, 100.0);
            FrameFits(f) && !HasRoom(f, 50.0) && Landed(f, Tracked(50.0, false)) == Tracked(0.0, true)
  {
    assert RowTop(10, 10.0) == 100.0;
  }

  lemma VisibleWhatever(f: Frame, t1: Tracked, t2: Tracked, top: real)
    ensures RowVisible(At(f, Settle, t1), top, f.cy) == RowVisible(At(f, Settle, t2), top, f.cy)
  {}
}
