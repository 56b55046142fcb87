/** Incremental recognition of `open ... close` frames in a byte stream that arrives in chunks.
    Both terminal filters are instances: the synchronized-update filter keeps the opening marker in
    the frame (`skip` is 0), the META filter drops it (`skip` is the marker's length). */
module Framing {
  import opened Basics
  import opened Markers

  /** After `open` at position i, the frame body and the search for `close` start at i + skip. */
  datatype Marks = Marks(open: seq<Byte>, close: seq<Byte>, skip: nat) {
    predicate Ok() { open != [] && close != [] && skip <= |open| }
  }

  /** A stretch of text outside frames, or the body of one complete frame (without `close`). */
  datatype Piece = Text(bytes: seq<Byte>) | Frame(bytes: seq<Byte>)

  /** What a filter remembers between two chunks. `acc` is empty outside a frame. */
  datatype State = State(inside: bool, acc: seq<Byte>, carry: seq<Byte>)

  datatype Fed = Fed(pieces: seq<Piece>, st: State)

  const INITIAL := State(false, [], [])

  function TextPiece(t: seq<Byte>): seq<Piece> {
    if t == [] then [] else [Text(t)]
  }

  /** The filters' common loop over the bytes in hand. */
  function Loop(m: Marks, d: seq<Byte>, inside: bool, acc: seq<Byte>): Fed
    requires m.Ok()
    decreases |d|, if inside then 0 else 1
  {
    if d == [] then Fed([], State(inside, acc, []))
    else if !inside then
      var i := First(d, m.open);
      if i < 0 then
        var cut := |d| - Hold(d, m.open);
        Fed(TextPiece(d[..cut]), State(false, [], d[cut..]))
      else
        var rest := Loop(m, d[i + m.skip..], true, []);
        Fed(TextPiece(d[..i]) + rest.pieces, rest.st)
    else
      var j := First(d, m.close);
      if j < 0 then
        var cut := |d| - Hold(d, m.close);
        Fed([], State(true, acc + d[..cut], d[cut..]))
      else
        var rest := Loop(m, d[j + |m.close|..], false, []);
        Fed([Frame(acc + d[..j])] + rest.pieces, rest.st)
  }

  /** One chunk: the carry of the last chunk goes in front. */
  function Feed(m: Marks, st: State, chunk: seq<Byte>): Fed
    requires m.Ok()
  {
    Loop(m, st.carry + chunk, st.inside, st.acc)
  }

  function FeedAll(m: Marks, chunks: seq<seq<Byte>>): Fed
    requires m.Ok()
  {
    if chunks == [] then Fed([], INITIAL)
    else
      var before := FeedAll(m, chunks[..|chunks| - 1]);
      var last := Feed(m, before.st, chunks[|chunks| - 1]);
      Fed(before.pieces + last.pieces, last.st)
  }

  function Flatten(chunks: seq<seq<Byte>>): seq<Byte> {
    if chunks == [] then [] else Flatten(chunks[..|chunks| - 1]) + chunks[|chunks| - 1]
  }

  // ----- The one-shot reference -----

  /** A whole stream cut at the leftmost `open`, then at the leftmost `close` after it, and so on.
      Nothing is held back and there are no chunks. */
  datatype Stream =
    | Plain(text: seq<Byte>)
    | Open(text: seq<Byte>, body: seq<Byte>)
    | Framed(text: seq<Byte>, body: seq<Byte>, rest: Stream)

  function Split(m: Marks, x: seq<Byte>): Stream
    requires m.Ok()
    decreases |x|
  {
    var i := First(x, m.open);
    if i < 0 then Plain(x)
    else
      var body := x[i + m.skip..];
      var j := First(body, m.close);
      if j < 0 then Open(x[..i], body)
      else Framed(x[..i], body[..j], Split(m, body[j + |m.close|..]))
  }

  /** What a filter may have let out of a stream, and what it must still hold:
      everything except a tail that could be the start of the marker it is waiting for. */
  function Seen(m: Marks, s: Stream): Fed
    requires m.Ok()
  {
    match s
    case Plain(t) =>
      var cut := |t| - Hold(t, m.open);
      Fed(TextPiece(t[..cut]), State(false, [], t[cut..]))
    case Open(t, b) =>
      var cut := |b| - Hold(b, m.close);
      Fed(TextPiece(t), State(true, b[..cut], b[cut..]))
    case Framed(t, b, rest) =>
      var after := Seen(m, rest);
      Fed(TextPiece(t) + [Frame(b)] + after.pieces, after.st)
  }

  /** Adjacent texts count as one: where a filter cuts a text is up to the chunking. */
  function Push(out: seq<Piece>, p: Piece): seq<Piece> {
    if p.Text? && p.bytes == [] then out
    else if p.Text? && out != [] && out[|out| - 1].Text? then
      out[..|out| - 1] + [Text(out[|out| - 1].bytes + p.bytes)]
    else out + [p]
  }

  function Join(out: seq<Piece>, ps: seq<Piece>): seq<Piece>
    decreases |ps|
  {
    if ps == [] then out else Join(Push(out, ps[0]), ps[1..])
  }

  lemma {:induction false} JoinAppend(out: seq<Piece>, a: seq<Piece>, b: seq<Piece>)
    ensures Join(out, a + b) == Join(Join(out, a), b)
    decreases |a|
  {
    if a == [] {
      assert a + b == b;
    } else {
      assert (a + b)[0] == a[0] && (a + b)[1..] == a[1..] + b;
      JoinAppend(Push(out, a[0]), a[1..], b);
    }
  }

  lemma JoinOne(out: seq<Piece>, p: Piece)
    ensures Join(out, [p]) == Push(out, p)
  {
    assert [p][1..] == [];
    assert Join(Push(out, p), []) == Push(out, p);
  }

  lemma JoinText(out: seq<Piece>, t: seq<Byte>)
    ensures Join(out, TextPiece(t)) == Push(out, Text(t))
  {
    if t != [] { JoinOne(out, Text(t)); }
  }

  /** A text emitted in two parts is the text emitted at once. */
  lemma JoinTexts(out: seq<Piece>, a: seq<Byte>, b: seq<Byte>)
    ensures Join(Join(out, TextPiece(a)), TextPiece(b)) == Join(out, TextPiece(a + b))
  {
    hide Join;
    JoinText(out, a);
    JoinText(Join(out, TextPiece(a)), b);
    JoinText(out, a + b);
    if a == [] { assert a + b == b; }
    if b == [] { assert a + b == a; }
    if a != [] && b != [] && out != [] && out[|out| - 1].Text? {
      var o := Push(out, Text(a));
      assert o[..|o| - 1] == out[..|out| - 1];
      assert out[|out| - 1].bytes + a + b == out[|out| - 1].bytes + (a + b);
    } else if a != [] && b != [] {
      assert (out + [Text(a)])[..|out|] == out;
    }
  }

  // ----- Chunking does not matter -----

  /** The turns of the loop that end it. */
  lemma LoopTurn(m: Marks, d: seq<Byte>, inside: bool, acc: seq<Byte>)
    requires m.Ok() && (!inside ==> acc == [])
    ensures d == [] ==> Loop(m, d, inside, acc) == Fed([], State(inside, acc, []))
    ensures d != [] && !inside && First(d, m.open) < 0 ==>
            var cut := |d| - Hold(d, m.open);
            Loop(m, d, inside, acc) == Fed(TextPiece(d[..cut]), State(false, [], d[cut..]))
    ensures d != [] && inside && First(d, m.close) < 0 ==>
            var cut := |d| - Hold(d, m.close);
            Loop(m, d, inside, acc) == Fed([], State(true, acc + d[..cut], d[cut..]))
  {}

  lemma LoopOpenTurn(m: Marks, d: seq<Byte>)
    requires m.Ok() && First(d, m.open) >= 0
    ensures var i := First(d, m.open);
            var r := Loop(m, d[i + m.skip..], true, []);
            Loop(m, d, false, []) == Fed(TextPiece(d[..i]) + r.pieces, r.st)
  {
    hide First, Hold, Leftmost, Longest, TextPiece;
  }

  lemma LoopFrameTurn(m: Marks, d: seq<Byte>, acc: seq<Byte>)
    requires m.Ok() && First(d, m.close) >= 0
    ensures var j := First(d, m.close);
            var r := Loop(m, d[j + |m.close|..], false, []);
            Loop(m, d, true, acc) == Fed([Frame(acc + d[..j])] + r.pieces, r.st)
  {
    hide First, Hold, Leftmost, Longest;
  }

  // ----- The loop, one turn at a time -----

  /** A filter that must end as `all` has let out `done` and still has the bytes `d` in hand. */
  ghost predicate Progress(m: Marks, all: Fed, done: seq<Piece>, d: seq<Byte>, inside: bool, acc: seq<Byte>)
    requires m.Ok()
  {
    var r := Loop(m, d, inside, acc);
    all.st == r.st && all.pieces == done + r.pieces
  }

  lemma OpenProgress(m: Marks, all: Fed, done: seq<Piece>, d: seq<Byte>)
    requires m.Ok() && First(d, m.open) >= 0 && Progress(m, all, done, d, false, [])
    ensures var i := First(d, m.open);
            Progress(m, all, done + TextPiece(d[..i]), d[i + m.skip..], true, [])
  {
    hide First, Hold, Leftmost, Longest, Loop, TextPiece;
    LoopOpenTurn(m, d);
  }

  lemma FrameProgress(m: Marks, all: Fed, done: seq<Piece>, d: seq<Byte>, acc: seq<Byte>)
    requires m.Ok() && First(d, m.close) >= 0 && Progress(m, all, done, d, true, acc)
    ensures var j := First(d, m.close);
            Progress(m, all, done + [Frame(acc + d[..j])], d[j + |m.close|..], false, [])
  {
    hide First, Hold, Leftmost, Longest, Loop;
    LoopFrameTurn(m, d, acc);
  }

  lemma LastProgress(m: Marks, all: Fed, done: seq<Piece>, d: seq<Byte>, inside: bool, acc: seq<Byte>)
    requires m.Ok() && (!inside ==> acc == []) && Progress(m, all, done, d, inside, acc)
    ensures d == [] ==> all == Fed(done, State(inside, acc, []))
    ensures d != [] && !inside && First(d, m.open) < 0 ==>
            var cut := |d| - Hold(d, m.open);
            all == Fed(done + TextPiece(d[..cut]), State(false, [], d[cut..]))
    ensures d != [] && inside && First(d, m.close) < 0 ==>
            var cut := |d| - Hold(d, m.close);
            all == Fed(done, State(true, acc + d[..cut], d[cut..]))
  {
    hide First, Hold, Leftmost, Longest, Loop, TextPiece;
    LoopTurn(m, d, inside, acc);
  }

  /** The reference's cut, without a closing marker and with one. */
  lemma SplitTurn(m: Marks, d: seq<Byte>)
    requires m.Ok() && First(d, m.open) >= 0
    ensures var i := First(d, m.open);
            var body := d[i + m.skip..];
            var j := First(body, m.close);
            Split(m, d) == if j < 0 then Open(d[..i], body)
                           else Framed(d[..i], body[..j], Split(m, body[j + |m.close|..]))
  {
    hide First, Leftmost;
  }

  lemma SeenOpen(m: Marks, t: seq<Byte>, b: seq<Byte>)
    requires m.Ok() && b != [] && First(b, m.close) < 0
    ensures var r := Loop(m, b, true, []);
            Seen(m, Open(t, b)) == Fed(TextPiece(t) + r.pieces, r.st)
  {
    hide First, Hold, Leftmost, Longest, TextPiece, Loop;
    LoopTurn(m, b, true, []);
    var cut := |b| - Hold(b, m.close);
    assert [] + b[..cut] == b[..cut];
    assert TextPiece(t) + [] == TextPiece(t);
  }

  /** A frame opens at the end of what there is. */
  lemma SeenJustOpen(m: Marks, t: seq<Byte>)
    requires m.Ok()
    ensures Seen(m, Open(t, [])) == Fed(TextPiece(t) + Loop(m, [], true, []).pieces, Loop(m, [], true, []).st)
  {
    hide First, Leftmost, Longest, TextPiece;
    assert TextPiece(t) + [] == TextPiece(t);
  }

  lemma SeenFramed(m: Marks, t: seq<Byte>, body: seq<Byte>, j: nat, s: Stream)
    requires m.Ok() && First(body, m.close) == j
    requires Loop(m, body[j + |m.close|..], false, []) == Seen(m, s)
    ensures var r := Loop(m, body, true, []);
            Seen(m, Framed(t, body[..j], s)) == Fed(TextPiece(t) + r.pieces, r.st)
  {
    hide First, Hold, Leftmost, Longest, TextPiece, Loop;
    LoopFrameTurn(m, body, []);
    assert [] + body[..j] == body[..j];
    var ps := Seen(m, s).pieces;
    assert TextPiece(t) + ([Frame(body[..j])] + ps) == TextPiece(t) + [Frame(body[..j])] + ps;
  }

  /** Without an opening marker everything but the held tail is text. */
  lemma LoopIsPlain(m: Marks, d: seq<Byte>)
    requires m.Ok() && First(d, m.open) < 0
    ensures Loop(m, d, false, []) == Seen(m, Split(m, d))
  {
    hide First, Hold, Leftmost, Longest, TextPiece, Loop;
    LoopTurn(m, d, false, []);
    if d == [] { TextNone(); }
  }

  /** Fed in one go from the start, the loop is the reference. */
  lemma {:induction false} LoopIsSplit(m: Marks, d: seq<Byte>)
    requires m.Ok()
    ensures Loop(m, d, false, []) == Seen(m, Split(m, d))
    decreases |d|
  {
    hide First, Hold, Leftmost, Longest, TextPiece, Loop, Seen, Split;
    var i := First(d, m.open);
    if i < 0 {
      LoopIsPlain(m, d);
    } else {
      LoopOpenTurn(m, d);
      SplitTurn(m, d);
      var body := d[i + m.skip..];
      var j := First(body, m.close);
      if body == [] {
        SeenJustOpen(m, d[..i]);
      } else if j < 0 {
        SeenOpen(m, d[..i], body);
      } else {
        LoopIsSplit(m, body[j + |m.close|..]);
        SeenFramed(m, d[..i], body, j, Split(m, body[j + |m.close|..]));
      }
    }
  }

  lemma TextNone()
    ensures TextPiece([]) == []
  {}

  /** Bytes that arrive later do not change the first marker once there is one. */
  lemma FirstStable(x: seq<Byte>, c: seq<Byte>, pat: seq<Byte>)
    requires pat != [] && First(x, pat) >= 0
    ensures First(x + c, pat) == First(x, pat)
  {
    var i := First(x, pat);
    AtInside(x, c, pat, i);
    AtInside(x, c, pat, First(x + c, pat));
  }

  /** Two parts of a text, and what follows the second, let out at once or one after the other. */
  lemma JoinTextsThen(out: seq<Piece>, a: seq<Byte>, b: seq<Byte>, ps: seq<Piece>)
    ensures Join(Join(out, TextPiece(a)), TextPiece(b) + ps) == Join(out, TextPiece(a + b) + ps)
  {
    hide Join, TextPiece;
    JoinTexts(out, a, b);
    JoinAppend(Join(out, TextPiece(a)), TextPiece(b), ps);
    JoinAppend(out, TextPiece(a + b), ps);
  }

  /** The cut of a stream at its first complete frame. */
  lemma SplitFramed(m: Marks, x: seq<Byte>, c: seq<Byte>)
    requires m.Ok() && Split(m, x).Framed?
    ensures First(x, m.open) >= 0 && First(x[First(x, m.open) + m.skip..], m.close) >= 0
    ensures var i := First(x, m.open);
            var body := x[i + m.skip..];
            var j := First(body, m.close);
            var y := body[j + |m.close|..];
            Split(m, x) == Framed(x[..i], body[..j], Split(m, y)) && |y| < |x| &&
            Split(m, x + c) == Framed(x[..i], body[..j], Split(m, y + c))
  {
    hide First;
    var i := First(x, m.open);
    FirstStable(x, c, m.open);
    var body := x[i + m.skip..];
    assert (x + c)[..i] == x[..i];
    assert (x + c)[i + m.skip..] == body + c;
    FirstStable(body, c, m.close);
    var j := First(body, m.close);
    assert (body + c)[..j] == body[..j];
    assert (body + c)[j + |m.close|..] == body[j + |m.close|..] + c;
  }

  /** The cut of a stream that ends inside a frame, and of its continuation. */
  lemma SplitOpen(m: Marks, x: seq<Byte>, c: seq<Byte>)
    requires m.Ok() && Split(m, x).Open?
    ensures var i := First(x, m.open);
            var e := x[i + m.skip..] + c;
            var j := First(e, m.close);
            i >= 0 && Split(m, x) == Open(x[..i], x[i + m.skip..]) && First(x[i + m.skip..], m.close) < 0 &&
            Split(m, x + c) == if j < 0 then Open(x[..i], e)
                               else Framed(x[..i], e[..j], Split(m, e[j + |m.close|..]))
  {
    hide First;
    var i := First(x, m.open);
    FirstStable(x, c, m.open);
    assert (x + c)[..i] == x[..i];
    assert (x + c)[i + m.skip..] == x[i + m.skip..] + c;
  }

  /** The state after a stream is all that is needed to go on: feeding the next chunk from there
      lets out what the reference lets out of the longer stream. */
  lemma {:induction false} Resume(m: Marks, x: seq<Byte>, c: seq<Byte>, out: seq<Piece>)
    requires m.Ok()
    ensures Resumes(m, Seen(m, Split(m, x)), c, Seen(m, Split(m, x + c)), out)
    decreases |x|
  {
    hide First, Hold, Leftmost, Longest, Join, Loop, Resumes, Seen;
    match Split(m, x)
    case Plain(t) =>
      assert t == x && First(x, m.open) < 0;
      ResumePlain(m, x, c, out);
    case Open(t, b) =>
      SplitOpen(m, x, c);
      ResumeOpen(m, t, b, c, out);
    case Framed(t, b, rest) =>
      SplitFramed(m, x, c);
      var body := x[First(x, m.open) + m.skip..];
      var y := body[First(body, m.close) + |m.close|..];
      Resume(m, y, c, Join(out, TextPiece(t) + [Frame(b)]));
      ResumeAfter(m, t, b, Split(m, y), c, Split(m, y + c), out);
  }

  lemma ResumeAfter(m: Marks, t: seq<Byte>, b: seq<Byte>, s: Stream, c: seq<Byte>, u: Stream, out: seq<Piece>)
    requires m.Ok()
    requires Resumes(m, Seen(m, s), c, Seen(m, u), Join(out, TextPiece(t) + [Frame(b)]))
    ensures Resumes(m, Seen(m, Framed(t, b, s)), c, Seen(m, Framed(t, b, u)), out)
  {
    hide First, Hold, Leftmost, Longest, Join, Feed, TextPiece;
    JoinAppend(out, TextPiece(t) + [Frame(b)], Seen(m, s).pieces);
    JoinAppend(out, TextPiece(t) + [Frame(b)], Seen(m, u).pieces);
  }

  /** Going on from `s` with the chunk `c` gives what `t` says, on top of anything let out earlier. */
  predicate Resumes(m: Marks, s: Fed, c: seq<Byte>, t: Fed, out: seq<Piece>)
    requires m.Ok()
  {
    var r := Feed(m, s.st, c);
    r.st == t.st && Join(Join(out, s.pieces), r.pieces) == Join(out, t.pieces)
  }

  /** What is seen of a stream, by whether a frame opens in it. */
  lemma SeenFromStart(m: Marks, x: seq<Byte>)
    requires m.Ok()
    ensures var i := First(x, m.open);
            if i < 0 then Seen(m, Split(m, x)) == Seen(m, Plain(x))
            else var r := Loop(m, x[i + m.skip..], true, []);
                 Seen(m, Split(m, x)) == Fed(TextPiece(x[..i]) + r.pieces, r.st)
  {
    hide First, Hold, Leftmost, Longest;
    LoopIsSplit(m, x);
  }

  /** Cutting `x + c` behind position `cut` of `x`. */
  lemma Cut(x: seq<Byte>, c: seq<Byte>, cut: nat, k: nat)
    requires cut <= |x| && cut + k <= |x + c|
    ensures var e := x[cut..] + c;
            (x + c)[..cut + k] == x[..cut] + e[..k] && (x + c)[cut + k..] == e[k..]
  {
    assert x + c == x[..cut] + (x[cut..] + c);
  }

  /** Outside frames, the longer stream is seen as the held tail with the chunk is, after more text. */
  lemma PlainContinues(m: Marks, x: seq<Byte>, c: seq<Byte>) returns (t: seq<Byte>, ps: seq<Piece>, st: State)
    requires m.Ok() && First(x, m.open) < 0
    ensures var cut := |x| - Hold(x, m.open);
            Seen(m, Split(m, x[cut..] + c)) == Fed(TextPiece(t) + ps, st) &&
            Seen(m, Split(m, x + c)) == Fed(TextPiece(x[..cut] + t) + ps, st)
  {
    hide First, Hold, Leftmost, Longest, TextPiece, Loop, Split;
    var cut := |x| - Hold(x, m.open);
    var e := x[cut..] + c;
    SearchResumes(x, c, m.open);
    SeenFromStart(m, e);
    SeenFromStart(m, x + c);
    var k := First(e, m.open);
    if k < 0 {
      HoldResumes(x, c, m.open);
      var cut2 := |e| - Hold(e, m.open);
      Cut(x, c, cut, cut2);
      t, ps, st := e[..cut2], [], State(false, [], e[cut2..]);
    } else {
      Cut(x, c, cut, k);
      Cut(x, c, cut, k + m.skip);
      var r := Loop(m, e[k + m.skip..], true, []);
      t, ps, st := e[..k], r.pieces, r.st;
    }
  }

  lemma ResumePlain(m: Marks, x: seq<Byte>, c: seq<Byte>, out: seq<Piece>)
    requires m.Ok() && First(x, m.open) < 0
    ensures Resumes(m, Seen(m, Plain(x)), c, Seen(m, Split(m, x + c)), out)
  {
    hide First, Hold, Leftmost, Longest, Join, TextPiece, Loop, Split;
    var cut := |x| - Hold(x, m.open);
    var t, ps, st := PlainContinues(m, x, c);
    LoopIsSplit(m, x[cut..] + c);
    JoinTextsThen(out, x[..cut], t, ps);
  }

  /** One turn of the loop inside a frame. */
  lemma LoopInside(m: Marks, d: seq<Byte>, acc: seq<Byte>)
    requires m.Ok()
    ensures var j := First(d, m.close);
            Loop(m, d, true, acc) ==
            if j < 0 then Fed([], State(true, acc + d[..|d| - Hold(d, m.close)], d[|d| - Hold(d, m.close)..]))
            else var after := Seen(m, Split(m, d[j + |m.close|..]));
                 Fed([Frame(acc + d[..j])] + after.pieces, after.st)
  {
    hide First, Hold, Leftmost, Longest, Seen, Split, Loop;
    var j := First(d, m.close);
    if j >= 0 {
      LoopIsSplit(m, d[j + |m.close|..]);
      LoopFrameTurn(m, d, acc);
    } else {
      if d == [] { assert acc + d[..0] == acc; }
      LoopTurn(m, d, true, acc);
    }
  }

  /** Inside a frame, the same for the frame's body. */
  lemma OpenContinues(m: Marks, t: seq<Byte>, b: seq<Byte>, c: seq<Byte>)
    requires m.Ok() && First(b, m.close) < 0
    ensures var cut := |b| - Hold(b, m.close);
            var j := First(b + c, m.close);
            var s := if j < 0 then Open(t, b + c)
                     else Framed(t, (b + c)[..j], Split(m, (b + c)[j + |m.close|..]));
            var r := Loop(m, b[cut..] + c, true, b[..cut]);
            Seen(m, s) == Fed(TextPiece(t) + r.pieces, r.st)
  {
    hide First, Hold, Leftmost, Longest, TextPiece, Split, Loop;
    var cut := |b| - Hold(b, m.close);
    var e := b[cut..] + c;
    SearchResumes(b, c, m.close);
    LoopInside(m, e, b[..cut]);
    var k := First(e, m.close);
    if k < 0 {
      HoldResumes(b, c, m.close);
      var cut2 := |e| - Hold(e, m.close);
      Cut(b, c, cut, cut2);
      assert TextPiece(t) + [] == TextPiece(t);
    } else {
      Cut(b, c, cut, k);
      Cut(b, c, cut, k + |m.close|);
      var y := e[k + |m.close|..];
      var f := [Frame(b[..cut] + e[..k])];
      assert TextPiece(t) + f + Seen(m, Split(m, y)).pieces == TextPiece(t) + (f + Seen(m, Split(m, y)).pieces);
    }
  }

  lemma ResumeOpen(m: Marks, t: seq<Byte>, b: seq<Byte>, c: seq<Byte>, out: seq<Piece>)
    requires m.Ok() && First(b, m.close) < 0
    ensures var j := First(b + c, m.close);
            var s := if j < 0 then Open(t, b + c)
                     else Framed(t, (b + c)[..j], Split(m, (b + c)[j + |m.close|..]));
            Resumes(m, Seen(m, Open(t, b)), c, Seen(m, s), out)
  {
    hide First, Hold, Leftmost, Longest, Join, TextPiece, Split, Loop;
    var cut := |b| - Hold(b, m.close);
    OpenContinues(m, t, b, c);
    JoinAppend(out, TextPiece(t), Loop(m, b[cut..] + c, true, b[..cut]).pieces);
  }

  lemma JoinNone(out: seq<Piece>)
    ensures Join(out, []) == out
  {}

  lemma SeenNothing(m: Marks)
    requires m.Ok()
    ensures Seen(m, Split(m, [])) == Fed([], INITIAL)
  {
    LoopIsSplit(m, []);
  }

  /** Main result: whatever the chunking, the filter ends in the state of the one-shot reference and
      has let out the reference's texts and frames, in order; only texts may come in several parts. */
  lemma {:induction false} Chunking(m: Marks, chunks: seq<seq<Byte>>)
    requires m.Ok()
    ensures var ref := Seen(m, Split(m, Flatten(chunks)));
            var fed := FeedAll(m, chunks);
            fed.st == ref.st && Join([], fed.pieces) == ref.pieces
    decreases |chunks|
  {
    hide First, Hold, Leftmost, Longest, Loop, Seen, Split, Feed, Join;
    JoinNone([]);
    if chunks == [] {
      SeenNothing(m);
    } else {
      var n := |chunks| - 1;
      Chunking(m, chunks[..n]);
      var x := Flatten(chunks[..n]);
      Resume(m, x, chunks[n], []);
      var before := FeedAll(m, chunks[..n]);
      JoinAppend([], before.pieces, Feed(m, before.st, chunks[n]).pieces);
      SeenIsJoined(m, Split(m, x), []);
      SeenIsJoined(m, Split(m, x + chunks[n]), []);
      assert [] + Seen(m, Split(m, x)).pieces == Seen(m, Split(m, x)).pieces;
      assert [] + Seen(m, Split(m, x + chunks[n])).pieces == Seen(m, Split(m, x + chunks[n])).pieces;
    }
  }

  ghost predicate NoTextLast(out: seq<Piece>) {
    out == [] || out[|out| - 1].Frame?
  }

  lemma JoinFirstText(out: seq<Piece>, t: seq<Byte>)
    requires NoTextLast(out)
    ensures Join(out, TextPiece(t)) == out + TextPiece(t)
  {
    JoinText(out, t);
  }

  lemma JoinHead(out: seq<Piece>, t: seq<Byte>, b: seq<Byte>)
    requires NoTextLast(out)
    ensures var head := TextPiece(t) + [Frame(b)];
            Join(out, head) == out + head && NoTextLast(out + head)
  {
    hide Join, TextPiece;
    JoinFirstText(out, t);
    JoinAppend(out, TextPiece(t), [Frame(b)]);
    JoinOne(Join(out, TextPiece(t)), Frame(b));
  }

  /** The reference never lets out two texts in a row. */
  lemma {:induction false} SeenIsJoined(m: Marks, s: Stream, out: seq<Piece>)
    requires m.Ok() && NoTextLast(out)
    ensures Join(out, Seen(m, s).pieces) == out + Seen(m, s).pieces
    decreases s
  {
    hide First, Hold, Leftmost, Longest, Join, NoTextLast, TextPiece;
    match s
    case Plain(t) => JoinFirstText(out, t[..|t| - Hold(t, m.open)]);
    case Open(t, b) => JoinFirstText(out, t);
    case Framed(t, b, rest) =>
      var head := TextPiece(t) + [Frame(b)];
      JoinHead(out, t, b);
      JoinAppend(out, head, Seen(m, rest).pieces);
      SeenIsJoined(m, rest, out + head);
      assert (out + head) + Seen(m, rest).pieces == out + (head + Seen(m, rest).pieces);
  }

  // ----- Nothing is lost, nothing is reordered -----

  /** The bytes of the input that a piece stands for. */
  function Wire(m: Marks, ps: seq<Piece>): seq<Byte>
    requires m.Ok()
  {
    if ps == [] then []
    else (match ps[0] case Text(t) => t case Frame(b) => m.open[..m.skip] + b + m.close) + Wire(m, ps[1..])
  }

  /** The bytes of the input still held. */
  function Held(m: Marks, st: State): seq<Byte>
    requires m.Ok()
  {
    Pre(m, st.inside) + st.acc + st.carry
  }

  lemma {:induction false} WireAppend(m: Marks, a: seq<Piece>, b: seq<Piece>)
    requires m.Ok()
    ensures Wire(m, a + b) == Wire(m, a) + Wire(m, b)
  {
    if a == [] {
      assert a + b == b;
    } else {
      assert (a + b)[0] == a[0] && (a + b)[1..] == a[1..] + b;
      WireAppend(m, a[1..], b);
    }
  }

  lemma WireText(m: Marks, t: seq<Byte>)
    requires m.Ok()
    ensures Wire(m, TextPiece(t)) == t
  {
    if t != [] {
      assert [Text(t)][1..] == [];
      assert Wire(m, []) == [];
    }
  }

  lemma WireFrame(m: Marks, b: seq<Byte>)
    requires m.Ok()
    ensures Wire(m, [Frame(b)]) == m.open[..m.skip] + b + m.close
  {
    assert [Frame(b)][1..] == [];
    assert Wire(m, []) == [];
  }

  function Pre(m: Marks, inside: bool): seq<Byte>
    requires m.Ok()
  {
    if inside then m.open[..m.skip] else []
  }

  /** What the loop lets out and keeps is what it had collected and had in hand. */
  ghost predicate Conserves(m: Marks, d: seq<Byte>, inside: bool, acc: seq<Byte>)
    requires m.Ok()
  {
    var r := Loop(m, d, inside, acc);
    Pre(m, inside) + acc + d == Wire(m, r.pieces) + Held(m, r.st)
  }

  lemma LoopConservesOutside(m: Marks, d: seq<Byte>)
    requires m.Ok() && First(d, m.open) >= 0
    requires Conserves(m, d[First(d, m.open) + m.skip..], true, [])
    ensures Conserves(m, d, false, [])
  {
    hide First, Hold, Leftmost, Longest, Wire, Held, TextPiece, Loop;
    var i := First(d, m.open);
    var e := d[i + m.skip..];
    var r := Loop(m, e, true, []);
    LoopOpenTurn(m, d);
    WireText(m, d[..i]);
    WireAppend(m, TextPiece(d[..i]), r.pieces);
    AroundFirst(d, m.open, m.skip);
    RegroupText(d, d[..i], m.open[..m.skip], e, Wire(m, r.pieces), Held(m, r.st));
  }

  lemma RegroupText(d: seq<Byte>, t: seq<Byte>, p: seq<Byte>, e: seq<Byte>, w: seq<Byte>, h: seq<Byte>)
    requires p + [] + e == w + h && d == t + (p + e)
    ensures [] + [] + d == (t + w) + h
  {
    assert p + [] + e == p + e;
    assert t + (w + h) == (t + w) + h;
    assert [] + [] + d == d;
  }

  lemma AroundFirst(d: seq<Byte>, pat: seq<Byte>, skip: nat)
    requires pat != [] && First(d, pat) >= 0 && skip <= |pat|
    ensures var i := First(d, pat); d == d[..i] + (pat[..skip] + d[i + skip..])
  {
    hide First, Leftmost;
    var i := First(d, pat);
    FirstMatches(d, pat);
    assert pat[..skip] == d[i..i + |pat|][..skip] == d[i..i + skip];
  }

  lemma LoopConservesInside(m: Marks, d: seq<Byte>, acc: seq<Byte>)
    requires m.Ok() && First(d, m.close) >= 0
    requires Conserves(m, d[First(d, m.close) + |m.close|..], false, [])
    ensures Conserves(m, d, true, acc)
  {
    hide First, Hold, Leftmost, Longest, Wire, Held, Loop;
    var j := First(d, m.close);
    var e := d[j + |m.close|..];
    var r := Loop(m, e, false, []);
    LoopFrameTurn(m, d, acc);
    WireFrame(m, acc + d[..j]);
    WireAppend(m, [Frame(acc + d[..j])], r.pieces);
    FirstMatches(d, m.close);
    assert d == d[..j] + m.close + e;
    RegroupFrame(m.open[..m.skip], acc, d[..j], m.close, e, Wire(m, r.pieces), Held(m, r.st));
  }

  lemma RegroupFrame(a: seq<Byte>, b: seq<Byte>, c: seq<Byte>, d: seq<Byte>, e: seq<Byte>, w: seq<Byte>, h: seq<Byte>)
    requires [] + [] + e == w + h
    ensures a + b + (c + d + e) == ((a + (b + c) + d) + w) + h
  {
    assert [] + [] + e == e;
  }

  /** The turns that end the loop. */
  lemma LastTurnConserves(m: Marks, d: seq<Byte>, inside: bool, acc: seq<Byte>)
    requires m.Ok() && (!inside ==> acc == [])
    requires d == [] || First(d, if inside then m.close else m.open) < 0
    ensures Conserves(m, d, inside, acc)
  {
    hide First, Hold, Leftmost, Longest, Loop, Wire, TextPiece;
    LoopTurn(m, d, inside, acc);
    WireText(m, []);
    TextNone();
    if d != [] && !inside {
      var cut := |d| - Hold(d, m.open);
      WireText(m, d[..cut]);
    } else if d != [] {
      var cut := |d| - Hold(d, m.close);
      assert Pre(m, true) + acc + d == Pre(m, true) + (acc + d[..cut]) + d[cut..];
    }
  }

  lemma {:induction false} LoopConserves(m: Marks, d: seq<Byte>, inside: bool, acc: seq<Byte>)
    requires m.Ok() && (!inside ==> acc == [])
    ensures Conserves(m, d, inside, acc)
    decreases |d|, if inside then 0 else 1
  {
    hide First, Hold, Leftmost, Longest, Conserves;
    if d == [] || First(d, if inside then m.close else m.open) < 0 {
      LastTurnConserves(m, d, inside, acc);
    } else if inside {
      LoopConserves(m, d[First(d, m.close) + |m.close|..], false, []);
      LoopConservesInside(m, d, acc);
    } else {
      LoopConserves(m, d[First(d, m.open) + m.skip..], true, []);
      LoopConservesOutside(m, d);
    }
  }

  /** After any chunks: the bytes let out, then the bytes held, are the input so far. */
  lemma {:induction false} Conservation(m: Marks, chunks: seq<seq<Byte>>)
    requires m.Ok()
    ensures var fed := FeedAll(m, chunks);
            Wire(m, fed.pieces) + Held(m, fed.st) == Flatten(chunks) && (!fed.st.inside ==> fed.st.acc == [])
    decreases |chunks|
  {
    hide First, Hold, Loop, Seen, Split, Wire;
    Chunking(m, chunks);
    SeenOutside(m, Split(m, Flatten(chunks)));
    if chunks == [] {
      WireText(m, []);
    } else {
      var n := |chunks| - 1;
      Conservation(m, chunks[..n]);
      FeedConserves(m, FeedAll(m, chunks[..n]), chunks[n]);
    }
  }

  lemma FeedConserves(m: Marks, before: Fed, chunk: seq<Byte>)
    requires m.Ok() && (!before.st.inside ==> before.st.acc == [])
    ensures var last := Feed(m, before.st, chunk);
            Wire(m, before.pieces) + Held(m, before.st) + chunk
            == Wire(m, before.pieces + last.pieces) + Held(m, last.st)
  {
    hide First, Hold, Loop, Wire;
    var st := before.st;
    var last := Feed(m, st, chunk);
    LoopConserves(m, st.carry + chunk, st.inside, st.acc);
    WireAppend(m, before.pieces, last.pieces);
    assert Held(m, st) + chunk == Pre(m, st.inside) + st.acc + (st.carry + chunk);
    Regroup2(Wire(m, before.pieces), Held(m, st), chunk, Wire(m, last.pieces), Held(m, last.st));
  }

  lemma Regroup2(a: seq<Byte>, b: seq<Byte>, c: seq<Byte>, d: seq<Byte>, e: seq<Byte>)
    requires b + c == d + e
    ensures a + b + c == (a + d) + e
  {
    assert a + b + c == a + (b + c);
  }

  lemma {:induction false} SeenOutside(m: Marks, s: Stream)
    requires m.Ok()
    ensures var st := Seen(m, s).st;
            (!st.inside ==> st.acc == []) &&
            |st.carry| < (if st.inside then |m.close| else |m.open|)
  {
    if s.Framed? { SeenOutside(m, s.rest); }
  }

  // ----- The shape of what is let out -----

  /** A text has no `open` in it; a frame, followed by its `close`, has no `close` before that one
      and starts with what `skip` left of `open`. */
  predicate GoodPiece(m: Marks, p: Piece)
    requires m.Ok()
  {
    match p
    case Text(t) => t != [] && First(t, m.open) < 0
    case Frame(b) =>
      && First(b + m.close, m.close) == |b|
      && (|m.open| - m.skip <= |m.close| ==> m.open[m.skip..] <= b + m.close)
  }

  /** What a filter inside a frame must know about the bytes it has and the bytes it looks at. */
  ghost predicate GoodBody(m: Marks, acc: seq<Byte>, d: seq<Byte>)
    requires m.Ok()
  {
    && (forall i :: 0 <= i < |acc| ==> !At(acc + d, m.close, i))
    && m.open[m.skip..] <= acc + d
  }

  lemma TextBeforeOpen(m: Marks, d: seq<Byte>, k: nat)
    requires m.Ok() && k <= |d|
    requires First(d, m.open) < 0 || k <= First(d, m.open)
    ensures First(d[..k], m.open) < 0
  {
    assert d == d[..k] + d[k..];
    AtInside(d[..k], d[k..], m.open, First(d[..k], m.open));
  }

  lemma FrameIsGood(m: Marks, acc: seq<Byte>, d: seq<Byte>)
    requires m.Ok() && GoodBody(m, acc, d) && First(d, m.close) >= 0
    ensures GoodPiece(m, Frame(acc + d[..First(d, m.close)]))
  {
    hide First, At;
    var j := First(d, m.close);
    var b := acc + d[..j];
    var after := d[j + |m.close|..];
    FirstMatches(d, m.close);
    assert acc + d == (b + m.close) + after;
    assert (acc + d)[|acc|..] == d;
    FirstAfter(acc + d, m.close, |acc|);
    forall i | 0 <= i <= |b| ensures At(b + m.close, m.close, i) == (i == |b|) {
      AtInside(b + m.close, after, m.close, i);
      assert i >= |acc| ==> At(acc + d, m.close, i) == At(d, m.close, i - |acc|);
    }
    IsFirst(b + m.close, m.close, |b|);
  }

  lemma {:induction false} LoopPiecesGood(m: Marks, d: seq<Byte>, inside: bool, acc: seq<Byte>)
    requires m.Ok() && (inside ==> GoodBody(m, acc, d))
    ensures forall p :: p in Loop(m, d, inside, acc).pieces ==> GoodPiece(m, p)
    decreases |d|, if inside then 0 else 1
  {
    hide First, Hold, Leftmost, Longest;
    if d == [] {
    } else if !inside {
      var i := First(d, m.open);
      if i < 0 {
        TextBeforeOpen(m, d, |d| - Hold(d, m.open));
      } else {
        TextBeforeOpen(m, d, i);
        var e := d[i + m.skip..];
        BodyStart(m, d);
        assert [] + e == e;
        LoopPiecesGood(m, e, true, []);
      }
    } else {
      var j := First(d, m.close);
      if j >= 0 {
        FrameIsGood(m, acc, d);
        LoopPiecesGood(m, d[j + |m.close|..], false, []);
      }
    }
  }

  lemma OpenBodyGood(m: Marks, b: seq<Byte>, c: seq<Byte>)
    requires m.Ok() && First(b, m.close) < 0 && m.open[m.skip..] <= b
    ensures var cut := |b| - Hold(b, m.close); GoodBody(m, b[..cut], b[cut..] + c)
  {
    hide First, Hold, Leftmost, Longest, At;
    var cut := |b| - Hold(b, m.close);
    assert b[..cut] + (b[cut..] + c) == b + c;
    forall k | 0 <= k < cut ensures !At(b + c, m.close, k) {
      if At(b + c, m.close, k) { NoEarlyStart(b, c, m.close, k); }
    }
  }

  lemma BodyStart(m: Marks, x: seq<Byte>)
    requires m.Ok() && First(x, m.open) >= 0
    ensures m.open[m.skip..] <= x[First(x, m.open) + m.skip..]
  {
    hide First, Leftmost;
    FirstMatches(x, m.open);
    var i := First(x, m.open);
    assert x[i + m.skip..][..|m.open| - m.skip] == x[i..i + |m.open|][m.skip..];
  }

  /** The body of an unfinished frame stays good whatever comes next. */
  lemma {:induction false} SplitBodyGood(m: Marks, x: seq<Byte>, c: seq<Byte>)
    requires m.Ok()
    ensures var st := Seen(m, Split(m, x)).st; st.inside ==> GoodBody(m, st.acc, st.carry + c)
    decreases |x|
  {
    hide First, Hold, Leftmost, Longest, GoodBody;
    var i := First(x, m.open);
    if i >= 0 {
      var b := x[i + m.skip..];
      var j := First(b, m.close);
      if j < 0 {
        BodyStart(m, x);
        OpenBodyGood(m, b, c);
      } else {
        SplitBodyGood(m, b[j + |m.close|..], c);
      }
    }
  }

  /** Every piece let out under any chunking is good, and the carry is shorter than a marker. */
  lemma {:induction false} PiecesGood(m: Marks, chunks: seq<seq<Byte>>)
    requires m.Ok()
    ensures forall p :: p in FeedAll(m, chunks).pieces ==> GoodPiece(m, p)
    ensures var st := FeedAll(m, chunks).st; |st.carry| < (if st.inside then |m.close| else |m.open|)
    decreases |chunks|
  {
    hide First, Hold, Leftmost, Longest, Loop, Seen, Split, GoodPiece, GoodBody;
    Chunking(m, chunks);
    SeenOutside(m, Split(m, Flatten(chunks)));
    if chunks != [] {
      var n := |chunks| - 1;
      PiecesGood(m, chunks[..n]);
      Chunking(m, chunks[..n]);
      SplitBodyGood(m, Flatten(chunks[..n]), chunks[n]);
      var st := FeedAll(m, chunks[..n]).st;
      LoopPiecesGood(m, st.carry + chunks[n], st.inside, st.acc);
    }
  }
}
