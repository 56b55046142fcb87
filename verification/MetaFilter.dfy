/** cmMakeMetaFilter in web/static/term.js: strips OSC 7707 control sequences, hands their payloads
    to onMeta, and lets the history between a v= META and hist_end through only once per page. */
module MetaFilter {
  import opened Basics
  import opened Markers
  import opened Framing

  /** ESC ] 7 7 0 7 ; */
  function OscMarker(): (m: seq<Byte>)
    ensures |m| == 7 && m[0] == 0x1b
  {
    [0x1b, 0x5d, 0x37, 0x37, 0x30, 0x37, 0x3b]
  }

  /** ESC \ */
  function StMarker(): (m: seq<Byte>)
    ensures |m| == 2 && m[0] == 0x1b
  {
    [0x1b, 0x5c]
  }

  /** A sequence loses both its markers; the payload starts after the OSC. */
  function MetaMarks(): Marks { Marks(OscMarker(), StMarker(), 7) }

  const V_EQ: seq<Byte> := [0x76, 0x3d] // "v="
  const HIST_1: seq<Byte> := [0x3b, 0x68, 0x69, 0x73, 0x74, 0x3d, 0x31] // ";hist=1"
  const HIST_END: seq<Byte> := [0x68, 0x69, 0x73, 0x74, 0x5f, 0x65, 0x6e, 0x64] // "hist_end"

  predicate StartsHistory(payload: seq<Byte>) { V_EQ <= payload }
  predicate HasBody(payload: seq<Byte>) { First(payload, HIST_1) >= 0 }
  predicate EndsHistory(payload: seq<Byte>) { payload == HIST_END }

  /** inHist, blockHasHist and histDone. */
  datatype Gate = Gate(inHist: bool, hasBody: bool, done: bool)

  const CLOSED := Gate(false, false, false)

  function OnPayload(g: Gate, payload: seq<Byte>): Gate {
    if StartsHistory(payload) then g.(inHist := true, hasBody := HasBody(payload))
    else if EndsHistory(payload) then g.(inHist := false, done := g.done || g.hasBody)
    else g
  }

  function OnPiece(g: Gate, p: Piece): Gate {
    match p case Text(_) => g case Frame(b) => OnPayload(g, b)
  }

  function GateAfter(g: Gate, ps: seq<Piece>): Gate
    decreases |ps|
  {
    if ps == [] then g else GateAfter(OnPiece(g, ps[0]), ps[1..])
  }

  predicate Passes(g: Gate, p: Piece) {
    p.Frame? || !(g.inHist && g.done)
  }

  /** The callbacks, in order: Text for emit, Frame for onMeta. */
  function Calls(g: Gate, ps: seq<Piece>): seq<Piece>
    decreases |ps|
  {
    if ps == [] then []
    else (if Passes(g, ps[0]) then [ps[0]] else []) + Calls(OnPiece(g, ps[0]), ps[1..])
  }

  lemma {:induction false} CallsAppend(g: Gate, a: seq<Piece>, b: seq<Piece>)
    ensures GateAfter(g, a + b) == GateAfter(GateAfter(g, a), b)
    ensures Calls(g, a + b) == Calls(g, a) + Calls(GateAfter(g, a), b)
    decreases |a|
  {
    hide OnPiece, Passes;
    if a == [] {
      assert a + b == b;
    } else {
      assert (a + b)[0] == a[0] && (a + b)[1..] == a[1..] + b;
      CallsAppend(OnPiece(g, a[0]), a[1..], b);
    }
  }

  lemma CallsOne(g: Gate, p: Piece)
    ensures GateAfter(g, [p]) == OnPiece(g, p)
    ensures Calls(g, [p]) == if Passes(g, p) then [p] else []
  {
    hide OnPiece, Passes;
    assert [p][1..] == [];
    assert Calls(OnPiece(g, p), []) == [];
  }

  /** What has been called, after the calls for these pieces. */
  function After(was: seq<Piece>, g: Gate, ps: seq<Piece>): seq<Piece> {
    was + Calls(g, ps)
  }

  class Filter {
    var carry: seq<Byte>
    var inMeta: bool
    var acc: seq<Byte>
    var inHist: bool
    var histDone: bool
    var blockHasHist: bool
    /** The calls of `emit` and `onMeta` so far, in order. */
    var calls: seq<Piece>

    constructor ()
      ensures View() == INITIAL && TheGate() == CLOSED && calls == []
    {
      carry, inMeta, acc, calls := [], false, [], [];
      inHist, histDone, blockHasHist := false, false, false;
    }

    /** Outside a sequence `acc` is a leftover of the last one and means nothing. */
    ghost function View(): State reads this { State(inMeta, if inMeta then acc else [], carry) }

    ghost function TheGate(): Gate reads this { Gate(inHist, blockHasHist, histDone) }

    method Out(bytes: seq<Byte>)
      modifies this`calls
      ensures calls == After(old(calls), TheGate(), TextPiece(bytes))
    {
      if bytes == [] { return; }
      CallsOne(TheGate(), Text(bytes));
      if inHist && histDone { return; }
      calls := calls + [Text(bytes)];
    }

    /** What follows a complete payload. */
    method Payload(payload: seq<Byte>)
      modifies this`inHist, this`blockHasHist, this`histDone, this`calls
      ensures TheGate() == OnPayload(old(TheGate()), payload)
      ensures calls == old(calls) + [Frame(payload)]
    {
      if V_EQ <= payload {
        inHist := true;
        var at := IndexOf(payload, HIST_1, 0);
        assert payload[0..] == payload;
        blockHasHist := at >= 0;
      } else if payload == HIST_END {
        inHist := false;
        if blockHasHist { histDone := true; }
      }
      calls := calls + [Frame(payload)];
    }

    /** The end of a chunk outside a sequence: what could begin an OSC is held. */
    method KeepText(rest: seq<Byte>)
      modifies this`calls, this`carry
      ensures var cut := |rest| - Hold(rest, OscMarker());
              carry == rest[cut..] && calls == After(old(calls), TheGate(), TextPiece(rest[..cut]))
    {
      hide OscMarker, Hold, Longest, After, TextPiece;
      var hold := TailPrefix(rest, OscMarker());
      var cut := |rest| - hold;
      Out(rest[..cut]);
      carry := rest[cut..];
    }

    /** The end of a chunk inside a sequence: what could begin its ST is held. */
    method KeepMeta(rest: seq<Byte>)
      modifies this`acc, this`carry
      ensures var cut := |rest| - Hold(rest, StMarker());
              carry == rest[cut..] && acc == old(acc) + rest[..cut]
    {
      hide StMarker, Hold, Longest;
      var hold := TailPrefix(rest, StMarker());
      var cut := |rest| - hold;
      if cut > 0 { acc := acc + rest[..cut]; }
      carry := rest[cut..];
    }

    method Feed(chunk: seq<Byte>)
      modifies this
      ensures var fed := Framing.Feed(MetaMarks(), old(View()), chunk);
              View() == fed.st && TheGate() == GateAfter(old(TheGate()), fed.pieces) &&
              calls == After(old(calls), old(TheGate()), fed.pieces)
    {
      hide OscMarker, StMarker, Turn, After, GateAfter, Framing.Feed;
      var data := if carry != [] then carry + chunk else chunk;
      assert data == carry + chunk;
      ghost var all := Start(View(), chunk, data, calls, TheGate());
      carry := [];
      Scan(data, all, calls, TheGate());
    }

    /** feed's loop over the bytes in hand. */
    method Scan(data: seq<Byte>, ghost all: Fed, ghost was: seq<Piece>, ghost g0: Gate)
      requires carry == [] && Turn(all, was, g0, [], data[0..], inMeta, View().acc, TheGate(), calls)
      modifies this
      ensures Ended(all, was, g0, View(), TheGate(), calls)
    {
      hide OscMarker, StMarker, First, Hold, Leftmost, Longest, Turn, Ended, After, GateAfter, TextPiece, OnPayload;
      ghost var done: seq<Piece> := [];
      var pos := 0;
      while pos < |data|
        invariant 0 <= pos <= |data| && carry == []
        invariant Turn(all, was, g0, done, data[pos..], inMeta, View().acc, TheGate(), calls)
        decreases |data| - pos, if inMeta then 0 else 1
      {
        if !inMeta {
          var i := IndexOf(data, OscMarker(), pos);
          if i < 0 {
            LastText(all, was, g0, done, data[pos..], TheGate(), calls);
            KeepText(data[pos..]);
            return;
          }
          TextTurn(all, was, g0, done, data, pos, i, TheGate(), calls);
          done := done + TextPiece(data[pos..i]);
          Out(data[pos..i]);
          inMeta := true;
          acc := [];
          pos := i + |OscMarker()|;
        } else {
          var j := IndexOf(data, StMarker(), pos);
          if j < 0 {
            LastMeta(all, was, g0, done, data[pos..], acc, TheGate(), calls);
            KeepMeta(data[pos..]);
            return;
          }
          PayloadTurn(all, was, g0, done, data, pos, j, acc, TheGate(), calls);
          acc := acc + data[pos..j];
          done := done + [Frame(acc)];
          inMeta := false;
          pos := j + |StMarker()|;
          Payload(acc);
        }
      }
      LastNothing(all, was, g0, done, data[pos..], inMeta, View().acc, TheGate(), calls);
    }

    /** Called once per connection: forgets everything except blockHasHist and histDone. */
    method Reset()
      modifies this
      ensures View() == INITIAL && calls == old(calls)
      ensures TheGate() == old(TheGate()).(inHist := false)
    {
      carry := [];
      inMeta := false;
      acc := [];
      inHist := false;
    }
  }

  /** A call of feed that must end as `all` has recognised `done` and has `rest` in hand; the gate and
      the calls are what `done` makes of those at its start. */
  ghost predicate Turn(all: Fed, was: seq<Piece>, g0: Gate, done: seq<Piece>, rest: seq<Byte>, inside: bool,
                       acc: seq<Byte>, gate: Gate, calls: seq<Piece>)
  {
    && (!inside ==> acc == [])
    && Progress(MetaMarks(), all, done, rest, inside, acc)
    && gate == GateAfter(g0, done)
    && calls == After(was, g0, done)
  }

  ghost predicate Ended(all: Fed, was: seq<Piece>, g0: Gate, st: State, gate: Gate, calls: seq<Piece>) {
    st == all.st && gate == GateAfter(g0, all.pieces) && calls == After(was, g0, all.pieces)
  }

  lemma Start(before: State, chunk: seq<Byte>, data: seq<Byte>, was: seq<Piece>, g: Gate) returns (all: Fed)
    requires data == before.carry + chunk && (!before.inside ==> before.acc == [])
    ensures all == Framing.Feed(MetaMarks(), before, chunk)
    ensures Turn(all, was, g, [], data[0..], before.inside, before.acc, g, was)
  {
    all := Framing.Feed(MetaMarks(), before, chunk);
    assert data[0..] == data;
  }

  lemma Slices(data: seq<Byte>, pos: nat, i: nat)
    requires pos <= i <= |data|
    ensures data[pos..][..i - pos] == data[pos..i] && data[pos..][i - pos..] == data[i..]
  {}

  lemma TextTurn(all: Fed, was: seq<Piece>, g0: Gate, done: seq<Piece>, data: seq<Byte>, pos: nat, i: nat,
                 gate: Gate, calls: seq<Piece>)
    requires pos <= i && i + 7 <= |data| && First(data[pos..], OscMarker()) == i - pos
    requires Turn(all, was, g0, done, data[pos..], false, [], gate, calls)
    ensures var t := TextPiece(data[pos..i]);
            Turn(all, was, g0, done + t, data[i + 7..], true, [], gate, After(calls, gate, t))
  {
    hide OscMarker, StMarker, First, Leftmost, Progress, TextPiece, After, GateAfter;
    OpenProgress(MetaMarks(), all, done, data[pos..]);
    Slices(data, pos, i);
    Slices(data, pos, i + 7);
    AfterText(was, g0, done, data[pos..i]);
  }

  lemma PayloadTurn(all: Fed, was: seq<Piece>, g0: Gate, done: seq<Piece>, data: seq<Byte>, pos: nat, j: nat,
                    acc: seq<Byte>, gate: Gate, calls: seq<Piece>)
    requires pos <= j && j + 2 <= |data| && First(data[pos..], StMarker()) == j - pos
    requires Turn(all, was, g0, done, data[pos..], true, acc, gate, calls)
    ensures var b := acc + data[pos..j];
            Turn(all, was, g0, done + [Frame(b)], data[j + 2..], false, [], OnPayload(gate, b), calls + [Frame(b)])
  {
    hide OscMarker, StMarker, First, Leftmost, Progress, After, GateAfter, OnPayload;
    FrameProgress(MetaMarks(), all, done, data[pos..], acc);
    Slices(data, pos, j);
    Slices(data, pos, j + 2);
    AfterFrame(was, g0, done, acc + data[pos..j]);
  }

  lemma LastText(all: Fed, was: seq<Piece>, g0: Gate, done: seq<Piece>, rest: seq<Byte>, gate: Gate, calls: seq<Piece>)
    requires rest != [] && First(rest, OscMarker()) < 0 && Turn(all, was, g0, done, rest, false, [], gate, calls)
    ensures var cut := |rest| - Hold(rest, OscMarker());
            Ended(all, was, g0, State(false, [], rest[cut..]), gate, After(calls, gate, TextPiece(rest[..cut])))
  {
    hide OscMarker, StMarker, First, Hold, Leftmost, Longest, Progress, TextPiece, After, GateAfter;
    LastProgress(MetaMarks(), all, done, rest, false, []);
    AfterText(was, g0, done, rest[..|rest| - Hold(rest, OscMarker())]);
  }

  lemma LastMeta(all: Fed, was: seq<Piece>, g0: Gate, done: seq<Piece>, rest: seq<Byte>, acc: seq<Byte>,
                 gate: Gate, calls: seq<Piece>)
    requires rest != [] && First(rest, StMarker()) < 0 && Turn(all, was, g0, done, rest, true, acc, gate, calls)
    ensures var cut := |rest| - Hold(rest, StMarker());
            Ended(all, was, g0, State(true, acc + rest[..cut], rest[cut..]), gate, calls)
  {
    hide OscMarker, StMarker, First, Hold, Leftmost, Longest, Progress, TextPiece, After, GateAfter;
    LastProgress(MetaMarks(), all, done, rest, true, acc);
  }

  lemma LastNothing(all: Fed, was: seq<Piece>, g0: Gate, done: seq<Piece>, rest: seq<Byte>, inside: bool,
                    acc: seq<Byte>, gate: Gate, calls: seq<Piece>)
    requires rest == [] && Turn(all, was, g0, done, rest, inside, acc, gate, calls)
    ensures Ended(all, was, g0, State(inside, acc, []), gate, calls)
  {
    hide OscMarker, StMarker, First, Hold, Leftmost, Longest, Progress, TextPiece, After, GateAfter;
    LastProgress(MetaMarks(), all, done, rest, inside, acc);
  }

  lemma AfterText(was: seq<Piece>, g: Gate, done: seq<Piece>, t: seq<Byte>)
    ensures GateAfter(g, done + TextPiece(t)) == GateAfter(g, done)
    ensures After(was, g, done + TextPiece(t)) == After(After(was, g, done), GateAfter(g, done), TextPiece(t))
  {
    CallsAppend(g, done, TextPiece(t));
    if t != [] { CallsOne(GateAfter(g, done), Text(t)); }
  }

  lemma AfterFrame(was: seq<Piece>, g: Gate, done: seq<Piece>, b: seq<Byte>)
    ensures GateAfter(g, done + [Frame(b)]) == OnPayload(GateAfter(g, done), b)
    ensures After(was, g, done + [Frame(b)]) == After(was, g, done) + [Frame(b)]
  {
    hide Calls, OnPayload, GateAfter;
    CallsAppend(g, done, [Frame(b)]);
    CallsOne(GateAfter(g, done), Frame(b));
  }

  // ----- One connection, any chunking -----

  lemma PushTexts(out: seq<Piece>, a: seq<Byte>, b: seq<Byte>)
    ensures Push(Push(out, Text(a)), Text(b)) == Push(out, Text(a + b))
  {
    hide Join, Push;
    JoinTexts(out, a, b);
    JoinText(out, a);
    JoinText(Push(out, Text(a)), b);
    JoinText(out, a + b);
  }

  /** Joining a text to the one before it changes neither the gate nor the joined calls. */
  lemma PushCalls(g: Gate, out: seq<Piece>, p: Piece, o: seq<Piece>)
    ensures GateAfter(g, Push(out, p)) == GateAfter(g, out + [p])
    ensures Join(o, Calls(g, Push(out, p))) == Join(o, Calls(g, out + [p]))
  {
    hide GateAfter, Calls, Join;
    CallsAppend(g, out, [p]);
    CallsOne(GateAfter(g, out), p);
    JoinAppend(o, Calls(g, out), Calls(GateAfter(g, out), [p]));
    if p.Text? && p.bytes == [] {
      JoinOne(Join(o, Calls(g, out)), p);
      assert Calls(g, out) + [] == Calls(g, out);
    } else if p.Text? && out != [] && out[|out| - 1].Text? {
      PushCallsMerged(g, out[..|out| - 1], out[|out| - 1].bytes, p.bytes, o);
      assert out == out[..|out| - 1] + [Text(out[|out| - 1].bytes)];
    }
  }

  lemma PushCallsMerged(g: Gate, init: seq<Piece>, a: seq<Byte>, b: seq<Byte>, o: seq<Piece>)
    ensures GateAfter(g, init + [Text(a + b)]) == GateAfter(g, init + [Text(a)] + [Text(b)])
    ensures Join(o, Calls(g, init + [Text(a + b)])) == Join(o, Calls(g, init + [Text(a)] + [Text(b)]))
  {
    hide GateAfter, Calls, Join, Push;
    var h := GateAfter(g, init);
    var x := Join(o, Calls(g, init));
    CallsAppend(g, init, [Text(a + b)]);
    CallsOne(h, Text(a + b));
    CallsAppend(g, init, [Text(a)]);
    CallsOne(h, Text(a));
    CallsAppend(g, init + [Text(a)], [Text(b)]);
    CallsOne(h, Text(b));
    if Passes(h, Text(a)) {
      JoinAppend(o, Calls(g, init), [Text(a + b)]);
      JoinAppend(o, Calls(g, init), [Text(a)]);
      JoinAppend(o, Calls(g, init) + [Text(a)], [Text(b)]);
      JoinOne(x, Text(a + b));
      JoinOne(x, Text(a));
      JoinOne(Push(x, Text(a)), Text(b));
      PushTexts(x, a, b);
    } else {
      assert Calls(g, init) + [] + [] == Calls(g, init) + [];
    }
  }

  lemma {:induction false} JoinCalls(g: Gate, out: seq<Piece>, ps: seq<Piece>)
    ensures GateAfter(g, Join(out, ps)) == GateAfter(g, out + ps)
    ensures Join([], Calls(g, Join(out, ps))) == Join([], Calls(g, out + ps))
    decreases |ps|
  {
    hide GateAfter, Calls, Push;
    if ps == [] {
      assert out + ps == out;
    } else {
      var q := Push(out, ps[0]);
      JoinCalls(g, q, ps[1..]);
      PushCalls(g, out, ps[0], []);
      assert out + ps == (out + [ps[0]]) + ps[1..];
      CallsAppend(g, q, ps[1..]);
      CallsAppend(g, out + [ps[0]], ps[1..]);
      var rest := Calls(GateAfter(g, q), ps[1..]);
      JoinAppend([], Calls(g, q), rest);
      JoinAppend([], Calls(g, out + [ps[0]]), rest);
    }
  }

  /** Main result for one connection: for every chunking the emitted bytes, the payloads and their
      order are those of the one-shot parser that removes OSC 7707 ... ST, and so is the gate. */
  lemma {:induction false} SameForAnyChunks(g: Gate, chunks: seq<seq<Byte>>)
    ensures var ref := Seen(MetaMarks(), Split(MetaMarks(), Flatten(chunks)));
            var fed := FeedAll(MetaMarks(), chunks);
            fed.st == ref.st && GateAfter(g, fed.pieces) == GateAfter(g, ref.pieces) &&
            Join([], Calls(g, fed.pieces)) == Join([], Calls(g, ref.pieces))
  {
    hide OscMarker, StMarker, First, Hold, FeedAll, Seen, Split, Join, Calls, GateAfter;
    Chunking(MetaMarks(), chunks);
    var ps := FeedAll(MetaMarks(), chunks).pieces;
    JoinCalls(g, [], ps);
    assert [] + ps == ps;
  }

  /** Only whole sequences are removed: text, OSC + payload + ST, and the held bytes are the input. */
  lemma {:induction false} StripsOnlySequences(chunks: seq<seq<Byte>>)
    ensures var fed := FeedAll(MetaMarks(), chunks);
            Wire(MetaMarks(), fed.pieces) + (if fed.st.inside then OscMarker() else []) + fed.st.acc + fed.st.carry
            == Flatten(chunks)
  {
    hide OscMarker, StMarker, FeedAll, Wire, Flatten;
    Conservation(MetaMarks(), chunks);
    var fed := FeedAll(MetaMarks(), chunks);
    assert OscMarker()[..7] == OscMarker();
    assert Wire(MetaMarks(), fed.pieces) + (Pre(MetaMarks(), fed.st.inside) + fed.st.acc + fed.st.carry)
        == Wire(MetaMarks(), fed.pieces) + Pre(MetaMarks(), fed.st.inside) + fed.st.acc + fed.st.carry;
  }

  /** A stream without a marker passes through, except a held tail shorter than the marker. */
  lemma {:induction false} NoMarkerPassesThrough(chunks: seq<seq<Byte>>)
    requires First(Flatten(chunks), OscMarker()) < 0
    ensures var x := Flatten(chunks);
            var h := Hold(x, OscMarker());
            h < 7 && FeedAll(MetaMarks(), chunks).st == State(false, [], x[|x| - h..]) &&
            Join([], Calls(CLOSED, FeedAll(MetaMarks(), chunks).pieces)) == TextPiece(x[..|x| - h])
  {
    hide OscMarker, StMarker, First, Hold, FeedAll, Join;
    SameForAnyChunks(CLOSED, chunks);
    var x := Flatten(chunks);
    var t := x[..|x| - Hold(x, OscMarker())];
    if t == [] { JoinNone([]); } else { CallsOne(CLOSED, Text(t)); }
    JoinFirstText([], t);
    assert [] + TextPiece(t) == TextPiece(t);
  }
}
