/** web/static/sync.js: groups a synchronized-update block (DECSET 2026) into one write. */
module SyncFilter {
  import opened Basics
  import opened Markers
  import opened Framing

  /** ESC [ ? 2 0 2 6 h */
  function BsuMarker(): (m: seq<Byte>)
    ensures |m| == 8
  {
    [0x1b, 0x5b, 0x3f, 0x32, 0x30, 0x32, 0x36, 0x68]
  }

  /** ESC [ ? 2 0 2 6 l */
  function EsuMarker(): (m: seq<Byte>)
    ensures |m| == 8
  {
    [0x1b, 0x5b, 0x3f, 0x32, 0x30, 0x32, 0x36, 0x6c]
  }

  /** A block keeps its opening marker, and the search for ESU starts at the BSU. */
  function SyncMarks(): Marks { Marks(BsuMarker(), EsuMarker(), 0) }

  function Written(p: Piece): seq<Byte> {
    match p case Text(t) => t case Frame(b) => b + EsuMarker()
  }

  /** The argument of each call of `emit`. */
  function Writes(ps: seq<Piece>): seq<seq<Byte>> {
    seq(|ps|, i requires 0 <= i < |ps| => Written(ps[i]))
  }

  /** What `emit` has been called with, after the calls for these pieces. */
  function After(was: seq<seq<Byte>>, ps: seq<Piece>): seq<seq<Byte>> {
    was + Writes(ps)
  }

  function Plus(was: seq<seq<Byte>>, bytes: seq<Byte>): seq<seq<Byte>> {
    if bytes == [] then was else was + [bytes]
  }

  class Filter {
    var carry: seq<Byte>
    var syncing: bool
    var acc: seq<Byte>
    /** What `emit` has been called with, in order. */
    var emitted: seq<seq<Byte>>

    constructor ()
      ensures Valid() && View() == INITIAL && emitted == []
    {
      carry, syncing, acc, emitted := [], false, [], [];
    }

    ghost predicate Valid() reads this { !syncing ==> acc == [] }

    ghost function View(): State reads this { State(syncing, acc, carry) }

    /** Calls `emit` unless there is nothing to emit. */
    method EmitAny(bytes: seq<Byte>)
      modifies this`emitted
      ensures emitted == Plus(old(emitted), bytes)
    {
      if |bytes| > 0 { emitted := emitted + [bytes]; }
    }

    /** The end of a chunk outside a block: what could begin a BSU is held. */
    method KeepText(rest: seq<Byte>)
      modifies this`emitted, this`carry
      ensures var cut := |rest| - Hold(rest, BsuMarker());
              carry == rest[cut..] && emitted == Plus(old(emitted), rest[..cut])
    {
      hide BsuMarker, Hold, Longest;
      var hold := TailPrefix(rest, BsuMarker());
      var cut := |rest| - hold;
      EmitAny(rest[..cut]);
      carry := rest[cut..];
    }

    /** The end of a chunk inside a block: what could begin its ESU is held. */
    method KeepBlock(rest: seq<Byte>)
      modifies this`acc, this`carry
      ensures var cut := |rest| - Hold(rest, EsuMarker());
              carry == rest[cut..] && acc == old(acc) + rest[..cut]
    {
      hide EsuMarker, Hold, Longest;
      var hold := TailPrefix(rest, EsuMarker());
      var cut := |rest| - hold;
      if cut > 0 { acc := acc + rest[..cut]; }
      carry := rest[cut..];
    }

    method Feed(chunk: seq<Byte>)
      requires Valid()
      modifies this
      ensures Valid()
      ensures var fed := Framing.Feed(SyncMarks(), old(View()), chunk);
              View() == fed.st && emitted == After(old(emitted), fed.pieces)
    {
      hide BsuMarker, EsuMarker, Turn, After, Framing.Feed;
      var data := if carry != [] then carry + chunk else chunk;
      assert data == carry + chunk;
      ghost var all := Start(View(), chunk, data, emitted);
      carry := [];
      Scan(data, all, emitted);
    }

    /** feed's loop over the bytes in hand. */
    method Scan(data: seq<Byte>, ghost all: Fed, ghost was: seq<seq<Byte>>)
      requires Valid() && carry == [] && Turn(all, was, [], data[0..], syncing, acc, emitted)
      modifies this
      ensures Valid() && Ended(all, was, View(), emitted)
    {
      hide BsuMarker, EsuMarker, First, Hold, Leftmost, Longest, Turn, Ended, Plus, TextPiece;
      ghost var done: seq<Piece> := [];
      var pos := 0;
      while pos < |data|
        invariant 0 <= pos <= |data|
        invariant Valid() && carry == []
        invariant Turn(all, was, done, data[pos..], syncing, acc, emitted)
        decreases |data| - pos, if syncing then 0 else 1
      {
        if !syncing {
          var i := IndexOf(data, BsuMarker(), pos);
          if i < 0 {
            LastText(all, was, done, data[pos..], emitted);
            KeepText(data[pos..]);
            return;
          }
          TextTurn(all, was, done, data, pos, i, emitted);
          done := done + TextPiece(data[pos..i]);
          EmitAny(data[pos..i]);
          syncing := true;
          acc := [];
          pos := i;
        } else {
          var j := IndexOf(data, EsuMarker(), pos);
          if j < 0 {
            LastBlock(all, was, done, data[pos..], acc, emitted);
            KeepBlock(data[pos..]);
            return;
          }
          var end := j + |EsuMarker()|;
          BlockTurn(all, was, done, data, pos, j, acc, emitted);
          done := done + [Frame(acc + data[pos..j])];
          acc := acc + data[pos..end];
          emitted := emitted + [acc];
          acc := [];
          syncing := false;
          pos := end;
        }
      }
      LastNothing(all, was, done, data[pos..], syncing, acc, emitted);
    }
  }

  /** A call of feed that must end as `all` has recognised `done` and has `rest` in hand; what it has
      written is what was written before and `done`. */
  ghost predicate Turn(all: Fed, was: seq<seq<Byte>>, done: seq<Piece>, rest: seq<Byte>, inside: bool,
                       acc: seq<Byte>, emitted: seq<seq<Byte>>)
  {
    && (!inside ==> acc == [])
    && Progress(SyncMarks(), all, done, rest, inside, acc)
    && emitted == After(was, done)
  }

  ghost predicate Ended(all: Fed, was: seq<seq<Byte>>, st: State, emitted: seq<seq<Byte>>) {
    st == all.st && emitted == After(was, all.pieces)
  }

  lemma Start(before: State, chunk: seq<Byte>, data: seq<Byte>, was: seq<seq<Byte>>) returns (all: Fed)
    requires data == before.carry + chunk && (!before.inside ==> before.acc == [])
    ensures all == Framing.Feed(SyncMarks(), before, chunk)
    ensures Turn(all, was, [], data[0..], before.inside, before.acc, was)
  {
    all := Framing.Feed(SyncMarks(), before, chunk);
    assert data[0..] == data;
  }

  lemma Slices(data: seq<Byte>, pos: nat, i: nat)
    requires pos <= i <= |data|
    ensures data[pos..][..i - pos] == data[pos..i] && data[pos..][i - pos..] == data[i..]
  {}

  lemma WritesOne(was: seq<seq<Byte>>, ps: seq<Piece>, p: Piece)
    ensures After(was, ps + [p]) == After(was, ps) + [Written(p)]
  {
    assert Writes(ps + [p]) == Writes(ps) + [Written(p)];
  }

  lemma WritesText(was: seq<seq<Byte>>, ps: seq<Piece>, t: seq<Byte>)
    ensures After(was, ps + TextPiece(t)) == Plus(After(was, ps), t)
  {
    if t != [] { WritesOne(was, ps, Text(t)); } else { assert ps + [] == ps; }
  }

  lemma TextTurn(all: Fed, was: seq<seq<Byte>>, done: seq<Piece>, data: seq<Byte>, pos: nat, i: nat,
                 emitted: seq<seq<Byte>>)
    requires pos <= i <= |data| && First(data[pos..], BsuMarker()) == i - pos
    requires Turn(all, was, done, data[pos..], false, [], emitted)
    ensures Turn(all, was, done + TextPiece(data[pos..i]), data[i..], true, [], Plus(emitted, data[pos..i]))
  {
    hide BsuMarker, EsuMarker, First, Leftmost, Progress, After, Plus, TextPiece;
    OpenProgress(SyncMarks(), all, done, data[pos..]);
    Slices(data, pos, i);
    WritesText(was, done, data[pos..i]);
  }

  lemma BlockTurn(all: Fed, was: seq<seq<Byte>>, done: seq<Piece>, data: seq<Byte>, pos: nat, j: nat, acc: seq<Byte>,
                  emitted: seq<seq<Byte>>)
    requires pos <= j && j + 8 <= |data| && First(data[pos..], EsuMarker()) == j - pos
    requires Turn(all, was, done, data[pos..], true, acc, emitted)
    ensures var block := acc + data[pos..j + 8];
            Turn(all, was, done + [Frame(acc + data[pos..j])], data[j + 8..], false, [], emitted + [block])
  {
    hide BsuMarker, EsuMarker, First, Leftmost, Progress, After;
    FrameProgress(SyncMarks(), all, done, data[pos..], acc);
    Slices(data, pos, j);
    Slices(data, pos, j + 8);
    FirstMatches(data[pos..], EsuMarker());
    assert data[pos..j + 8] == data[pos..j] + data[pos..][j - pos..j - pos + 8];
    assert acc + data[pos..j + 8] == (acc + data[pos..j]) + EsuMarker();
    WritesOne(was, done, Frame(acc + data[pos..j]));
  }

  lemma LastText(all: Fed, was: seq<seq<Byte>>, done: seq<Piece>, rest: seq<Byte>, emitted: seq<seq<Byte>>)
    requires rest != [] && First(rest, BsuMarker()) < 0 && Turn(all, was, done, rest, false, [], emitted)
    ensures var cut := |rest| - Hold(rest, BsuMarker());
            Ended(all, was, State(false, [], rest[cut..]), Plus(emitted, rest[..cut]))
  {
    hide BsuMarker, EsuMarker, First, Hold, Leftmost, Longest, Progress, TextPiece, After, Plus;
    LastProgress(SyncMarks(), all, done, rest, false, []);
    WritesText(was, done, rest[..|rest| - Hold(rest, BsuMarker())]);
  }

  lemma LastBlock(all: Fed, was: seq<seq<Byte>>, done: seq<Piece>, rest: seq<Byte>, acc: seq<Byte>,
                  emitted: seq<seq<Byte>>)
    requires rest != [] && First(rest, EsuMarker()) < 0 && Turn(all, was, done, rest, true, acc, emitted)
    ensures var cut := |rest| - Hold(rest, EsuMarker());
            Ended(all, was, State(true, acc + rest[..cut], rest[cut..]), emitted)
  {
    hide BsuMarker, EsuMarker, First, Hold, Leftmost, Longest, Progress, TextPiece, After, Plus;
    LastProgress(SyncMarks(), all, done, rest, true, acc);
  }

  lemma LastNothing(all: Fed, was: seq<seq<Byte>>, done: seq<Piece>, rest: seq<Byte>, inside: bool, acc: seq<Byte>,
                    emitted: seq<seq<Byte>>)
    requires rest == [] && Turn(all, was, done, rest, inside, acc, emitted)
    ensures Ended(all, was, State(inside, acc, []), emitted)
  {
    hide BsuMarker, EsuMarker, First, Hold, Leftmost, Longest, Progress, TextPiece, After, Plus;
    LastProgress(SyncMarks(), all, done, rest, inside, acc);
  }

  // ----- What the writes are, for every chunking -----

  lemma {:induction false} WritesAreWire(ps: seq<Piece>)
    ensures Flatten(Writes(ps)) == Wire(SyncMarks(), ps)
  {
    if ps != [] {
      var n := |ps| - 1;
      var w := Writes(ps);
      assert w[..n] == Writes(ps[..n]);
      WritesAreWire(ps[..n]);
      assert ps == ps[..n] + [ps[n]];
      WireAppend(SyncMarks(), ps[..n], [ps[n]]);
      match ps[n]
      case Text(t) => assert Wire(SyncMarks(), [Text(t)]) == t + Wire(SyncMarks(), []);
      case Frame(b) =>
        WireFrame(SyncMarks(), b);
        assert BsuMarker()[..0] + b + EsuMarker() == b + EsuMarker();
    }
  }

  /** The writes, the block being collected and the held marker are the input so far, byte for byte. */
  lemma {:induction false} Lossless(chunks: seq<seq<Byte>>)
    ensures var fed := FeedAll(SyncMarks(), chunks);
            Flatten(Writes(fed.pieces)) + (fed.st.acc + fed.st.carry) == Flatten(chunks)
  {
    hide BsuMarker, EsuMarker, First, Hold, Leftmost, Longest, Loop, Feed, Flatten, Wire;
    Conservation(SyncMarks(), chunks);
    WritesAreWire(FeedAll(SyncMarks(), chunks).pieces);
    var st := FeedAll(SyncMarks(), chunks).st;
    assert Held(SyncMarks(), st) == st.acc + st.carry;
  }

  /** Two ways of cutting the same bytes end in the same state and write the same texts and blocks:
      those of the one-shot reference. */
  lemma {:induction false} SameForAnyChunks(chunks: seq<seq<Byte>>, whole: seq<Byte>)
    requires Flatten(chunks) == whole
    ensures var ref := Seen(SyncMarks(), Split(SyncMarks(), whole));
            var fed := FeedAll(SyncMarks(), chunks);
            fed.st == ref.st && Join([], fed.pieces) == ref.pieces
  {
    Chunking(SyncMarks(), chunks);
  }

  /** A write has no BSU in it, or is one whole block: from a BSU to the first ESU after it. */
  predicate TextOrWholeBlock(w: seq<Byte>) {
    || (w != [] && First(w, BsuMarker()) < 0)
    || (BsuMarker() <= w && First(w, EsuMarker()) == |w| - |EsuMarker()|)
  }

  lemma {:induction false} WritesWholeBlocks(chunks: seq<seq<Byte>>)
    ensures forall w :: w in Writes(FeedAll(SyncMarks(), chunks).pieces) ==> TextOrWholeBlock(w)
    ensures |FeedAll(SyncMarks(), chunks).st.carry| < |BsuMarker()|
  {
    hide BsuMarker, EsuMarker, First, Hold, Leftmost, Longest, FeedAll;
    PiecesGood(SyncMarks(), chunks);
    var ps := FeedAll(SyncMarks(), chunks).pieces;
    forall w | w in Writes(ps) ensures TextOrWholeBlock(w) {
      var i :| 0 <= i < |ps| && w == Writes(ps)[i];
      assert GoodPiece(SyncMarks(), ps[i]);
      assert BsuMarker()[0..] == BsuMarker();
    }
  }

  /** Nothing after a BSU is written before the block's ESU has arrived: with a block open, the
      state holds the whole block so far, and the writes are everything before its BSU. */
  lemma {:induction false} OpenBlockIsHeld(chunks: seq<seq<Byte>>)
    requires FeedAll(SyncMarks(), chunks).st.inside
    ensures var fed := FeedAll(SyncMarks(), chunks);
            var held := fed.st.acc + fed.st.carry;
            Flatten(chunks) == Flatten(Writes(fed.pieces)) + held && BsuMarker() <= held && First(held, EsuMarker()) < 0
  {
    hide BsuMarker, EsuMarker, First, Hold, Leftmost, Longest, FeedAll, Flatten, Writes, Split, Seen;
    Lossless(chunks);
    Chunking(SyncMarks(), chunks);
    OpenTail(SyncMarks(), Flatten(chunks));
    assert BsuMarker()[0..] == BsuMarker();
  }

  lemma {:induction false} OpenTail(m: Marks, x: seq<Byte>)
    requires m.Ok() && Seen(m, Split(m, x)).st.inside
    ensures var st := Seen(m, Split(m, x)).st;
            m.open[m.skip..] <= st.acc + st.carry && First(st.acc + st.carry, m.close) < 0
    decreases |x|
  {
    hide BsuMarker, EsuMarker, First, Hold, Leftmost, Longest, Split, TextPiece;
    match Split(m, x)
    case Plain(_) =>
    case Open(t, b) =>
      SplitOpen(m, x, []);
      BodyStart(m, x);
      CutAndJoined(b, |b| - Hold(b, m.close));
    case Framed(t, body, rest) =>
      SplitFramed(m, x, []);
      var b := x[First(x, m.open) + m.skip..];
      OpenTail(m, b[First(b, m.close) + |m.close|..]);
  }

  lemma CutAndJoined(b: seq<Byte>, cut: nat)
    requires cut <= |b|
    ensures b[..cut] + b[cut..] == b
  {}
}
