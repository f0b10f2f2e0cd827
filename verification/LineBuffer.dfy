/** The line splitter of the control mod: UTF-16 code units in chunks, lines of at most 512 UTF-8 bytes. */
module LineBuffer {
  type Unit = u: int | 0 <= u < 0x10000

  const MAX_LINE_BYTES: nat := 512
  const NEWLINE: Unit := 10

  predicate IsHigh(u: Unit) { 0xd800 <= u <= 0xdbff }
  predicate IsLow(u: Unit) { 0xdc00 <= u <= 0xdfff }

  // ---------------------------------------------------------------- UTF-8 length

  /** utf8Len as it counts: a high surrogate and whatever follows it are four bytes. */
  function Counted(s: seq<Unit>): nat {
    if s == [] then 0
    else if s[0] < 0x80 then 1 + Counted(s[1..])
    else if s[0] < 0x800 then 2 + Counted(s[1..])
    else if IsHigh(s[0]) && |s| > 1 then 4 + Counted(s[2..])
    else 3 + Counted(s[1..])
  }

  method Utf8Len(s: seq<Unit>) returns (n: nat)
    ensures n == Counted(s)
  {
    n := 0;
    var i := 0;
    while i < |s|
      invariant i <= |s| && n + Counted(s[i..]) == Counted(s)
    {
      var c := s[i];
      assert s[i..][1..] == s[i + 1..];
      if c < 0x80 {
        n := n + 1;
      } else if c < 0x800 {
        n := n + 2;
      } else if IsHigh(c) && i + 1 < |s| {
        assert s[i..][2..] == s[i + 2..];
        n := n + 4;
        i := i + 1;
      } else {
        n := n + 3;
      }
      i := i + 1;
    }
  }

  /** UTF-8 of a code point, section 3 of RFC 3629. */
  function Utf8(cp: nat): seq<nat> {
    if cp < 0x80 then [cp]
    else if cp < 0x800 then [0xc0 + cp / 0x40, 0x80 + cp % 0x40]
    else if cp < 0x10000 then [0xe0 + cp / 0x1000, 0x80 + cp / 0x40 % 0x40, 0x80 + cp % 0x40]
    else [0xf0 + cp / 0x40000, 0x80 + cp / 0x1000 % 0x40, 0x80 + cp / 0x40 % 0x40, 0x80 + cp % 0x40]
  }

  function Pair(high: Unit, low: Unit): int {
    0x10000 + (high - 0xd800) * 0x400 + (low - 0xdc00)
  }

  const REPLACEMENT: nat := 0xfffd

  /** The UTF-8 bytes of a string; a surrogate without its partner is encoded as the replacement character. */
  function Encoded(s: seq<Unit>): seq<nat> {
    if s == [] then []
    else if IsHigh(s[0]) && |s| > 1 && IsLow(s[1]) then Utf8(Pair(s[0], s[1])) + Encoded(s[2..])
    else if IsHigh(s[0]) || IsLow(s[0]) then Utf8(REPLACEMENT) + Encoded(s[1..])
    else Utf8(s[0]) + Encoded(s[1..])
  }

  /** Every run of high surrogates is one, before a low one, an ASCII character or the end, or two before a low one. */
  predicate Tame(s: seq<Unit>) {
    if s == [] then true
    else if !IsHigh(s[0]) then Tame(s[1..])
    else if |s| == 1 then true
    else if IsLow(s[1]) || s[1] < 0x80 then Tame(s[2..])
    else IsHigh(s[1]) && |s| > 2 && IsLow(s[2]) && Tame(s[3..])
  }

  /** The count never exceeds the bytes, and is exact on tame strings only. */
  lemma {:induction false} CountedAgainstEncoded(s: seq<Unit>)
    ensures Counted(s) <= |Encoded(s)|
    ensures Counted(s) == |Encoded(s)| <==> Tame(s)
  {
    if s == [] {
    } else if !IsHigh(s[0]) {
      CountedAgainstEncoded(s[1..]);
    } else if |s| > 1 {
      CountedAgainstEncoded(s[2..]);
      assert s[1..][1..] == s[2..];
      if |s| > 2 && IsHigh(s[1]) && IsLow(s[2]) {
        CountedAgainstEncoded(s[3..]);
        assert s[1..][2..] == s[3..] && s[2..][1..] == s[3..];
      }
    } else {
      assert s[1..] == [];
    }
  }

  /** Every surrogate has its partner. */
  predicate WellFormed(s: seq<Unit>) {
    if s == [] then true
    else if IsHigh(s[0]) then |s| > 1 && IsLow(s[1]) && WellFormed(s[2..])
    else !IsLow(s[0]) && WellFormed(s[1..])
  }

  /** On well-formed input utf8Len is the length of the UTF-8 encoding. */
  lemma {:induction false} WellFormedIsExact(s: seq<Unit>)
    requires WellFormed(s)
    ensures Counted(s) == |Encoded(s)|
  {
    WellFormedIsTame(s);
    CountedAgainstEncoded(s);
  }

  lemma {:induction false} WellFormedIsTame(s: seq<Unit>)
    requires WellFormed(s)
    ensures Tame(s)
  {
    if s != [] {
      WellFormedIsTame(if IsHigh(s[0]) then s[2..] else s[1..]);
    }
  }

  /** A high surrogate before a two-byte character is counted short. */
  lemma LoneSurrogateIsShort()
    ensures Counted([0xd800, 0xe9]) == 4 && |Encoded([0xd800, 0xe9])| == 5
  {
    assert [0xd800, 0xe9][1..] == [0xe9] && [0xd800, 0xe9][2..] == [] && [0xe9][1..] == [];
    assert Encoded([0xe9]) == Utf8(0xe9) + [];
    assert Encoded([0xd800, 0xe9]) == Utf8(REPLACEMENT) + Encoded([0xe9]);
  }

  lemma {:induction false} CountedGrows(s: seq<Unit>, c: Unit)
    ensures Counted(s) <= Counted(s + [c])
  {
    if s != [] {
      assert (s + [c])[1..] == s[1..] + [c];
      CountedGrows(s[1..], c);
      if |s| > 1 {
        assert (s + [c])[2..] == s[2..] + [c];
        CountedGrows(s[2..], c);
      } else {
        assert (s + [c])[2..] == [];
        assert Counted(s[1..] + [c]) >= 0;
      }
    }
  }

  // ---------------------------------------------------------------- lines of a stream

  /** The complete lines of a stream, without their newlines, and what follows the last newline. */
  function Lines(stream: seq<Unit>): seq<seq<Unit>> {
    if stream == [] then []
    else
      var front, u := stream[..|stream| - 1], stream[|stream| - 1];
      if u == NEWLINE then Lines(front) + [Tail(front)] else Lines(front)
  }

  function Tail(stream: seq<Unit>): seq<Unit> {
    if stream == [] then []
    else
      var front, u := stream[..|stream| - 1], stream[|stream| - 1];
      if u == NEWLINE then [] else Tail(front) + [u]
  }

  type Measure = seq<Unit> -> nat

  predicate Fits(len: Measure, line: seq<Unit>) {
    len(line) + 1 <= MAX_LINE_BYTES
  }

  /** The lines short enough to emit, and how many are not. */
  datatype Output = Output(lines: seq<seq<Unit>>, oversize: nat) {
    function Plus(o: Output): Output { Output(lines + o.lines, oversize + o.oversize) }
  }

  const NOTHING := Output([], 0)

  function Verdict(len: Measure, line: seq<Unit>): Output {
    if Fits(len, line) then Output([line], 0) else Output([], 1)
  }

  function Emitted(len: Measure, lines: seq<seq<Unit>>): Output {
    if lines == [] then NOTHING
    else Emitted(len, lines[..|lines| - 1]).Plus(Verdict(len, lines[|lines| - 1]))
  }

  lemma {:induction false} LinesHaveNoNewline(stream: seq<Unit>)
    ensures NEWLINE !in Tail(stream) && forall l :: l in Lines(stream) ==> NEWLINE !in l
  {
    if stream != [] { LinesHaveNoNewline(stream[..|stream| - 1]); }
  }

  function Joined(lines: seq<seq<Unit>>): seq<Unit> {
    if lines == [] then [] else Joined(lines[..|lines| - 1]) + lines[|lines| - 1] + [NEWLINE]
  }

  /** The lines with their newlines, and the tail, are the stream: nothing is lost or made up by splitting. */
  lemma {:induction false} LinesAreTheStream(stream: seq<Unit>)
    ensures Joined(Lines(stream)) + Tail(stream) == stream
  {
    if stream != [] {
      var front, u := stream[..|stream| - 1], stream[|stream| - 1];
      LinesAreTheStream(front);
      assert stream == front + [u];
      if u == NEWLINE {
        var lines := Lines(front) + [Tail(front)];
        assert lines[..|lines| - 1] == Lines(front);
        assert Joined(lines) + [] == Joined(Lines(front)) + Tail(front) + [NEWLINE];
      } else {
        assert Joined(Lines(front)) + (Tail(front) + [u]) == Joined(Lines(front)) + Tail(front) + [u];
      }
    }
  }

  lemma LineEnds(stream: seq<Unit>)
    ensures Lines(stream + [NEWLINE]) == Lines(stream) + [Tail(stream)] && Tail(stream + [NEWLINE]) == []
  {
    assert (stream + [NEWLINE])[..|stream + [NEWLINE]| - 1] == stream;
  }

  lemma {:induction false} SplitOfJoined(lines: seq<seq<Unit>>, tail: seq<Unit>)
    requires NEWLINE !in tail && forall l :: l in lines ==> NEWLINE !in l
    ensures Lines(Joined(lines) + tail) == lines && Tail(Joined(lines) + tail) == tail
    decreases |lines|, |tail|
  {
    var stream := Joined(lines) + tail;
    if tail != [] {
      var n := |tail| - 1;
      SplitOfJoined(lines, tail[..n]);
      assert stream[..|stream| - 1] == Joined(lines) + tail[..n];
    } else if lines != [] {
      var n := |lines| - 1;
      SplitOfJoined(lines[..n], lines[n]);
      assert stream == Joined(lines[..n]) + lines[n] + [NEWLINE];
      LineEnds(Joined(lines[..n]) + lines[n]);
      assert lines == lines[..n] + [lines[n]];
    }
  }

  /** There is one way to cut a stream into newline-free lines and a newline-free tail: that of `Lines` and `Tail`. */
  lemma SplittingIsUnique(stream: seq<Unit>, lines: seq<seq<Unit>>, tail: seq<Unit>)
    ensures (Joined(lines) + tail == stream && NEWLINE !in tail && forall l :: l in lines ==> NEWLINE !in l)
            <==> lines == Lines(stream) && tail == Tail(stream)
  {
    LinesAreTheStream(stream);
    LinesHaveNoNewline(stream);
    if Joined(lines) + tail == stream && NEWLINE !in tail && forall l :: l in lines ==> NEWLINE !in l {
      SplitOfJoined(lines, tail);
    }
  }

  // ---------------------------------------------------------------- the buffer

  /** A stream so far: its unfinished line, and what its complete lines come to. */
  datatype State = State(tail: seq<Unit>, output: Output)

  function After(len: Measure, stream: seq<Unit>): State {
    State(Tail(stream), Emitted(len, Lines(stream)))
  }

  function Step(len: Measure, st: State, ch: seq<Unit>): State {
    if ch == [NEWLINE] then State([], st.output.Plus(Verdict(len, st.tail))) else State(st.tail + ch, st.output)
  }

  predicate IsChar(ch: seq<Unit>) {
    |ch| == 1 || (|ch| == 2 && IsHigh(ch[0]) && IsLow(ch[1]))
  }

  lemma UnitAppended(len: Measure, stream: seq<Unit>, u: Unit)
    ensures After(len, stream + [u]) == Step(len, After(len, stream), [u])
  {
    assert (stream + [u])[..|stream + [u]| - 1] == stream;
    var lines := Lines(stream) + [Tail(stream)];
    assert lines[..|lines| - 1] == Lines(stream);
  }

  lemma CharAppended(len: Measure, stream: seq<Unit>, ch: seq<Unit>)
    requires IsChar(ch)
    ensures After(len, stream + ch) == Step(len, After(len, stream), ch)
  {
    if |ch| == 1 {
      assert ch == [ch[0]];
      UnitAppended(len, stream, ch[0]);
    } else {
      PairAppended(len, stream, ch[0], ch[1]);
      assert ch == [ch[0], ch[1]];
    }
  }

  lemma PairAppended(len: Measure, stream: seq<Unit>, a: Unit, b: Unit)
    requires a != NEWLINE && b != NEWLINE
    ensures After(len, stream + [a, b]) == Step(len, After(len, stream), [a, b])
  {
    UnitAppended(len, stream, a);
    UnitAppended(len, stream + [a], b);
    TwoSteps(len, After(len, stream), a, b);
    assert stream + [a] + [b] == stream + [a, b];
  }

  lemma AppendedBy(after: seq<Unit> -> State, len: Measure, stream: seq<Unit>, ch: seq<Unit>)
    requires IsChar(ch) && forall s {:trigger After(len, s)} :: after(s) == After(len, s)
    ensures after(stream + ch) == Step(len, after(stream), ch)
  {
    CharAppended(len, stream, ch);
  }

  lemma TwoSteps(len: Measure, st: State, a: Unit, b: Unit)
    requires a != NEWLINE && b != NEWLINE
    ensures Step(len, Step(len, st, [a]), [b]) == Step(len, st, [a, b])
  {
    assert [a] != [NEWLINE] && [b] != [NEWLINE] && [a, b] != [NEWLINE];
    assert st.tail + [a] + [b] == st.tail + [a, b];
  }

  /** A measure that never shrinks as a line grows. */
  ghost predicate Growing(len: Measure) {
    forall s, c: Unit {:trigger len(s + [c])} :: len(s) <= len(s + [c])
  }

  lemma CharGrows(len: Measure, s: seq<Unit>, ch: seq<Unit>)
    requires Growing(len) && IsChar(ch)
    ensures len(s) <= len(s + ch)
  {
    if |ch| == 1 {
      assert s + ch == s + [ch[0]];
    } else {
      assert s + ch == s + [ch[0]] + [ch[1]];
    }
  }

  class LineBuffer {
    var buf: seq<Unit>
    var discarding: bool
    /** Everything pushed so far and what it comes to; the measure of a line, and what a stream comes to. */
    ghost var stream: seq<Unit>
    ghost var state: State
    ghost const len: Measure
    ghost const after: seq<Unit> -> State

    /** The buffer is the unfinished line, or empty once that line is too long to emit. */
    ghost predicate Valid()
      reads this
    {
      && Growing(len) && (forall s {:trigger Counted(s)} :: len(s) == Counted(s))
      && (forall s {:trigger After(len, s)} :: after(s) == After(len, s))
      && state == after(stream)
      && discarding == !Fits(len, state.tail) && buf == if discarding then [] else state.tail
    }

    constructor ()
      ensures Valid() && stream == [] && state == State([], NOTHING) && len == Counted
    {
      buf, discarding, stream, state, len, after := [], false, [], State([], NOTHING), Counted, s => After(Counted, s);
      CountedIsGrowing();
      assert Counted([]) == 0;
    }

    /** Takes one character: a unit, or the two of a surrogate pair. */
    method Take(ch: seq<Unit>) returns (line: seq<seq<Unit>>, oversize: nat)
      requires Valid() && IsChar(ch)
      modifies this
      ensures Valid() && stream == old(stream) + ch && state.output == old(state).output.Plus(Output(line, oversize))
    {
      AppendedBy(after, len, stream, ch);
      line, oversize := Feed(ch);
      stream := stream + ch;
    }

    method Feed(ch: seq<Unit>) returns (line: seq<seq<Unit>>, oversize: nat)
      requires Valid() && IsChar(ch)
      modifies this`buf, this`discarding, this`state
      ensures discarding == !Fits(len, state.tail) && buf == if discarding then [] else state.tail
      ensures state == Step(len, old(state), ch) && state.output == old(state).output.Plus(Output(line, oversize))
    {
      line, oversize := [], 0;
      CharGrows(len, state.tail, ch);
      PlusNothing(state.output);
      state := Step(len, state, ch);
      if ch == [NEWLINE] {
        if discarding {
          discarding := false;
          oversize := 1;
        } else {
          line := [buf];
        }
        assert Counted([]) == 0;
        buf := [];
        return;
      }
      if discarding {
        return;
      }
      buf := buf + ch;
      var n := Utf8Len(buf);
      if n + 1 > MAX_LINE_BYTES {
        discarding := true;
        buf := [];
      }
    }

    /** Emits, in order, the lines completed by the chunk that fit, and counts the others. */
    method Push(chunk: seq<Unit>) returns (lines: seq<seq<Unit>>, oversize: nat)
      requires Valid()
      modifies this
      ensures Valid() && stream == old(stream) + chunk
              && state.output == old(state).output.Plus(Output(lines, oversize))
    {
      lines, oversize := [], 0;
      var i := 0;
      PlusNothing(state.output);
      assert stream + chunk[..0] == stream;
      while i < |chunk|
        invariant i <= |chunk| && Valid() && stream == old(stream) + chunk[..i]
        invariant state.output == old(state).output.Plus(Output(lines, oversize))
      {
        var ch := CharAt(chunk, i);
        SliceGrows(old(stream), chunk, i, ch);
        var line, over := Take(ch);
        PlusAssociates(old(state).output, Output(lines, oversize), Output(line, over));
        lines, oversize := lines + line, oversize + over;
        i := i + |ch|;
      }
      assert chunk[..|chunk|] == chunk;
    }
  }

  lemma CountedIsGrowing()
    ensures Growing(Counted)
  {
    forall s, c: Unit ensures Counted(s) <= Counted(s + [c]) { CountedGrows(s, c); }
  }

  /** What iterating a string yields at `i`. */
  function CharAt(s: seq<Unit>, i: nat): (ch: seq<Unit>)
    requires i < |s|
    ensures IsChar(ch) && i + |ch| <= |s| && ch == s[i..i + |ch|]
  {
    if IsHigh(s[i]) && i + 1 < |s| && IsLow(s[i + 1]) then s[i..i + 2] else s[i..i + 1]
  }

  lemma SliceGrows(stream: seq<Unit>, chunk: seq<Unit>, i: nat, ch: seq<Unit>)
    requires i + |ch| <= |chunk| && ch == chunk[i..i + |ch|]
    ensures stream + chunk[..i] + ch == stream + chunk[..i + |ch|]
  {
  }

  lemma PlusNothing(a: Output)
    ensures a.Plus(NOTHING) == a && NOTHING.Plus(a) == a
  {
  }

  lemma PlusAssociates(a: Output, b: Output, c: Output)
    ensures a.Plus(b).Plus(c) == a.Plus(b.Plus(c))
  {
  }

  /** The buffer holds at most 511 bytes. */
  lemma BufferIsBounded(b: LineBuffer)
    requires b.Valid()
    ensures Counted(b.buf) <= MAX_LINE_BYTES - 1
  {
    assert Counted([]) == 0;
    assert b.len(b.buf) == Counted(b.buf);
  }

  function Concat(chunks: seq<seq<Unit>>): seq<Unit> {
    if chunks == [] then [] else Concat(chunks[..|chunks| - 1]) + chunks[|chunks| - 1]
  }

  /** However a stream is cut, even inside a surrogate pair, the lines and the count are those of the whole. */
  method PushAll(chunks: seq<seq<Unit>>) returns (lines: seq<seq<Unit>>, oversize: nat)
    ensures Output(lines, oversize) == Emitted(Counted, Lines(Concat(chunks)))
  {
    var b := new LineBuffer();
    lines, oversize := [], 0;
    for k := 0 to |chunks|
      invariant b.Valid() && fresh(b) && b.len == Counted && b.stream == Concat(chunks[..k])
      invariant b.state.output == Output(lines, oversize)
    {
      assert chunks[..k + 1][..k] == chunks[..k];
      var more, over := b.Push(chunks[k]);
      lines, oversize := lines + more, oversize + over;
    }
    assert chunks[..|chunks|] == chunks;
    assert b.after(b.stream) == After(b.len, b.stream);
  }
}
