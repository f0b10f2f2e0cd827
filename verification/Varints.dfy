/** The integer encodings of the cache file: Go's uvarint and varint of 64-bit values, and little-endian words. */
module Varints {
  type Byte = b: int | 0 <= b < 256

  const TWO64: int := 0x1_0000_0000_0000_0000
  const TWO63: int := 0x8000_0000_0000_0000

  /** The outcome of reading from the front of some bytes. */
  datatype Parse<+T> = Fail | Got(value: T, rest: seq<Byte>) {
    predicate IsFailure() { Fail? }
    function PropagateFailure<U>(): Parse<U>
      requires Fail?
    {
      Fail
    }
    function Extract(): (T, seq<Byte>)
      requires Got?
    {
      (value, rest)
    }
  }

  // ---------------------------------------------------------------- uvarint

  function PutUvarint(v: nat): (b: seq<Byte>)
    ensures b != []
  {
    if v < 128 then [v] else [v % 128 + 128] + PutUvarint(v / 128)
  }

  /** The rest of a uvarint of which `i` bytes were read: at most ten bytes, the tenth at most 1. */
  function GetFrom(b: seq<Byte>, i: nat): Parse<nat> {
    if b == [] || i == 10 then Fail
    else if b[0] < 128 then if i == 9 && b[0] > 1 then Fail else Got(b[0], b[1..])
    else
      var (v, rest) :- GetFrom(b[1..], i + 1);
      Got(b[0] - 128 + 128 * v, rest)
  }

  function GetUvarint(b: seq<Byte>): Parse<nat> {
    GetFrom(b, 0)
  }

  /** What the bytes after the first `i` can hold: 2 to the power 64 - 7 * i. */
  function Limit(i: nat): (r: nat)
    requires i <= 9
    ensures r >= 2
    decreases 9 - i
  {
    if i == 9 then 2 else 128 * Limit(i + 1)
  }

  lemma AllOfIt()
    ensures Limit(0) == TWO64
  {
    assert Limit(8) == 0x100 && Limit(7) == 0x8000;
    assert Limit(6) == 0x400000 && Limit(5) == 0x20000000;
    assert Limit(4) == 0x1000000000 && Limit(3) == 0x80000000000;
    assert Limit(2) == 0x4000000000000 && Limit(1) == 0x200000000000000;
  }

  lemma {:induction false} PutThenGetFrom(v: nat, i: nat, rest: seq<Byte>)
    requires i <= 9 && v < Limit(i)
    ensures GetFrom(PutUvarint(v) + rest, i) == Got(v, rest)
  {
    var b := PutUvarint(v) + rest;
    if v < 128 {
      assert b[1..] == rest;
    } else {
      assert i < 9;
      assert b[1..] == PutUvarint(v / 128) + rest;
      PutThenGetFrom(v / 128, i + 1, rest);
    }
  }

  lemma PutThenGet(v: nat, rest: seq<Byte>)
    requires v < TWO64
    ensures GetUvarint(PutUvarint(v) + rest) == Got(v, rest)
  {
    AllOfIt();
    PutThenGetFrom(v, 0, rest);
  }

  /** `rest` is what is left of `b`. */
  predicate IsRest(rest: seq<Byte>, b: seq<Byte>) {
    |rest| <= |b| && rest == b[|b| - |rest|..]
  }

  lemma RestOfRest(c: seq<Byte>, b: seq<Byte>, a: seq<Byte>)
    requires IsRest(c, b) && IsRest(b, a)
    ensures IsRest(c, a)
  {
    assert a[|a| - |b|..][|b| - |c|..] == a[|a| - |c|..];
  }

  /** Whatever the bytes, a value read fits 64 bits and its bytes were there. */
  lemma {:induction false} GotFits(b: seq<Byte>, i: nat)
    requires i <= 10
    ensures var r := GetFrom(b, i); r.Got? ==> |r.rest| < |b| && IsRest(r.rest, b) && i <= 9 && r.value < Limit(i)
  {
    if b != [] && i < 10 {
      assert IsRest(b[1..], b);
      if b[0] >= 128 {
        GotFits(b[1..], i + 1);
        var r := GetFrom(b[1..], i + 1);
        if r.Got? { RestOfRest(r.rest, b[1..], b); }
      }
    }
  }

  lemma UvarintFits(b: seq<Byte>)
    ensures var r := GetUvarint(b); r.Got? ==> |r.rest| < |b| && IsRest(r.rest, b) && r.value < TWO64
  {
    AllOfIt();
    GotFits(b, 0);
  }

  // ---------------------------------------------------------------- varint

  /** Zig-zag: the sign in the lowest bit. */
  function Zig(v: int): nat {
    if v >= 0 then 2 * v else -2 * v - 1
  }

  function Zag(u: nat): int {
    if u % 2 == 0 then u / 2 else -(u / 2) - 1
  }

  function PutVarint(v: int): seq<Byte> {
    PutUvarint(Zig(v))
  }

  function GetVarint(b: seq<Byte>): Parse<int> {
    var (u, rest) :- GetUvarint(b);
    Got(Zag(u), rest)
  }

  predicate IsInt64(v: int) {
    -TWO63 <= v < TWO63
  }

  lemma PutThenGetSigned(v: int, rest: seq<Byte>)
    requires IsInt64(v)
    ensures GetVarint(PutVarint(v) + rest) == Got(v, rest)
  {
    PutThenGet(Zig(v), rest);
  }

  // ---------------------------------------------------------------- fixed width

  /** The lowest `n` bytes of `v`, the lowest first. */
  function PutFixed(v: nat, n: nat): (b: seq<Byte>)
    ensures |b| == n
  {
    if n == 0 then [] else [v % 256] + PutFixed(v / 256, n - 1)
  }

  function GetFixed(b: seq<Byte>): nat {
    if b == [] then 0 else b[0] + 256 * GetFixed(b[1..])
  }

  function Power256(n: nat): nat {
    if n == 0 then 1 else 256 * Power256(n - 1)
  }

  lemma {:induction false} FixedRoundTrip(v: nat, n: nat)
    requires v < Power256(n)
    ensures GetFixed(PutFixed(v, n)) == v
  {
    if n > 0 {
      FixedRoundTrip(v / 256, n - 1);
      assert PutFixed(v, n)[1..] == PutFixed(v / 256, n - 1);
    }
  }

  lemma WordSizes()
    ensures Power256(4) == 0x1_0000_0000 && Power256(8) == TWO64
  {
    assert Power256(4) == 0x1_0000_0000;
    assert Power256(5) == 0x100_0000_0000;
    assert Power256(6) == 0x1_0000_0000_0000;
    assert Power256(7) == 0x100_0000_0000_0000;
  }

  function GetU64(b: seq<Byte>): Parse<nat> {
    if |b| < 8 then Fail else Got(GetFixed(b[..8]), b[8..])
  }

  lemma PutThenGetU64(v: nat, rest: seq<Byte>)
    requires v < TWO64
    ensures GetU64(PutFixed(v, 8) + rest) == Got(v, rest)
  {
    WordSizes();
    FixedRoundTrip(v, 8);
    var b := PutFixed(v, 8) + rest;
    assert b[..8] == PutFixed(v, 8) && b[8..] == rest;
  }

  function GetByte(b: seq<Byte>): Parse<Byte> {
    if b == [] then Fail else Got(b[0], b[1..])
  }
}
