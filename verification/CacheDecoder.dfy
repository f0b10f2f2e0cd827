/** The decoder of the cache file: an offset into the bytes and an error that sticks. Every method says what the
    format says of the bytes left, and reads no byte that is not there. */
module CacheDecoder {
  import opened Wrappers
  import opened Tokens
  import opened SessionTypes
  import opened Varints
  import opened CacheFormat

  class Decoder {
    const b: seq<Byte>
    var off: nat
    var err: bool

    predicate Valid()
      reads this
    {
      off <= |b|
    }

    function Rest(): seq<Byte>
      reads this
      requires Valid()
    {
      b[off..]
    }

    /** Reading `p` from the bytes `from`: the value and the bytes left, or the error. */
    ghost predicate Read<T(!new)>(from: seq<Byte>, failed: bool, p: Parse<T>, v: T)
      reads this
      requires Valid()
    {
      if failed then err else if err then p == Fail else p == Got(v, Rest())
    }

    constructor (b: seq<Byte>, off: nat)
      requires off <= |b|
      ensures Valid() && !err && this.b == b && this.off == off
    {
      this.b, this.off, err := b, off, false;
    }

    method Fault()
      modifies this`err
      ensures err
    {
      err := true;
    }

    method Uvarint() returns (v: nat)
      requires Valid()
      modifies this
      ensures Valid() && Read(old(Rest()), old(err), GetUvarint(old(Rest())), v) && off >= old(off)
      ensures err ==> v == 0
    {
      if err {
        return 0;
      }
      var r := GetUvarint(b[off..]);
      if r.Fail? {
        Fault();
        return 0;
      }
      UvarintFits(b[off..]);
      RestIs(b, off, r.rest);
      off := |b| - |r.rest|;
      return r.value;
    }

    method Varint() returns (v: int)
      requires Valid()
      modifies this
      ensures Valid() && Read(old(Rest()), old(err), GetVarint(old(Rest())), v)
    {
      if err {
        return 0;
      }
      var r := GetVarint(b[off..]);
      if r.Fail? {
        Fault();
        return 0;
      }
      UvarintFits(b[off..]);
      RestIs(b, off, r.rest);
      off := |b| - |r.rest|;
      return r.value;
    }

    method Byte1() returns (v: Byte)
      requires Valid()
      modifies this
      ensures Valid() && Read(old(Rest()), old(err), GetByte(old(Rest())), v)
      ensures err ==> v == 0
    {
      if err || |b| - off < 1 {
        Fault();
        return 0;
      }
      v := b[off];
      off := off + 1;
    }

    method U64() returns (v: nat)
      requires Valid()
      modifies this
      ensures Valid() && Read(old(Rest()), old(err), GetU64(old(Rest())), v)
    {
      if err || |b| - off < 8 {
        Fault();
        return 0;
      }
      v := GetFixed(b[off..off + 8]);
      WordAt(b, off);
      off := off + 8;
    }

    method Str() returns (s: string)
      requires Valid()
      modifies this
      ensures Valid() && Read(old(Rest()), old(err), PStr(old(Rest())), s)
    {
      var n := Uvarint();
      if err {
        return "";
      }
      if n > |b| - off {
        Fault();
        return "";
      }
      s := StringOf(b[off..off + n]);
      assert b[off..][..n] == b[off..off + n] && b[off..][n..] == b[off + n..];
      off := off + n;
    }

    /** A count never promises more elements than the bytes left can hold. */
    method Count(least: nat) returns (n: nat)
      requires Valid() && least > 0
      modifies this
      ensures Valid() && Read(old(Rest()), old(err), PCount(old(Rest()), least), n)
      ensures (if err then n == 0 else CanHold(|b| - off, n, least)) && off >= old(off)
    {
      n := Uvarint();
      if err {
        return 0;
      }
      if !CanHold(|b| - off, n, least) {
        Fault();
        return 0;
      }
    }

    method ReadTime() returns (t: Time)
      requires Valid()
      modifies this
      ensures Valid() && Read(old(Rest()), old(err), PTime(old(Rest())), t)
    {
      var sec := Varint();
      var nsec := Uvarint();
      if nsec > 999_999_999 {
        Fault();
      }
      if err {
        return 0;
      }
      return sec * NANOS + nsec;
    }

    /** This loop has no check of its own: the count made sure of its bytes. */
    method HashesLoop(n: nat) returns (out: seq<Hash>)
      requires Valid() && !err && n * 8 <= |b| - off
      modifies this`off
      ensures Valid() && |out| == n && Read(old(Rest()), false, PList(n, old(Rest()), GetU64), out)
    {
      ghost var whole := PList(n, Rest(), GetU64);
      out := [];
      LoopStart(whole);
      for k := 0 to n
        invariant Valid() && |out| == k && (n - k) * 8 <= |b| - off
        invariant Looped(whole, out, n - k, Rest(), err, GetU64)
      {
        var v := GetFixed(b[off..off + 8]);
        WordAt(b, off);
        LoopNext(whole, out, n - k, Rest(), err, GetU64, v, b[off + 8..], err);
        out := out + [v];
        off := off + 8;
      }
      LoopDone(whole, out, Rest(), err, GetU64);
    }

    method Hashes() returns (out: seq<Hash>)
      requires Valid()
      modifies this
      ensures Valid() && Read(old(Rest()), old(err), PHashes(old(Rest())), out)
      ensures |out| * 8 <= |b| - old(off)
    {
      var n := Count(8);
      if n == 0 {
        return [];
      }
      out := HashesLoop(n);
    }

    method Model(models: seq<string>) returns (m: string)
      requires Valid()
      modifies this
      ensures Valid() && Read(old(Rest()), old(err), PModel(old(Rest()), models), m)
    {
      var i := Uvarint();
      if err {
        return "";
      }
      if i >= |models| {
        Fault();
        return "";
      }
      return models[i];
    }

    method ReadTokens() returns (t: Tok)
      requires Valid()
      modifies this
      ensures Valid() && Read(old(Rest()), old(err), PTokens(old(Rest())), t)
    {
      var input := Varint();
      var output := Varint();
      var read := Varint();
      var write := Varint();
      return Tok(input, output, read, write);
    }

    method Names() returns (h: Header)
      requires Valid()
      modifies this
      ensures Valid() && Read(old(Rest()), old(err), PHeader(old(Rest())), h)
    {
      var id := Str();
      var first := ReadTime();
      var last := ReadTime();
      var cwd := Str();
      var branch := Str();
      var model := Str();
      return Header(id, first, last, cwd, branch, model);
    }

    method TableLoop(n: nat, ghost p: seq<Byte> -> Parse<string>) returns (out: seq<string>)
      requires Valid() && forall r {:trigger PStr(r)} :: p(r) == PStr(r)
      modifies this
      ensures Valid() && |out| == n && Read(old(Rest()), old(err), PList(n, old(Rest()), p), out)
    {
      out := [];
      ghost var whole := if err then Fail else PList(n, Rest(), p);
      LoopStart(whole);
      for k := 0 to n
        invariant Valid() && |out| == k && Looped(whole, out, n - k, Rest(), err, p)
      {
        ghost var rest, failed := Rest(), err;
        var e := Str();
        LoopNext(whole, out, n - k, rest, failed, p, e, Rest(), err);
        out := out + [e];
      }
      LoopDone(whole, out, Rest(), err, p);
    }

    method Table() returns (out: seq<string>)
      requires Valid()
      modifies this
      ensures Valid() && Read(old(Rest()), old(err), PTable(old(Rest())), out)
      ensures |out| * 1 <= |b| - old(off)
    {
      var n := Count(1);
      out := TableLoop(n, PStr);
    }

    method Msg(models: seq<string>) returns (e: MsgEntry)
      requires Valid()
      modifies this
      ensures Valid() && Read(old(Rest()), old(err), PMsg(old(Rest()), models), e)
    {
      var id := U64();
      var model := Model(models);
      var flag := Byte1();
      if flag > 1 {
        Fault();
      }
      var tok := ReadTokens();
      return MsgEntry(id, MsgAgg(model, tok, flag == 1));
    }

    method MsgBy(models: seq<string>, ghost p: seq<Byte> -> Parse<MsgEntry>) returns (e: MsgEntry)
      requires Valid() && forall r {:trigger PMsg(r, models)} :: p(r) == PMsg(r, models)
      modifies this
      ensures Valid() && Read(old(Rest()), old(err), p(old(Rest())), e)
    {
      e := Msg(models);
    }

    method MsgsLoop(n: nat, models: seq<string>, ghost p: seq<Byte> -> Parse<MsgEntry>) returns (out: seq<MsgEntry>)
      requires Valid() && forall r {:trigger PMsg(r, models)} :: p(r) == PMsg(r, models)
      modifies this
      ensures Valid() && |out| == n && Read(old(Rest()), old(err), PList(n, old(Rest()), p), out)
    {
      out := [];
      ghost var whole := if err then Fail else PList(n, Rest(), p);
      LoopStart(whole);
      for k := 0 to n
        invariant Valid() && |out| == k && Looped(whole, out, n - k, Rest(), err, p)
      {
        ghost var rest, failed := Rest(), err;
        var e := MsgBy(models, p);
        LoopNext(whole, out, n - k, rest, failed, p, e, Rest(), err);
        out := out + [e];
      }
      LoopDone(whole, out, Rest(), err, p);
    }

    method Msgs(models: seq<string>) returns (out: seq<MsgEntry>)
      requires Valid()
      modifies this
      ensures Valid() && Read(old(Rest()), old(err), PMsgs(old(Rest()), models), out)
      ensures |out| * 14 <= |b| - old(off)
    {
      var n := Count(14);
      out := MsgsLoop(n, models, MsgParser(models));
    }

    method NoId(models: seq<string>) returns (e: NoIdEvent)
      requires Valid()
      modifies this
      ensures Valid() && Read(old(Rest()), old(err), PNoId(old(Rest()), models), e)
    {
      var flag := Byte1();
      if flag > 3 {
        Fault();
      }
      var uuid: Option<Hash> := None;
      if flag % 2 == 1 {
        var u := U64();
        uuid := Some(u);
      }
      var model := Model(models);
      var tok := ReadTokens();
      return NoIdEvent(uuid, model, tok, flag / 2 % 2 == 1);
    }

    method NoIdBy(models: seq<string>, ghost p: seq<Byte> -> Parse<NoIdEvent>) returns (e: NoIdEvent)
      requires Valid() && forall r {:trigger PNoId(r, models)} :: p(r) == PNoId(r, models)
      modifies this
      ensures Valid() && Read(old(Rest()), old(err), p(old(Rest())), e)
    {
      e := NoId(models);
    }

    method NoIdsLoop(n: nat, models: seq<string>, ghost p: seq<Byte> -> Parse<NoIdEvent>) returns (out: seq<NoIdEvent>)
      requires Valid() && forall r {:trigger PNoId(r, models)} :: p(r) == PNoId(r, models)
      modifies this
      ensures Valid() && |out| == n && Read(old(Rest()), old(err), PList(n, old(Rest()), p), out)
    {
      out := [];
      ghost var whole := if err then Fail else PList(n, Rest(), p);
      LoopStart(whole);
      for k := 0 to n
        invariant Valid() && |out| == k && Looped(whole, out, n - k, Rest(), err, p)
      {
        ghost var rest, failed := Rest(), err;
        var e := NoIdBy(models, p);
        LoopNext(whole, out, n - k, rest, failed, p, e, Rest(), err);
        out := out + [e];
      }
      LoopDone(whole, out, Rest(), err, p);
    }

    method NoIds(models: seq<string>) returns (out: seq<NoIdEvent>)
      requires Valid()
      modifies this
      ensures Valid() && Read(old(Rest()), old(err), PNoIds(old(Rest()), models), out)
      ensures |out| * 6 <= |b| - old(off)
    {
      var n := Count(6);
      out := NoIdsLoop(n, models, NoIdParser(models));
    }

    method ReadLists(models: seq<string>) returns (l: Lists)
      requires Valid()
      modifies this
      ensures Valid() && Read(old(Rest()), old(err), PLists(old(Rest()), models), l)
    {
      var uuids := Hashes();
      var userUuids := Hashes();
      var v := Uvarint();
      if v > MAX_INT32 {
        Fault();
      }
      var msgs := Msgs(models);
      var noId := NoIds(models);
      return Lists(uuids, userUuids, v, msgs, noId);
    }

    method Summary() returns (s: FileSummary)
      requires Valid()
      modifies this
      ensures Valid() && Read(old(Rest()), old(err), PSummary(old(Rest())), s)
    {
      var h := Names();
      var table := Table();
      var l := ReadLists([""] + table);
      return SummaryOf(h, l);
    }

    method Sum() returns (sum: Option<FileSummary>)
      requires Valid()
      modifies this
      ensures Valid() && Read(old(Rest()), old(err), PSum(old(Rest())), sum)
    {
      sum := None;
      var flag := Byte1();
      match flag {
        case 0 =>
        case 1 =>
          var s := Summary();
          sum := Some(s);
        case _ =>
          Fault();
      }
    }

    method ReadEntry() returns (rel: string, ce: Entry)
      requires Valid()
      modifies this
      ensures Valid() && Read(old(Rest()), old(err), PEntry(old(Rest())), (rel, ce))
    {
      rel := Str();
      var size := Varint();
      var mtimeNs := Varint();
      var sum := Sum();
      ce := Entry(size, mtimeNs, sum);
    }
  }

  // ---------------------------------------------------------------- loops that read a list

  /** What a list reads as, once `out` is read and `left` elements are not. */
  ghost predicate Looped<T(!new)>(whole: Parse<seq<T>>, out: seq<T>, left: nat, rest: seq<Byte>, err: bool,
                                  p: seq<Byte> -> Parse<T>) {
    whole == if err then Fail else Prepend(out, PList(left, rest, p))
  }

  lemma LoopStart<T>(whole: Parse<seq<T>>)
    ensures Prepend([], whole) == whole
  {
    if whole.Got? { assert [] + whole.value == whole.value; }
  }

  lemma LoopNext<T(!new)>(whole: Parse<seq<T>>, out: seq<T>, left: nat, rest: seq<Byte>, err: bool,
                          p: seq<Byte> -> Parse<T>,
                          v: T, after: seq<Byte>, failed: bool)
    requires left > 0 && Looped(whole, out, left, rest, err, p)
    requires if err then failed else if failed then p(rest) == Fail else p(rest) == Got(v, after)
    ensures Looped(whole, out + [v], left - 1, after, failed, p)
  {
    if !err && !failed {
      PrependNext(out, v, left, rest, p);
    }
  }

  lemma LoopDone<T(!new)>(whole: Parse<seq<T>>, out: seq<T>, rest: seq<Byte>, err: bool, p: seq<Byte> -> Parse<T>)
    requires Looped(whole, out, 0, rest, err, p)
    ensures whole == if err then Fail else Got(out, rest)
  {
    assert out + [] == out;
  }

  lemma WordAt(b: seq<Byte>, off: nat)
    requires off + 8 <= |b|
    ensures GetU64(b[off..]) == Got(GetFixed(b[off..off + 8]), b[off + 8..])
  {
    assert b[off..][..8] == b[off..off + 8] && b[off..][8..] == b[off + 8..];
  }

  lemma RestIs(b: seq<Byte>, off: nat, rest: seq<Byte>)
    requires off <= |b| && IsRest(rest, b[off..])
    ensures |rest| <= |b| - off && rest == b[|b| - |rest|..]
  {
    assert b[off..][|b| - off - |rest|..] == b[|b| - |rest|..];
  }

  function Prepend<T>(xs: seq<T>, p: Parse<seq<T>>): Parse<seq<T>> {
    if p.Fail? then Fail else Got(xs + p.value, p.rest)
  }

  lemma PrependNext<T>(xs: seq<T>, v: T, n: nat, b: seq<Byte>, p: seq<Byte> -> Parse<T>)
    requires n > 0 && p(b).Got? && p(b).value == v
    ensures Prepend(xs, PList(n, b, p)) == Prepend(xs + [v], PList(n - 1, p(b).rest, p))
  {
    var tail := PList(n - 1, p(b).rest, p);
    if tail.Got? {
      assert xs + ([v] + tail.value) == (xs + [v]) + tail.value;
    }
  }
}
