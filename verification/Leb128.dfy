/** Unsigned 32-bit LEB128 integers, section 5.2.2 of the WebAssembly Core Specification. */
module Leb128 {
  import opened Slices
  import opened Wrappers

  /** A value and the position behind it. */
  datatype Read<T> = Read(value: T, next: nat)

  function Power2(n: nat): nat {
    if n == 0 then 1 else 2 * Power2(n - 1)
  }

  /** The grammar of uN: the number a byte string encodes, if it is one of the forms. */
  function LebValue(bits: nat, e: seq<byte>): Option<nat> {
    if e == [] then None
    else if e[0] < 0x80 then
      if |e| == 1 && e[0] < Power2(bits) then Some(e[0]) else None
    else if bits <= 7 then None
    else
      match LebValue(bits - 7, e[1..])
      case None => None
      case Some(m) => Some(0x80 * m + (e[0] - 0x80))
  }

  lemma {:induction false} LebFits(bits: nat, e: seq<byte>)
    requires LebValue(bits, e).Some?
    ensures LebValue(bits, e).value < Power2(bits)
    decreases bits
  {
    if e[0] >= 0x80 {
      LebFits(bits - 7, e[1..]);
      var p := Power2(bits - 7);
      assert Power2(bits) == 2 * Power2(bits - 1);
      assert Power2(bits - 1) == 2 * Power2(bits - 2);
      assert Power2(bits - 2) == 2 * Power2(bits - 3);
      assert Power2(bits - 3) == 2 * Power2(bits - 4);
      assert Power2(bits - 4) == 2 * Power2(bits - 5);
      assert Power2(bits - 5) == 2 * Power2(bits - 6);
      assert Power2(bits - 6) == 2 * p;
    }
  }

  // ----- the loop

  /** The value with the seven payload bits of one more byte; `scale` is 2^(7 * index), so adding them sets them. */
  function WithPayload(value: nat, byte: byte, scale: nat): nat {
    value + (byte % 0x80) * scale
  }

  /** Turn `index` of the loop. */
  function U32From(b: seq<byte>, i: nat, end: nat, index: nat, scale: nat, value: nat): (r: Option<Read<nat>>)
    requires i <= end <= |b| && index <= 5
    ensures r.Some? ==> i < r.value.next <= end
    decreases 5 - index
  {
    if index == 5 || i == end then None
    else
      if index == 4 && b[i] % 0x80 > 0x0f then None
      else if b[i] < 0x80 then Some(Read(WithPayload(value, b[i], scale), i + 1))
      else U32From(b, i + 1, end, index + 1, scale * 0x80, WithPayload(value, b[i], scale))
  }

  function U32(b: seq<byte>, i: nat, end: nat): (r: Option<Read<nat>>)
    requires i <= end <= |b|
    ensures r.Some? ==> i < r.value.next <= end
  {
    U32From(b, i, end, 0, 1, 0)
  }

  lemma SmallBits(index: nat)
    requires index < 5
    ensures index == 4 ==> Power2(32 - 7 * index) == 0x10
    ensures index < 4 ==> Power2(32 - 7 * index) >= 0x80
  {
    assert Power2(4) == 0x10;
    assert Power2(7) == 0x80;
    if index < 4 {
      PowersGrow(7, 32 - 7 * index);
    }
  }

  lemma {:induction false} PowersGrow(m: nat, n: nat)
    requires m <= n
    ensures Power2(m) <= Power2(n)
    decreases n
  {
    if m < n {
      PowersGrow(m, n - 1);
    }
  }

  lemma AddLast(value: nat, byte: byte, scale: nat)
    requires byte < 0x80
    ensures WithPayload(value, byte, scale) == value + scale * byte
  {
  }

  lemma Distributes(a: nat, b: nat, c: nat)
    ensures a * (b + c) == a * b + a * c
  {
  }

  lemma Associates(a: nat, b: nat, c: nat)
    ensures a * (b * c) == (a * b) * c
  {
  }

  lemma AddMore(value: nat, byte: byte, scale: nat, m: nat)
    requires byte >= 0x80
    ensures WithPayload(value, byte, scale) + (scale * 0x80) * m == value + scale * (0x80 * m + (byte - 0x80))
  {
    var payload: nat := byte - 0x80;
    assert byte % 0x80 == payload;
    Distributes(scale, 0x80 * m, payload);
    Associates(scale, 0x80, m);
  }

  lemma {:induction false} LoopReadsTheGrammar(b: seq<byte>, i: nat, end: nat, index: nat, scale: nat, value: nat, next: nat)
    requires i <= end <= |b| && index < 5 && i <= next <= end
    ensures var m := LebValue(32 - 7 * index, b[i..next]);
            m.Some? ==> U32From(b, i, end, index, scale, value) == Some(Read((value + scale * m.value) as nat, next))
    ensures var r := U32From(b, i, end, index, scale, value);
            r.Some? && r.value.next == next ==> LebValue(32 - 7 * index, b[i..next]).Some?
    decreases 5 - index
  {
    hide Power2, WithPayload;
    SmallBits(index);
    if i < next {
      var e := b[i..next];
      assert e[0] == b[i] && e[1..] == b[i + 1..next];
      if b[i] < 0x80 {
        AddLast(value, b[i], scale);
      } else if index < 4 {
        LoopReadsTheGrammar(b, i + 1, end, index + 1, scale * 0x80, WithPayload(value, b[i], scale), next);
        var m := LebValue(32 - 7 * (index + 1), e[1..]);
        if m.Some? {
          AddMore(value, b[i], scale, m.value);
        }
      }
    }
  }

  /** The loop accepts exactly the u32 forms of section 5.2.2, and gives their value. */
  lemma U32ReadsTheGrammar(b: seq<byte>, i: nat, end: nat, value: nat, next: nat)
    requires i <= end <= |b|
    ensures U32(b, i, end) == Some(Read(value, next)) <==> i <= next <= end && LebValue(32, b[i..next]) == Some(value)
  {
    if i <= next <= end {
      LoopReadsTheGrammar(b, i, end, 0, 1, 0, next);
    }
  }

  lemma U32IsFound(b: seq<byte>, i: nat, end: nat, e: seq<byte>)
    requires LebValue(32, e).Some? && Reads(b, i, e) && i + |e| <= end <= |b|
    ensures U32(b, i, end) == Some(Read(LebValue(32, e).value, i + |e|))
  {
    U32ReadsTheGrammar(b, i, end, LebValue(32, e).value, i + |e|);
  }

  lemma ScannedU32(b: seq<byte>, i: nat, end: nat) returns (e: seq<byte>)
    requires i <= end <= |b| && U32(b, i, end).Some?
    ensures LebValue(32, e) == Some(U32(b, i, end).value.value) && Reads(b, i, e) && U32(b, i, end).value.next == i + |e|
  {
    var r := U32(b, i, end).value;
    e := b[i..r.next];
    U32ReadsTheGrammar(b, i, end, r.value, r.next);
  }
}
