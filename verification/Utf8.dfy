/** Names in a WASM module are UTF-8: the test that decides it accepts exactly the encodings of RFC 3629, section 3. */
module Utf8Encoding {
  import opened Slices
  import opened WasmModule

  /** A Unicode scalar value: any code point but the surrogates. */
  predicate Scalar(c: nat) {
    c < 0xd800 || 0xe000 <= c <= 0x10ffff
  }

  /** One to four bytes, the bits of the scalar value spread over them from the top. */
  function EncodedScalar(c: nat): (bytes: seq<byte>)
    requires Scalar(c)
    ensures 1 <= |bytes| <= 4
  {
    if c < 0x80 then [c as byte]
    else if c < 0x800 then [(0xc0 + c / 64) as byte, (0x80 + c % 64) as byte]
    else if c < 0x10000 then [(0xe0 + c / 4096) as byte, (0x80 + c / 64 % 64) as byte, (0x80 + c % 64) as byte]
    else
      [(0xf0 + c / 262144) as byte, (0x80 + c / 4096 % 64) as byte, (0x80 + c / 64 % 64) as byte, (0x80 + c % 64) as byte]
  }

  predicate Scalars(cs: seq<nat>) {
    forall c <- cs :: Scalar(c)
  }

  function EncodedText(cs: seq<nat>): seq<byte>
    requires Scalars(cs)
  {
    if cs == [] then [] else EncodedScalar(cs[0]) + EncodedText(cs[1..])
  }

  /** In front of any bytes, an encoded scalar value neither makes nor breaks well-formedness. */
  lemma ScalarIsWellFormed(c: nat, rest: seq<byte>)
    requires Scalar(c)
    ensures Utf8(EncodedScalar(c) + rest) <==> Utf8(rest)
  {
    var s := EncodedScalar(c) + rest;
    assert s[|EncodedScalar(c)|..] == rest;
  }

  /** The scalar value a well-formed text begins with. */
  function FirstScalar(s: seq<byte>): nat
    requires s != [] && Utf8(s)
  {
    if s[0] < 0x80 then s[0] as nat
    else if s[0] < 0xe0 then (s[0] as nat - 0xc0) * 64 + (s[1] as nat - 0x80)
    else if s[0] < 0xf0 then (s[0] as nat - 0xe0) * 4096 + (s[1] as nat - 0x80) * 64 + (s[2] as nat - 0x80)
    else
      (s[0] as nat - 0xf0) * 262144 + (s[1] as nat - 0x80) * 4096 + (s[2] as nat - 0x80) * 64 + (s[3] as nat - 0x80)
  }

  lemma Digits(a: nat, x: nat, y: nat, z: nat)
    requires x < 64 && y < 64 && z < 64
    ensures (x * 64 + y) / 64 == x && (x * 64 + y) % 64 == y
    ensures var c := a * 4096 + y * 64 + z; c / 4096 == a && c / 64 == a * 64 + y && c / 64 % 64 == y && c % 64 == z
  {
  }

  lemma MoreDigits(a: nat, x: nat, y: nat, z: nat)
    requires x < 64 && y < 64 && z < 64
    ensures var c := a * 262144 + x * 4096 + y * 64 + z;
      c / 262144 == a && c / 4096 == a * 64 + x && c / 4096 % 64 == x && c / 64 % 64 == y && c % 64 == z
  {
    var c := a * 262144 + x * 4096 + y * 64 + z;
    Digits(a * 64 + x, x, y, z);
    assert c == (a * 64 + x) * 4096 + y * 64 + z;
  }

  lemma TwoBytes(s: seq<byte>)
    requires s != [] && Utf8(s) && 0x80 <= s[0] < 0xe0
    ensures Scalar(FirstScalar(s)) && EncodedScalar(FirstScalar(s)) == s[..2] && Utf8(s[2..])
  {
    assert Continues(s, 1);
    Digits(0, 0, s[0] as nat - 0xc0, s[1] as nat - 0x80);
  }

  lemma ThreeBytes(s: seq<byte>)
    requires s != [] && Utf8(s) && 0xe0 <= s[0] < 0xf0
    ensures Scalar(FirstScalar(s)) && EncodedScalar(FirstScalar(s)) == s[..3] && Utf8(s[3..])
  {
    assert Continues(s, 1) && Continues(s, 2);
    Digits(s[0] as nat - 0xe0, 0, s[1] as nat - 0x80, s[2] as nat - 0x80);
    ThreeBytesFit(s[0] as nat - 0xe0, s[1] as nat - 0x80, s[2] as nat - 0x80);
    hide Utf8;
  }

  lemma ThreeBytesFit(a: nat, x: nat, y: nat)
    requires a < 16 && x < 64 && y < 64 && (a == 0 ==> x >= 0x20) && (a == 0xd ==> x < 0x20)
    ensures var c := a * 4096 + x * 64 + y; 0x800 <= c < 0x10000 && (c < 0xd800 || 0xe000 <= c)
  {
  }

  lemma FourBytesFit(a: nat, x: nat, y: nat, z: nat)
    requires a < 5 && x < 64 && y < 64 && z < 64 && (a == 0 ==> x >= 0x10) && (a == 4 ==> x < 0x10)
    ensures 0x10000 <= a * 262144 + x * 4096 + y * 64 + z <= 0x10ffff
  {
  }

  lemma FourBytes(s: seq<byte>)
    requires s != [] && Utf8(s) && 0xf0 <= s[0]
    ensures Scalar(FirstScalar(s)) && EncodedScalar(FirstScalar(s)) == s[..4] && Utf8(s[4..])
  {
    assert Continues(s, 1) && Continues(s, 2) && Continues(s, 3);
    MoreDigits(s[0] as nat - 0xf0, s[1] as nat - 0x80, s[2] as nat - 0x80, s[3] as nat - 0x80);
    FourBytesFit(s[0] as nat - 0xf0, s[1] as nat - 0x80, s[2] as nat - 0x80, s[3] as nat - 0x80);
    hide Utf8;
  }

  lemma FirstScalarIsEncoded(s: seq<byte>)
    requires s != [] && Utf8(s)
    ensures Scalar(FirstScalar(s))
    ensures EncodedScalar(FirstScalar(s)) <= s && Utf8(s[|EncodedScalar(FirstScalar(s))|..])
  {
    if s[0] >= 0xf0 {
      FourBytes(s);
    } else if s[0] >= 0xe0 {
      ThreeBytes(s);
    } else if s[0] >= 0x80 {
      TwoBytes(s);
    }
    hide FirstScalar, EncodedScalar, Scalar;
    if s[0] < 0x80 { OneByte(s); }
  }

  lemma OneByte(s: seq<byte>)
    requires s != [] && Utf8(s) && s[0] < 0x80
    ensures Scalar(FirstScalar(s)) && EncodedScalar(FirstScalar(s)) == s[..1] && Utf8(s[1..])
  {
  }

  lemma {:induction false} WellFormedIsEncoded(s: seq<byte>) returns (cs: seq<nat>)
    requires Utf8(s)
    ensures Scalars(cs) && EncodedText(cs) == s
    decreases |s|
  {
    if s == [] {
      cs := [];
    } else {
      FirstScalarIsEncoded(s);
      hide EncodedScalar, FirstScalar, Utf8, Scalar;
      var c := FirstScalar(s);
      var n := |EncodedScalar(c)|;
      var rest := WellFormedIsEncoded(s[n..]);
      cs := [c] + rest;
      assert cs[1..] == rest;
      assert s == s[..n] + s[n..];
    }
  }

  lemma {:induction false} EncodedIsWellFormed(cs: seq<nat>)
    requires Scalars(cs)
    ensures Utf8(EncodedText(cs))
  {
    if cs != [] {
      EncodedIsWellFormed(cs[1..]);
      ScalarIsWellFormed(cs[0], EncodedText(cs[1..]));
    }
  }

  /** The test accepts exactly the texts that some scalar values are encoded as. */
  lemma Utf8IsExact(s: seq<byte>)
    ensures Utf8(s) <==> exists cs: seq<nat> :: Scalars(cs) && EncodedText(cs) == s
  {
    if Utf8(s) {
      var cs := WellFormedIsEncoded(s);
      assert Scalars(cs) && EncodedText(cs) == s;
    }
    forall cs: seq<nat> | Scalars(cs) && EncodedText(cs) == s ensures Utf8(s) {
      EncodedIsWellFormed(cs);
    }
  }
}
