/** Texts and byte strings as they stand inside a larger source. */
module Slices {
  type byte = x: int | 0 <= x < 0x100

  /** The source reads `t` at position `i`. */
  ghost predicate Reads<T>(s: seq<T>, i: nat, t: seq<T>) {
    i + |t| <= |s| && s[i..i + |t|] == t
  }

  lemma ReadsSplit<T>(s: seq<T>, i: nat, a: seq<T>, b: seq<T>)
    ensures Reads(s, i, a + b) <==> Reads(s, i, a) && Reads(s, i + |a|, b)
  {
    if Reads(s, i, a + b) {
      assert a == (a + b)[..|a|] == s[i..i + |a + b|][..|a|] == s[i..i + |a|];
      assert b == (a + b)[|a|..] == s[i..i + |a + b|][|a|..] == s[i + |a|..i + |a| + |b|];
    }
    if Reads(s, i, a) && Reads(s, i + |a|, b) {
      assert s[i..i + |a + b|] == s[i..i + |a|] + s[i + |a|..i + |a| + |b|];
    }
  }

  lemma ReadsAt<T>(s: seq<T>, i: nat, t: seq<T>, k: nat)
    requires Reads(s, i, t) && k < |t|
    ensures i + k < |s| && s[i + k] == t[k]
  {
    assert s[i..i + |t|][k] == t[k];
  }

  lemma ReadsChar<T>(s: seq<T>, i: nat, c: T)
    requires Reads(s, i, [c])
    ensures i < |s| && s[i] == c
  {
    ReadsAt(s, i, [c], 0);
  }

  lemma ReadsOne<T>(s: seq<T>, i: nat)
    requires i < |s|
    ensures Reads(s, i, [s[i]])
  {
  }

  lemma ReadsNothing<T>(s: seq<T>, i: nat)
    requires i <= |s|
    ensures Reads(s, i, [])
  {
  }

  lemma ReadsWhole<T>(s: seq<T>, t: seq<T>)
    requires Reads(s, 0, t) && |t| == |s|
    ensures s == t
  {
  }
}
