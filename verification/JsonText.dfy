/** JSON texts as section 2 of RFC 8259 writes them: syntax trees that keep their white space. */
module JsonText {
  import opened Slices
  import opened Wrappers

  datatype Piece = Plain(c: char) | Escape(c: char) | Unicode(hex: string)

  datatype Exponent = Exponent(letter: char, sign: string, digits: string)
  datatype Number = Number(minus: bool, whole: string, fraction: Option<string>, exponent: Option<Exponent>)

  datatype Json =
    | Str(pieces: seq<Piece>)
    | Num(number: Number)
    | Word(name: string)
    | Arr(blank: string, items: Items)
    | Obj(blank: string, members: Members)

  datatype Items = NoItems | Item(before: string, value: Json, after: string, rest: Items)

  datatype Members =
    | NoMembers
    | Member(before: string, key: seq<Piece>, beforeColon: string, afterColon: string, value: Json, after: string, rest: Members)

  // ----- well-formedness

  predicate IsSpace(c: char) {
    c == '\t' || c == '\n' || c == '\r' || c == ' '
  }

  predicate IsDigit(c: char) {
    '0' <= c <= '9'
  }

  predicate IsSign(c: char) {
    c == '+' || c == '-'
  }

  predicate IsExponentLetter(c: char) {
    c == 'e' || c == 'E'
  }

  predicate IsHex(c: char) {
    IsDigit(c) || 'a' <= c <= 'f' || 'A' <= c <= 'F'
  }

  predicate Blank(ws: string) {
    forall i :: 0 <= i < |ws| ==> IsSpace(ws[i])
  }

  predicate Digits(ds: string) {
    ds != [] && forall i :: 0 <= i < |ds| ==> IsDigit(ds[i])
  }

  predicate IsEscape(c: char) {
    c in "\"\\/bfnrt"
  }

  predicate GoodPiece(p: Piece) {
    match p
    case Plain(c) => ' ' <= c && c != '"' && c != '\\'
    case Escape(c) => IsEscape(c)
    case Unicode(h) => |h| == 4 && forall i :: 0 <= i < 4 ==> IsHex(h[i])
  }

  predicate GoodPieces(ps: seq<Piece>) {
    forall i :: 0 <= i < |ps| ==> GoodPiece(ps[i])
  }

  predicate GoodExponent(e: Exponent) {
    IsExponentLetter(e.letter) && |e.sign| <= 1 && (|e.sign| == 1 ==> IsSign(e.sign[0])) && Digits(e.digits)
  }

  predicate GoodNumber(n: Number) {
    && Digits(n.whole) && (n.whole[0] == '0' ==> |n.whole| == 1)
    && (n.fraction.Some? ==> Digits(n.fraction.value))
    && (n.exponent.Some? ==> GoodExponent(n.exponent.value))
  }

  predicate Good(v: Json) {
    match v
    case Str(ps) => GoodPieces(ps)
    case Num(n) => GoodNumber(n)
    case Word(w) => w == "true" || w == "false" || w == "null"
    case Arr(blank, items) => Blank(blank) && GoodItems(items)
    case Obj(blank, members) => Blank(blank) && GoodMembers(members)
  }

  predicate GoodItems(items: Items) {
    items.Item? ==> Blank(items.before) && Good(items.value) && Blank(items.after) && GoodItems(items.rest)
  }

  predicate GoodMembers(ms: Members) {
    ms.Member? ==>
      && Blank(ms.before) && GoodPieces(ms.key) && Blank(ms.beforeColon) && Blank(ms.afterColon)
      && Good(ms.value) && Blank(ms.after) && GoodMembers(ms.rest)
  }

  // ----- printing

  function PieceText(p: Piece): string {
    match p
    case Plain(c) => [c]
    case Escape(c) => ['\\', c]
    case Unicode(h) => "\\u" + h
  }

  function PiecesText(ps: seq<Piece>): string {
    if ps == [] then "" else PieceText(ps[0]) + PiecesText(ps[1..])
  }

  function Quoted(ps: seq<Piece>): string {
    "\"" + (PiecesText(ps) + "\"")
  }

  function Sign(minus: bool): string {
    if minus then "-" else ""
  }

  function FractionText(f: Option<string>): string {
    if f.None? then "" else "." + f.value
  }

  function ExponentText(e: Option<Exponent>): string {
    if e.None? then "" else [e.value.letter] + (e.value.sign + e.value.digits)
  }

  function NumberText(n: Number): string {
    Sign(n.minus) + (n.whole + (FractionText(n.fraction) + ExponentText(n.exponent)))
  }

  function Text(v: Json): string
    decreases v
  {
    match v
    case Str(ps) => Quoted(ps)
    case Num(n) => NumberText(n)
    case Word(w) => w
    case Arr(blank, items) => "[" + ((if items.NoItems? then blank else ItemsText(items)) + "]")
    case Obj(blank, members) => "{" + ((if members.NoMembers? then blank else MembersText(members)) + "}")
  }

  function ItemsText(items: Items): string
    requires items.Item?
    decreases items, 0
  {
    items.before + (Text(items.value) + (items.after + ItemsTail(items.rest)))
  }

  function ItemsTail(items: Items): string
    decreases items, 1
  {
    if items.NoItems? then "" else "," + ItemsText(items)
  }

  /** Before, at and behind the colon of the first member. */
  function ColonText(ms: Members): string
    requires ms.Member?
  {
    ms.beforeColon + (":" + ms.afterColon)
  }

  /** All of the first member in front of its value. */
  function KeyText(ms: Members): string
    requires ms.Member?
  {
    ms.before + (Quoted(ms.key) + ColonText(ms))
  }

  function MembersText(ms: Members): string
    requires ms.Member?
    decreases ms, 0
  {
    KeyText(ms) + (Text(ms.value) + (ms.after + MembersTail(ms.rest)))
  }

  function MembersTail(ms: Members): string
    decreases ms, 1
  {
    if ms.NoMembers? then "" else "," + MembersText(ms)
  }

  // ----- where the parts of a text stand in the source

  lemma ItemsParts(s: string, i: nat, items: Items)
    requires items.Item? && Reads(s, i, ItemsText(items))
    ensures var i1 := i + |items.before|; var i2 := i1 + |Text(items.value)|; var i3 := i2 + |items.after|;
            && Reads(s, i, items.before) && Reads(s, i1, Text(items.value)) && Reads(s, i2, items.after)
            && Reads(s, i3, ItemsTail(items.rest)) && i + |ItemsText(items)| == i3 + |ItemsTail(items.rest)|
  {
    hide Reads, Text, ItemsTail;
    var value, tail := Text(items.value), ItemsTail(items.rest);
    ReadsSplit(s, i, items.before, value + (items.after + tail));
    ReadsSplit(s, i + |items.before|, value, items.after + tail);
    ReadsSplit(s, i + |items.before| + |value|, items.after, tail);
  }

  lemma ItemsTailParts(s: string, i: nat, items: Items)
    requires items.Item? && Reads(s, i, ItemsTail(items))
    ensures Reads(s, i, ",") && Reads(s, i + 1, ItemsText(items)) && |ItemsTail(items)| == 1 + |ItemsText(items)|
  {
    hide Reads, ItemsText;
    ReadsSplit(s, i, ",", ItemsText(items));
  }

  lemma MembersParts(s: string, i: nat, ms: Members)
    requires ms.Member? && Reads(s, i, MembersText(ms))
    ensures var i3 := i + |KeyText(ms)|; var i4 := i3 + |Text(ms.value)|; var i5 := i4 + |ms.after|;
            && Reads(s, i, KeyText(ms)) && Reads(s, i3, Text(ms.value)) && Reads(s, i4, ms.after)
            && Reads(s, i5, MembersTail(ms.rest)) && i + |MembersText(ms)| == i5 + |MembersTail(ms.rest)|
  {
    hide Reads, Text, MembersTail, KeyText;
    var value, tail := Text(ms.value), MembersTail(ms.rest);
    ReadsSplit(s, i, KeyText(ms), value + (ms.after + tail));
    ReadsSplit(s, i + |KeyText(ms)|, value, ms.after + tail);
    ReadsSplit(s, i + |KeyText(ms)| + |value|, ms.after, tail);
  }

  lemma KeyParts(s: string, i: nat, ms: Members)
    requires ms.Member? && Reads(s, i, KeyText(ms))
    ensures var i1 := i + |ms.before|; var i2 := i1 + |Quoted(ms.key)|;
            && Reads(s, i, ms.before) && Reads(s, i1, Quoted(ms.key)) && Reads(s, i2, ColonText(ms))
            && i + |KeyText(ms)| == i2 + |ColonText(ms)|
  {
    hide Reads, Quoted, ColonText;
    ReadsSplit(s, i, ms.before, Quoted(ms.key) + ColonText(ms));
    ReadsSplit(s, i + |ms.before|, Quoted(ms.key), ColonText(ms));
  }

  lemma MembersTailParts(s: string, i: nat, ms: Members)
    requires ms.Member? && Reads(s, i, MembersTail(ms))
    ensures Reads(s, i, ",") && Reads(s, i + 1, MembersText(ms)) && |MembersTail(ms)| == 1 + |MembersText(ms)|
  {
    hide Reads, MembersText;
    ReadsSplit(s, i, ",", MembersText(ms));
  }

  /** What stands between the brackets of an array or object. */
  function Inner(v: Json): string
    requires v.Arr? || v.Obj?
  {
    if v.Arr? then (if v.items.NoItems? then v.blank else ItemsText(v.items))
    else (if v.members.NoMembers? then v.blank else MembersText(v.members))
  }

  lemma BracketParts(s: string, i: nat, v: Json)
    requires (v.Arr? || v.Obj?) && Reads(s, i, Text(v))
    ensures Reads(s, i, if v.Arr? then "[" else "{")
    ensures Reads(s, i + 1, Inner(v))
    ensures Reads(s, i + 1 + |Inner(v)|, if v.Arr? then "]" else "}")
    ensures |Text(v)| == |Inner(v)| + 2
  {
    var open, close := (if v.Arr? then "[" else "{"), (if v.Arr? then "]" else "}");
    assert Text(v) == open + (Inner(v) + close);
    hide Reads, Text, Inner;
    ReadsSplit(s, i, open, Inner(v) + close);
    ReadsSplit(s, i + 1, Inner(v), close);
  }

  lemma QuotedParts(s: string, i: nat, ps: seq<Piece>)
    requires Reads(s, i, Quoted(ps))
    ensures Reads(s, i, "\"") && Reads(s, i + 1, PiecesText(ps)) && Reads(s, i + 1 + |PiecesText(ps)|, "\"")
    ensures |Quoted(ps)| == |PiecesText(ps)| + 2
  {
    hide Reads, PiecesText;
    ReadsSplit(s, i, "\"", PiecesText(ps) + "\"");
    ReadsSplit(s, i + 1, PiecesText(ps), "\"");
  }

  /** The end of a scalar: nothing follows, or a character that cannot continue it. */
  predicate Delimited(s: string, i: nat) {
    i >= |s| || IsSpace(s[i]) || s[i] == ',' || s[i] == '}' || s[i] == ']'
  }

  // ----- skipping white space

  function SkipSpace(s: string, i: nat): (end: nat)
    ensures i <= end && (i <= |s| ==> end <= |s|)
    decreases |s| - i
  {
    if i < |s| && IsSpace(s[i]) then SkipSpace(s, i + 1) else i
  }

  method Whitespace(s: string, i: nat) returns (index: nat)
    ensures index == SkipSpace(s, i)
  {
    index := i;
    while index < |s| && IsSpace(s[index])
      invariant SkipSpace(s, index) == SkipSpace(s, i)
    {
      index := index + 1;
    }
  }

  lemma {:induction false} SkipsBlank(s: string, i: nat, ws: string)
    requires Blank(ws) && Reads(s, i, ws)
    ensures SkipSpace(s, i) == SkipSpace(s, i + |ws|)
    decreases |ws|
  {
    if ws != [] {
      ReadsAt(s, i, ws, 0);
      ReadsSplit(s, i, [ws[0]], ws[1..]);
      assert [ws[0]] + ws[1..] == ws;
      SkipsBlank(s, i + 1, ws[1..]);
    }
  }

  lemma SpaceStops(s: string, i: nat, ws: string)
    requires Blank(ws) && Reads(s, i, ws) && (i + |ws| < |s| ==> !IsSpace(s[i + |ws|]))
    ensures SkipSpace(s, i) == i + |ws|
  {
    SkipsBlank(s, i, ws);
  }

  // ----- what follows a value

  lemma ItemsTailStarts(s: string, i: nat, rest: Items)
    requires Reads(s, i, ItemsTail(rest)) && Reads(s, i + |ItemsTail(rest)|, "]")
    ensures i < |s| && s[i] == if rest.Item? then ',' else ']'
    ensures rest.NoItems? ==> ItemsTail(rest) == ""
  {
    if rest.Item? {
      ItemsTailParts(s, i, rest);
      ReadsChar(s, i, ',');
    } else {
      ReadsChar(s, i, ']');
    }
  }

  lemma MembersTailStarts(s: string, i: nat, rest: Members)
    requires Reads(s, i, MembersTail(rest)) && Reads(s, i + |MembersTail(rest)|, "}")
    ensures i < |s| && s[i] == if rest.Member? then ',' else '}'
    ensures rest.NoMembers? ==> MembersTail(rest) == ""
  {
    if rest.Member? {
      MembersTailParts(s, i, rest);
      ReadsChar(s, i, ',');
    } else {
      ReadsChar(s, i, '}');
    }
  }

  lemma ValueIsDelimited(s: string, i: nat, after: string)
    requires Blank(after) && Reads(s, i, after) && i + |after| < |s| && s[i + |after|] in ",}]"
    ensures Delimited(s, i)
  {
    if after != [] {
      ReadsAt(s, i, after, 0);
    }
  }

  /** The colon is found behind the key, and the value behind the colon. */
  lemma ColonIsFound(s: string, i: nat, ms: Members)
    requires ms.Member? && GoodMembers(ms) && Reads(s, i, ColonText(ms))
    requires i + |ColonText(ms)| < |s| && !IsSpace(s[i + |ColonText(ms)|])
    ensures var colon := SkipSpace(s, i);
            colon < |s| && s[colon] == ':' && SkipSpace(s, colon + 1) == i + |ColonText(ms)|
  {
    ReadsSplit(s, i, ms.beforeColon, ":" + ms.afterColon);
    ReadsSplit(s, i + |ms.beforeColon|, ":", ms.afterColon);
    hide Reads, ColonText, SkipSpace;
    ReadsChar(s, i + |ms.beforeColon|, ':');
    SpaceStops(s, i, ms.beforeColon);
    SpaceStops(s, i + |ms.beforeColon| + 1, ms.afterColon);
  }
}
