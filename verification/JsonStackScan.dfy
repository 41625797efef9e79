/** The stack scanner of node/compat-host/src/protocol.ts. */
module JsonStackScan {
  import opened Wrappers
  import opened JsonText
  import opened Slices

  datatype ScanError = BadKey | BadKeyText | UnterminatedString | Unbalanced | UnterminatedValue | NotAnObject | BadObject | Duplicate

  // ----- what the loops compute

  /** The loop of `stringEnd` from inside the string. */
  function StringFrom(s: string, i: nat): (r: Result<nat, ScanError>)
    ensures r.Ok? ==> i < r.value <= |s|
    decreases |s| - i
  {
    if i >= |s| then Err(UnterminatedString)
    else if s[i] == '\\' then StringFrom(s, i + 2)
    else if s[i] == '"' then Ok(i + 1)
    else StringFrom(s, i + 1)
  }

  function StringEnd(s: string, i: nat): (r: Result<nat, ScanError>)
    ensures r.Ok? ==> i + 1 < r.value <= |s|
  {
    if i >= |s| || s[i] != '"' then Err(BadKey) else StringFrom(s, i + 1)
  }

  /** The loop of `valueEnd` over an object or array; `closes` are the brackets still open. */
  function Nested(s: string, i: nat, closes: string): (r: Result<nat, ScanError>)
    ensures r.Ok? ==> i < r.value <= |s|
    decreases |s| - i
  {
    if i >= |s| then Err(UnterminatedValue)
    else if s[i] == '"' then
      match StringEnd(s, i)
      case Err(e) => Err(e)
      case Ok(end) => Nested(s, end, closes)
    else if s[i] == '{' then Nested(s, i + 1, closes + "}")
    else if s[i] == '[' then Nested(s, i + 1, closes + "]")
    else if s[i] == '}' || s[i] == ']' then
      if closes == [] || closes[|closes| - 1] != s[i] then Err(Unbalanced)
      else if |closes| == 1 then Ok(i + 1)
      else Nested(s, i + 1, closes[..|closes| - 1])
    else Nested(s, i + 1, closes)
  }

  function ScalarEnd(s: string, i: nat): (end: nat)
    ensures i <= end && (i <= |s| ==> end <= |s|)
    decreases |s| - i
  {
    if Delimited(s, i) then i else ScalarEnd(s, i + 1)
  }

  function ValueEnd(s: string, i: nat): (r: Result<nat, ScanError>)
    requires i <= |s|
    ensures r.Ok? ==> i <= r.value <= |s|
  {
    var start := SkipSpace(s, i);
    if start < |s| && s[start] == '"' then StringEnd(s, start)
    else if start < |s| && (s[start] == '{' || s[start] == '[') then Nested(s, start, "")
    else Ok(ScalarEnd(s, start))
  }

  // ----- the scanner

  method ScanString(s: string, i: nat) returns (r: Result<nat, ScanError>)
    ensures r == StringEnd(s, i)
  {
    if i >= |s| || s[i] != '"' {
      return Err(BadKey);
    }
    var index := i + 1;
    while index < |s|
      invariant StringFrom(s, index) == StringFrom(s, i + 1)
    {
      if s[index] == '\\' {
        index := index + 1;
      } else if s[index] == '"' {
        return Ok(index + 1);
      }
      index := index + 1;
    }
    r := Err(UnterminatedString);
  }

  method ScanNested(s: string, start: nat) returns (r: Result<nat, ScanError>)
    ensures r == Nested(s, start, "")
  {
    var index, closes := start, "";
    while index < |s|
      invariant Nested(s, index, closes) == Nested(s, start, "")
    {
      var c := s[index];
      if c == '"' {
        var end := ScanString(s, index);
        if end.Err? {
          return end;
        }
        index := end.value - 1;
      } else if c == '{' {
        closes := closes + "}";
      } else if c == '[' {
        closes := closes + "]";
      } else if c == '}' || c == ']' {
        if closes == [] || closes[|closes| - 1] != c {
          return Err(Unbalanced);
        }
        closes := closes[..|closes| - 1];
        if closes == [] {
          return Ok(index + 1);
        }
      }
      index := index + 1;
    }
    r := Err(UnterminatedValue);
  }

  method ScanValue(s: string, i: nat) returns (r: Result<nat, ScanError>)
    requires i <= |s|
    ensures r == ValueEnd(s, i)
  {
    var index := Whitespace(s, i);
    if index < |s| && s[index] == '"' {
      r := ScanString(s, index);
      return;
    }
    if index < |s| && (s[index] == '{' || s[index] == '[') {
      r := ScanNested(s, index);
      return;
    }
    ghost var start := index;
    while !Delimited(s, index)
      invariant start <= index <= |s| && ScalarEnd(s, index) == ScalarEnd(s, start)
      decreases |s| - index
    {
      index := index + 1;
    }
    r := Ok(index);
  }

  // ----- the scanner finds the end of every well-formed value

  lemma {:induction false} PiecesArePassed(s: string, i: nat, ps: seq<Piece>)
    requires GoodPieces(ps) && Reads(s, i, PiecesText(ps))
    ensures StringFrom(s, i) == StringFrom(s, i + |PiecesText(ps)|)
    decreases |ps|
  {
    hide Reads, StringFrom, PieceText;
    if ps != [] {
      ReadsSplit(s, i, PieceText(ps[0]), PiecesText(ps[1..]));
      PieceIsPassed(s, i, ps[0]);
      PiecesArePassed(s, i + |PieceText(ps[0])|, ps[1..]);
    }
  }

  lemma PieceIsPassed(s: string, i: nat, p: Piece)
    requires GoodPiece(p) && Reads(s, i, PieceText(p))
    ensures StringFrom(s, i) == StringFrom(s, i + |PieceText(p)|)
  {
    ReadsAt(s, i, PieceText(p), 0);
    if p.Unicode? {
      HexIsPassed(s, i + 2, p.hex, 0);
      ReadsSplit(s, i, "\\u", p.hex);
    }
  }

  lemma {:induction false} HexIsPassed(s: string, i: nat, hex: string, k: nat)
    requires i >= 2 && Reads(s, i - 2, "\\u" + hex) && k <= |hex| && forall j :: 0 <= j < |hex| ==> IsHex(hex[j])
    ensures StringFrom(s, i + k) == StringFrom(s, i + |hex|)
    decreases |hex| - k
  {
    if k < |hex| {
      ReadsAt(s, i - 2, "\\u" + hex, k + 2);
      assert IsHex(hex[k]);
      HexIsPassed(s, i, hex, k + 1);
    }
  }

  lemma StringCloses(s: string, i: nat)
    requires Reads(s, i, "\"")
    ensures StringFrom(s, i) == Ok(i + 1)
  {
    ReadsChar(s, i, '"');
  }

  lemma QuotedIsFound(s: string, i: nat, ps: seq<Piece>)
    requires GoodPieces(ps) && Reads(s, i, Quoted(ps))
    ensures StringEnd(s, i) == Ok(i + |Quoted(ps)|) && i < |s| && s[i] == '"'
  {
    QuotedParts(s, i, ps);
    hide Reads, PiecesText, Quoted, StringFrom, GoodPieces;
    ReadsChar(s, i, '"');
    PiecesArePassed(s, i + 1, ps);
    StringCloses(s, i + 1 + |PiecesText(ps)|);
  }

  /** Text the nested scan walks over one character at a time. */
  predicate Inert(t: string) {
    forall k :: 0 <= k < |t| ==> t[k] !in "\"{}[]"
  }

  lemma {:induction false} NestedSkips(s: string, i: nat, t: string, closes: string)
    requires Inert(t) && Reads(s, i, t)
    ensures Nested(s, i, closes) == Nested(s, i + |t|, closes)
    decreases |t|
  {
    if t != [] {
      ReadsAt(s, i, t, 0);
      assert t[0] !in "\"{}[]";
      assert [t[0]] + t[1..] == t;
      ReadsSplit(s, i, [t[0]], t[1..]);
      NestedSkips(s, i + 1, t[1..], closes);
    }
  }

  /** The text of a number holds only digits, signs, a point and an exponent letter. */
  predicate NumberChars(t: string) {
    forall k :: 0 <= k < |t| ==> IsDigit(t[k]) || t[k] in "+-.eE"
  }

  lemma NumberTextChars(n: Number)
    requires GoodNumber(n)
    ensures NumberChars(NumberText(n)) && NumberText(n) != []
  {
    assert NumberChars(FractionText(n.fraction)) && NumberChars(ExponentText(n.exponent));
    var tail := FractionText(n.fraction) + ExponentText(n.exponent);
    assert NumberChars(tail);
    assert NumberChars(n.whole + tail);
  }

  lemma NestedString(s: string, i: nat, ps: seq<Piece>, closes: string)
    requires GoodPieces(ps) && Reads(s, i, Quoted(ps))
    ensures Nested(s, i, closes) == Nested(s, i + |Quoted(ps)|, closes)
  {
    QuotedIsFound(s, i, ps);
  }

  lemma NestedNumber(s: string, i: nat, n: Number, closes: string)
    requires GoodNumber(n) && Reads(s, i, NumberText(n))
    ensures Nested(s, i, closes) == Nested(s, i + |NumberText(n)|, closes)
  {
    hide Nested, Reads, NumberText;
    NumberTextChars(n);
    NestedSkips(s, i, NumberText(n), closes);
  }

  /** A nested value leaves the open brackets as they were. */
  lemma {:induction false} NestedValue(s: string, i: nat, v: Json, closes: string)
    requires Good(v) && Reads(s, i, Text(v)) && closes != []
    ensures Nested(s, i, closes) == Nested(s, i + |Text(v)|, closes)
    decreases v, 1
  {
    hide Nested, Reads, NumberText, Quoted;
    match v
    case Str(ps) => NestedString(s, i, ps, closes);
    case Num(n) => NestedNumber(s, i, n, closes);
    case Word(w) => NestedSkips(s, i, w, closes);
    case Arr(_, _) => NestedBody(s, i, v, closes);
    case Obj(_, _) => NestedBody(s, i, v, closes);
  }

  lemma NestedOpens(s: string, i: nat, list: bool, closes: string)
    requires Reads(s, i, if list then "[" else "{")
    ensures Nested(s, i, closes) == Nested(s, i + 1, closes + if list then "]" else "}")
  {
    ReadsChar(s, i, if list then '[' else '{');
  }

  lemma NestedCloses(s: string, i: nat, list: bool, closes: string)
    requires Reads(s, i, if list then "]" else "}")
    ensures Nested(s, i, closes + if list then "]" else "}") == if closes == [] then Ok(i + 1) else Nested(s, i + 1, closes)
  {
    var close := if list then "]" else "}";
    ReadsChar(s, i, close[0]);
    assert (closes + close)[..|closes|] == closes;
  }

  /** From an opening bracket to behind its closing one. */
  lemma {:induction false} NestedBody(s: string, i: nat, v: Json, closes: string)
    requires Good(v) && (v.Arr? || v.Obj?) && Reads(s, i, Text(v))
    ensures Nested(s, i, closes) == if closes == [] then Ok(i + |Text(v)|) else Nested(s, i + |Text(v)|, closes)
    decreases v, 0
  {
    hide Nested, Reads, Text, ItemsText, MembersText;
    var stack := closes + if v.Arr? then "]" else "}";
    BracketParts(s, i, v);
    NestedOpens(s, i, v.Arr?, closes);
    if v.Arr? && v.items.Item? {
      NestedItems(s, i + 1, v.items, stack);
    } else if v.Obj? && v.members.Member? {
      NestedMembers(s, i + 1, v.members, stack);
    } else {
      NestedSkips(s, i + 1, v.blank, stack);
    }
    NestedCloses(s, i + 1 + |Inner(v)|, v.Arr?, closes);
  }

  lemma {:induction false} NestedItems(s: string, i: nat, items: Items, closes: string)
    requires items.Item? && GoodItems(items) && Reads(s, i, ItemsText(items)) && closes != []
    ensures Nested(s, i, closes) == Nested(s, i + |ItemsText(items)|, closes)
    decreases items
  {
    hide Nested, Reads, Text, ItemsText;
    ItemsParts(s, i, items);
    var i1 := i + |items.before|;
    var i2 := i1 + |Text(items.value)|;
    var i3 := i2 + |items.after|;
    NestedSkips(s, i, items.before, closes);
    NestedValue(s, i1, items.value, closes);
    NestedSkips(s, i2, items.after, closes);
    if items.rest.Item? {
      ItemsTailParts(s, i3, items.rest);
      NestedSkips(s, i3, ",", closes);
      NestedItems(s, i3 + 1, items.rest, closes);
    }
  }

  lemma ColonIsInert(ms: Members)
    requires ms.Member? && GoodMembers(ms)
    ensures Inert(ColonText(ms))
  {
  }

  /** The key of a member and the colon behind it. */
  lemma NestedKey(s: string, i: nat, ms: Members, closes: string)
    requires ms.Member? && GoodMembers(ms) && Reads(s, i, KeyText(ms))
    ensures Nested(s, i, closes) == Nested(s, i + |KeyText(ms)|, closes)
  {
    ColonIsInert(ms);
    KeyParts(s, i, ms);
    hide Nested, Reads, KeyText, Quoted, ColonText;
    NestedSkips(s, i, ms.before, closes);
    NestedString(s, i + |ms.before|, ms.key, closes);
    hide Inert;
    NestedSkips(s, i + |ms.before| + |Quoted(ms.key)|, ColonText(ms), closes);
  }

  lemma {:induction false} NestedMembers(s: string, i: nat, ms: Members, closes: string)
    requires ms.Member? && GoodMembers(ms) && Reads(s, i, MembersText(ms)) && closes != []
    ensures Nested(s, i, closes) == Nested(s, i + |MembersText(ms)|, closes)
    decreases ms
  {
    hide Nested, Reads, Text, MembersText, KeyText;
    MembersParts(s, i, ms);
    NestedKey(s, i, ms, closes);
    var i3 := i + |KeyText(ms)|;
    var i4 := i3 + |Text(ms.value)|;
    var i5 := i4 + |ms.after|;
    NestedValue(s, i3, ms.value, closes);
    NestedSkips(s, i4, ms.after, closes);
    if ms.rest.Member? {
      MembersTailParts(s, i5, ms.rest);
      NestedSkips(s, i5, ",", closes);
      NestedMembers(s, i5 + 1, ms.rest, closes);
    }
  }

  lemma {:induction false} ScalarIsFound(s: string, i: nat, t: string)
    requires Reads(s, i, t) && Delimited(s, i + |t|)
    requires forall k :: 0 <= k < |t| ==> !IsSpace(t[k]) && t[k] !in ",}]"
    ensures ScalarEnd(s, i) == i + |t|
    decreases |t|
  {
    if t != [] {
      ReadsAt(s, i, t, 0);
      assert [t[0]] + t[1..] == t;
      ReadsSplit(s, i, [t[0]], t[1..]);
      assert t[0] !in ",}]";
      ScalarIsFound(s, i + 1, t[1..]);
    }
  }

  lemma NumberIsFound(s: string, i: nat, n: Number)
    requires GoodNumber(n) && Reads(s, i, NumberText(n)) && Delimited(s, i + |NumberText(n)|)
    ensures ScalarEnd(s, i) == i + |NumberText(n)|
  {
    hide Reads, Delimited, NumberText;
    NumberTextChars(n);
    ScalarIsFound(s, i, NumberText(n));
  }

  lemma ValueIsFound(s: string, i: nat, v: Json)
    requires Good(v) && Reads(s, i, Text(v)) && Delimited(s, i + |Text(v)|)
    ensures i < |s| && !IsSpace(s[i]) && ValueEnd(s, i) == Ok(i + |Text(v)|)
  {
    FirstChar(v);
    ReadsAt(s, i, Text(v), 0);
    hide Reads, Delimited, Nested, NumberText, Quoted, ItemsText, MembersText, ScalarEnd;
    match v
    case Str(ps) => QuotedIsFound(s, i, ps);
    case Num(n) => NumberIsFound(s, i, n);
    case Word(w) => ScalarIsFound(s, i, w);
    case Arr(_, _) => NestedBody(s, i, v, "");
    case Obj(_, _) => NestedBody(s, i, v, "");
  }

  /** `valueEnd` stops exactly behind a well-formed value, wherever it stands in the source. */
  lemma ValueEndIsExact(s: string, i: nat, ws: string, v: Json)
    requires Blank(ws) && Good(v) && Reads(s, i, ws + Text(v))
    requires Delimited(s, i + |ws| + |Text(v)|)
    ensures ValueEnd(s, i) == Ok(i + |ws| + |Text(v)|)
  {
    hide Reads, Delimited, Text;
    ReadsSplit(s, i, ws, Text(v));
    SkipsBlank(s, i, ws);
    ValueIsFound(s, i + |ws|, v);
  }

  /** The first character tells the kinds of value apart. */
  lemma FirstChar(v: Json)
    requires Good(v)
    ensures Text(v) != [] && !IsSpace(Text(v)[0])
    ensures Text(v)[0] == '"' <==> v.Str?
    ensures Text(v)[0] == '{' <==> v.Obj?
    ensures Text(v)[0] == '[' <==> v.Arr?
  {
    if v.Num? { NumberTextChars(v.number); }
  }
}
