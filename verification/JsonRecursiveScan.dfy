/** The recursive scanner of examples/wasm-python/plugin.py. */
module JsonRecursiveScan {
  import opened Wrappers
  import opened JsonText
  import opened Slices
  import Stack = JsonStackScan

  datatype ScanError =
    | BadString | BadEscape | BadUnicodeEscape | Unterminated | BadNumber
    | MissingValue | BadKey | MissingColon | MissingComma | BadValue

  // ----- what the loops compute

  predicate HexRun(s: string, i: nat, n: nat) {
    i + n <= |s| && forall k :: i <= k < i + n ==> IsHex(s[k])
  }

  function StringFrom(s: string, i: nat): (r: Result<nat, ScanError>)
    ensures r.Ok? ==> i < r.value <= |s|
    decreases |s| - i
  {
    if i >= |s| then Err(Unterminated)
    else if s[i] == '"' then Ok(i + 1)
    else if s[i] < ' ' then Err(BadString)
    else if s[i] != '\\' then StringFrom(s, i + 1)
    else if i + 1 >= |s| || (!IsEscape(s[i + 1]) && s[i + 1] != 'u') then Err(BadEscape)
    else if s[i + 1] != 'u' then StringFrom(s, i + 2)
    else if !HexRun(s, i + 2, 4) then Err(BadUnicodeEscape)
    else StringFrom(s, i + 6)
  }

  function SkipDigits(s: string, i: nat): (end: nat)
    ensures i <= end && (i <= |s| ==> end <= |s|)
    ensures i < |s| && IsDigit(s[i]) ==> i < end
    decreases |s| - i
  {
    if i < |s| && IsDigit(s[i]) then SkipDigits(s, i + 1) else i
  }

  /** One digit or more. */
  function DigitsEnd(s: string, i: nat): (r: Result<nat, ScanError>)
    ensures r.Ok? ==> i < r.value <= |s|
  {
    if i < |s| && IsDigit(s[i]) then Ok(SkipDigits(s, i)) else Err(BadNumber)
  }

  function WholeEnd(s: string, i: nat): (r: Result<nat, ScanError>)
    ensures r.Ok? ==> i < r.value <= |s|
  {
    if i >= |s| then Err(BadNumber)
    else if s[i] == '0' then (if i + 1 < |s| && IsDigit(s[i + 1]) then Err(BadNumber) else Ok(i + 1))
    else DigitsEnd(s, i)
  }

  function FractionEnd(s: string, i: nat): (r: Result<nat, ScanError>)
    ensures r.Ok? && i <= |s| ==> i <= r.value <= |s|
  {
    if i < |s| && s[i] == '.' then DigitsEnd(s, i + 1) else Ok(i)
  }

  function ExponentEnd(s: string, i: nat): (r: Result<nat, ScanError>)
    ensures r.Ok? && i <= |s| ==> i <= r.value <= |s|
  {
    if i >= |s| || !IsExponentLetter(s[i]) then Ok(i)
    else if i + 1 < |s| && IsSign(s[i + 1]) then DigitsEnd(s, i + 2)
    else DigitsEnd(s, i + 1)
  }

  function NumberEnd(s: string, i: nat): (r: Result<nat, ScanError>)
    requires i < |s|
    ensures r.Ok? ==> i < r.value <= |s|
  {
    var whole := WholeEnd(s, if s[i] == '-' then i + 1 else i);
    if whole.Err? then whole
    else
      var fraction := FractionEnd(s, whole.value);
      if fraction.Err? then fraction else ExponentEnd(s, fraction.value)
  }

  predicate StartsWith(s: string, i: nat, word: string) {
    i + |word| <= |s| && s[i..i + |word|] == word
  }

  function WordEnd(s: string, i: nat): (r: Result<nat, ScanError>)
    requires i < |s|
    ensures r.Ok? ==> i < r.value <= |s|
  {
    if StartsWith(s, i, "true") then Ok(i + 4)
    else if StartsWith(s, i, "false") then Ok(i + 5)
    else if StartsWith(s, i, "null") then Ok(i + 4)
    else if s[i] == '-' || IsDigit(s[i]) then NumberEnd(s, i)
    else Err(BadValue)
  }

  function ValueEnd(s: string, i: nat): (r: Result<nat, ScanError>)
    requires i <= |s|
    ensures r.Ok? ==> i < r.value <= |s|
    decreases |s| - i, 1
  {
    var start := SkipSpace(s, i);
    if start >= |s| then Err(MissingValue)
    else if s[start] == '"' then StringFrom(s, start + 1)
    else if s[start] == '{' then
      var first := SkipSpace(s, start + 1);
      if first < |s| && s[first] == '}' then Ok(first + 1) else MembersEnd(s, first)
    else if s[start] == '[' then
      var first := SkipSpace(s, start + 1);
      if first < |s| && s[first] == ']' then Ok(first + 1) else ItemsEnd(s, first)
    else WordEnd(s, start)
  }

  /** The loop over members, from the quote of a key. */
  function MembersEnd(s: string, i: nat): (r: Result<nat, ScanError>)
    requires i <= |s|
    ensures r.Ok? ==> i < r.value <= |s|
    decreases |s| - i, 2
  {
    if i >= |s| || s[i] != '"' then Err(BadKey)
    else
      match StringFrom(s, i + 1)
      case Err(e) => Err(e)
      case Ok(keyEnd) =>
        var colon := SkipSpace(s, keyEnd);
        if colon >= |s| || s[colon] != ':' then Err(MissingColon)
        else
          match ValueEnd(s, colon + 1)
          case Err(e) => Err(e)
          case Ok(end) =>
            var next := SkipSpace(s, end);
            if next < |s| && s[next] == '}' then Ok(next + 1)
            else if next >= |s| || s[next] != ',' then Err(MissingComma)
            else MembersEnd(s, SkipSpace(s, next + 1))
  }

  /** The loop over array elements. */
  function ItemsEnd(s: string, i: nat): (r: Result<nat, ScanError>)
    requires i <= |s|
    ensures r.Ok? ==> i < r.value <= |s|
    decreases |s| - i, 2
  {
    match ValueEnd(s, i)
    case Err(e) => Err(e)
    case Ok(end) =>
      var next := SkipSpace(s, end);
      if next < |s| && s[next] == ']' then Ok(next + 1)
      else if next >= |s| || s[next] != ',' then Err(MissingComma)
      else ItemsEnd(s, SkipSpace(s, next + 1))
  }

  // ----- the scanner

  method ScanString(s: string, i: nat) returns (r: Result<nat, ScanError>)
    ensures r == StringFrom(s, i + 1)
  {
    var index := i + 1;
    while index < |s|
      invariant StringFrom(s, index) == StringFrom(s, i + 1)
    {
      var c := s[index];
      if c == '"' {
        return Ok(index + 1);
      }
      if c < ' ' {
        return Err(BadString);
      }
      if c == '\\' {
        ghost var escape := index;
        index := index + 1;
        if index >= |s| || s[index] !in "\"\\/bfnrtu" {
          return Err(BadEscape);
        }
        if s[index] == 'u' {
          for n := 0 to 4
            invariant index == escape + 1 + n && HexRun(s, escape + 2, n)
          {
            index := index + 1;
            if index >= |s| || !IsHex(s[index]) {
              return Err(BadUnicodeEscape);
            }
          }
        }
      }
      index := index + 1;
    }
    r := Err(Unterminated);
  }

  method ScanDigits(s: string, i: nat) returns (index: nat)
    ensures index == SkipDigits(s, i)
  {
    index := i;
    while index < |s| && IsDigit(s[index])
      invariant SkipDigits(s, index) == SkipDigits(s, i)
    {
      index := index + 1;
    }
  }

  method ScanNumber(s: string, i: nat) returns (r: Result<nat, ScanError>)
    requires i < |s|
    ensures r == NumberEnd(s, i)
  {
    hide SkipDigits;
    var index := i;
    if s[index] == '-' {
      index := index + 1;
      if index == |s| {
        return Err(BadNumber);
      }
    }
    if s[index] == '0' {
      index := index + 1;
      if index < |s| && IsDigit(s[index]) {
        return Err(BadNumber);
      }
    } else if '1' <= s[index] <= '9' {
      index := ScanDigits(s, index);
    } else {
      return Err(BadNumber);
    }
    if index < |s| && s[index] == '.' {
      index := index + 1;
      if index == |s| || !IsDigit(s[index]) {
        return Err(BadNumber);
      }
      index := ScanDigits(s, index);
    }
    if index < |s| && IsExponentLetter(s[index]) {
      index := index + 1;
      if index < |s| && IsSign(s[index]) {
        index := index + 1;
      }
      if index == |s| || !IsDigit(s[index]) {
        return Err(BadNumber);
      }
      index := ScanDigits(s, index);
    }
    r := Ok(index);
  }

  method ScanMembers(s: string, i: nat) returns (r: Result<nat, ScanError>)
    requires i <= |s|
    ensures r == MembersEnd(s, i)
    decreases |s| - i, 2
  {
    hide SkipSpace, StringFrom, ValueEnd;
    var index := i;
    while true
      invariant i <= index <= |s| && MembersEnd(s, index) == MembersEnd(s, i)
      decreases |s| - index
    {
      if index == |s| || s[index] != '"' {
        return Err(BadKey);
      }
      var key := ScanString(s, index);
      if key.Err? {
        return key;
      }
      var colon := Whitespace(s, key.value);
      if colon == |s| || s[colon] != ':' {
        return Err(MissingColon);
      }
      var end := ScanValue(s, colon + 1);
      if end.Err? {
        return end;
      }
      var next := Whitespace(s, end.value);
      if next < |s| && s[next] == '}' {
        return Ok(next + 1);
      }
      if next == |s| || s[next] != ',' {
        return Err(MissingComma);
      }
      index := Whitespace(s, next + 1);
    }
  }

  method ScanItems(s: string, i: nat) returns (r: Result<nat, ScanError>)
    requires i <= |s|
    ensures r == ItemsEnd(s, i)
    decreases |s| - i, 2
  {
    hide SkipSpace, ValueEnd;
    var index := i;
    while true
      invariant i <= index <= |s| && ItemsEnd(s, index) == ItemsEnd(s, i)
      decreases |s| - index
    {
      var end := ScanValue(s, index);
      if end.Err? {
        return end;
      }
      var next := Whitespace(s, end.value);
      if next < |s| && s[next] == ']' {
        return Ok(next + 1);
      }
      if next == |s| || s[next] != ',' {
        return Err(MissingComma);
      }
      index := Whitespace(s, next + 1);
    }
  }

  method ScanValue(s: string, i: nat) returns (r: Result<nat, ScanError>)
    requires i <= |s|
    ensures r == ValueEnd(s, i)
    decreases |s| - i, 1
  {
    hide SkipSpace, StringFrom, MembersEnd, ItemsEnd, NumberEnd;
    var index := Whitespace(s, i);
    if index == |s| {
      return Err(MissingValue);
    }
    var c := s[index];
    if c == '"' {
      r := ScanString(s, index);
      return;
    }
    if c == '{' {
      index := Whitespace(s, index + 1);
      if index < |s| && s[index] == '}' {
        return Ok(index + 1);
      }
      r := ScanMembers(s, index);
      return;
    }
    if c == '[' {
      index := Whitespace(s, index + 1);
      if index < |s| && s[index] == ']' {
        return Ok(index + 1);
      }
      r := ScanItems(s, index);
      return;
    }
    if StartsWith(s, index, "true") || StartsWith(s, index, "null") {
      return Ok(index + 4);
    }
    if StartsWith(s, index, "false") {
      return Ok(index + 5);
    }
    if c == '-' || IsDigit(c) {
      r := ScanNumber(s, index);
      return;
    }
    r := Err(BadValue);
  }

  // ----- it finds the end of every well-formed value

  lemma PieceIsPassed(s: string, i: nat, p: Piece)
    requires GoodPiece(p) && Reads(s, i, PieceText(p))
    ensures StringFrom(s, i) == StringFrom(s, i + |PieceText(p)|)
  {
    ReadsAt(s, i, PieceText(p), 0);
    if !p.Plain? {
      ReadsAt(s, i, PieceText(p), 1);
    }
    if p.Unicode? {
      forall k | i + 2 <= k < i + 6 ensures k < |s| && IsHex(s[k]) {
        ReadsAt(s, i, PieceText(p), k - i);
        assert IsHex(p.hex[k - i - 2]);
      }
    }
  }

  lemma {:induction false} PiecesArePassed(s: string, i: nat, ps: seq<Piece>)
    requires GoodPieces(ps) && Reads(s, i, PiecesText(ps))
    ensures StringFrom(s, i) == StringFrom(s, i + |PiecesText(ps)|)
    decreases |ps|
  {
    hide Reads, StringFrom, PieceText;
    if ps != [] {
      ReadsSplit(s, i, PieceText(ps[0]), PiecesText(ps[1..]));
      PieceIsPassed(s, i, ps[0]);
      PiecesArePassed(s, i + |PieceText(ps[0])|, ps[1..]);
    }
  }

  lemma StringCloses(s: string, i: nat)
    requires Reads(s, i, "\"")
    ensures StringFrom(s, i) == Ok(i + 1)
  {
    ReadsChar(s, i, '"');
  }

  lemma QuotedIsFound(s: string, i: nat, ps: seq<Piece>)
    requires GoodPieces(ps) && Reads(s, i, Quoted(ps))
    ensures i < |s| && s[i] == '"' && StringFrom(s, i + 1) == Ok(i + |Quoted(ps)|)
  {
    hide Reads, PiecesText, Quoted, StringFrom, GoodPieces;
    QuotedParts(s, i, ps);
    ReadsChar(s, i, '"');
    PiecesArePassed(s, i + 1, ps);
    StringCloses(s, i + 1 + |PiecesText(ps)|);
  }

  predicate DigitsStop(s: string, i: nat) {
    i < |s| ==> !IsDigit(s[i])
  }

  lemma {:induction false} DigitsAreSkipped(s: string, i: nat, ds: string)
    requires Reads(s, i, ds) && DigitsStop(s, i + |ds|)
    requires forall k :: 0 <= k < |ds| ==> IsDigit(ds[k])
    ensures SkipDigits(s, i) == i + |ds|
    decreases |ds|
  {
    if ds != [] {
      ReadsAt(s, i, ds, 0);
      assert [ds[0]] + ds[1..] == ds;
      ReadsSplit(s, i, [ds[0]], ds[1..]);
      DigitsAreSkipped(s, i + 1, ds[1..]);
    }
  }

  lemma DigitsAreFound(s: string, i: nat, ds: string)
    requires Digits(ds) && Reads(s, i, ds) && DigitsStop(s, i + |ds|)
    ensures DigitsEnd(s, i) == Ok(i + |ds|)
  {
    ReadsAt(s, i, ds, 0);
    DigitsAreSkipped(s, i, ds);
  }

  lemma WholeIsFound(s: string, i: nat, ds: string)
    requires Digits(ds) && (ds[0] == '0' ==> |ds| == 1) && Reads(s, i, ds) && DigitsStop(s, i + |ds|)
    ensures WholeEnd(s, i) == Ok(i + |ds|)
  {
    ReadsAt(s, i, ds, 0);
    DigitsAreFound(s, i, ds);
  }

  lemma FractionIsFound(s: string, i: nat, fraction: Option<string>)
    requires (fraction.Some? ==> Digits(fraction.value)) && Reads(s, i, FractionText(fraction))
    requires var end := i + |FractionText(fraction)|; DigitsStop(s, end) && (end < |s| ==> s[end] != '.')
    ensures FractionEnd(s, i) == Ok(i + |FractionText(fraction)|)
  {
    if fraction.Some? {
      ReadsSplit(s, i, ".", fraction.value);
      ReadsChar(s, i, '.');
      DigitsAreFound(s, i + 1, fraction.value);
    }
  }

  lemma ExponentIsFound(s: string, i: nat, exponent: Option<Exponent>)
    requires exponent.Some? ==> GoodExponent(exponent.value)
    requires Reads(s, i, ExponentText(exponent)) && Delimited(s, i + |ExponentText(exponent)|)
    ensures ExponentEnd(s, i) == Ok(i + |ExponentText(exponent)|)
  {
    hide Reads, DigitsEnd, GoodExponent;
    if exponent.Some? {
      ExponentIsRead(s, i, exponent.value);
    }
  }

  lemma ExponentParts(s: string, i: nat, e: Exponent)
    requires GoodExponent(e) && Reads(s, i, ExponentText(Some(e)))
    ensures Reads(s, i, [e.letter]) && Reads(s, i + 1, e.sign) && Reads(s, i + 1 + |e.sign|, e.digits)
    ensures |ExponentText(Some(e))| == 1 + |e.sign| + |e.digits|
  {
    hide Reads;
    ReadsSplit(s, i, [e.letter], e.sign + e.digits);
    ReadsSplit(s, i + 1, e.sign, e.digits);
  }

  lemma ExponentIsRead(s: string, i: nat, e: Exponent)
    requires GoodExponent(e) && Reads(s, i, ExponentText(Some(e))) && Delimited(s, i + |ExponentText(Some(e))|)
    ensures ExponentEnd(s, i) == Ok(i + |ExponentText(Some(e))|)
  {
    hide Reads, Digits, DigitsEnd, IsSign, ExponentText;
    ExponentParts(s, i, e);
    ReadsChar(s, i, e.letter);
    SignIsSeen(s, i + 1, e.sign, e.digits);
    DigitsAreFound(s, i + 1 + |e.sign|, e.digits);
  }

  lemma SignIsSeen(s: string, i: nat, sign: string, digits: string)
    requires |sign| <= 1 && (|sign| == 1 ==> IsSign(sign[0])) && Digits(digits) && Reads(s, i, sign) && Reads(s, i + |sign|, digits)
    ensures i < |s| && (IsSign(s[i]) <==> |sign| == 1)
  {
    if |sign| == 0 {
      ReadsAt(s, i, digits, 0);
    } else {
      ReadsAt(s, i, sign, 0);
    }
  }

  /** What an optional part of a number leaves: the next part cannot be mistaken for it. */
  lemma ExponentStarts(s: string, i: nat, exponent: Option<Exponent>)
    requires exponent.Some? ==> GoodExponent(exponent.value)
    requires Reads(s, i, ExponentText(exponent)) && Delimited(s, i + |ExponentText(exponent)|)
    ensures DigitsStop(s, i) && (i < |s| ==> s[i] != '.')
  {
    if exponent.Some? {
      ReadsAt(s, i, ExponentText(exponent), 0);
    }
  }

  lemma FractionStarts(s: string, i: nat, fraction: Option<string>)
    requires Reads(s, i, FractionText(fraction)) && DigitsStop(s, i + |FractionText(fraction)|)
    ensures DigitsStop(s, i)
  {
    if fraction.Some? {
      ReadsAt(s, i, FractionText(fraction), 0);
    }
  }

  lemma NumberParts(s: string, i: nat, n: Number)
    requires Reads(s, i, NumberText(n))
    ensures var i1 := i + |Sign(n.minus)|; var i2 := i1 + |n.whole|; var i3 := i2 + |FractionText(n.fraction)|;
            && Reads(s, i, Sign(n.minus)) && Reads(s, i1, n.whole) && Reads(s, i2, FractionText(n.fraction))
            && Reads(s, i3, ExponentText(n.exponent)) && i + |NumberText(n)| == i3 + |ExponentText(n.exponent)|
  {
    hide Reads, Sign, FractionText, ExponentText;
    var tail := FractionText(n.fraction) + ExponentText(n.exponent);
    ReadsSplit(s, i, Sign(n.minus), n.whole + tail);
    ReadsSplit(s, i + |Sign(n.minus)|, n.whole, tail);
    ReadsSplit(s, i + |Sign(n.minus)| + |n.whole|, FractionText(n.fraction), ExponentText(n.exponent));
  }

  lemma NumberTailIsFound(s: string, i: nat, n: Number)
    requires GoodNumber(n) && Reads(s, i, FractionText(n.fraction))
    requires var j := i + |FractionText(n.fraction)|;
             Reads(s, j, ExponentText(n.exponent)) && Delimited(s, j + |ExponentText(n.exponent)|)
    ensures FractionEnd(s, i) == Ok(i + |FractionText(n.fraction)|)
    ensures ExponentEnd(s, i + |FractionText(n.fraction)|) == Ok(i + |FractionText(n.fraction)| + |ExponentText(n.exponent)|)
    ensures DigitsStop(s, i)
  {
    hide Reads, FractionText, ExponentText, FractionEnd, ExponentEnd, Delimited, GoodExponent, Digits;
    var j := i + |FractionText(n.fraction)|;
    ExponentIsFound(s, j, n.exponent);
    ExponentStarts(s, j, n.exponent);
    FractionIsFound(s, i, n.fraction);
    FractionStarts(s, i, n.fraction);
  }

  lemma NumberStarts(s: string, i: nat, n: Number)
    requires GoodNumber(n) && Reads(s, i, Sign(n.minus)) && Reads(s, i + |Sign(n.minus)|, n.whole)
    ensures i < |s| && (s[i] == '-' <==> n.minus) && (s[i] == '-' || IsDigit(s[i]))
  {
    if n.minus {
      ReadsChar(s, i, '-');
    } else {
      ReadsAt(s, i, n.whole, 0);
    }
  }

  lemma NumberIsFound(s: string, i: nat, n: Number)
    requires GoodNumber(n) && Reads(s, i, NumberText(n)) && Delimited(s, i + |NumberText(n)|)
    ensures i < |s| && (s[i] == '-' || IsDigit(s[i])) && NumberEnd(s, i) == Ok(i + |NumberText(n)|)
  {
    hide Reads, FractionText, ExponentText, WholeEnd, FractionEnd, ExponentEnd, NumberText, Delimited, GoodExponent, Digits;
    NumberParts(s, i, n);
    NumberStarts(s, i, n);
    var i1 := i + |Sign(n.minus)|;
    NumberTailIsFound(s, i1 + |n.whole|, n);
    WholeIsFound(s, i1, n.whole);
  }

  lemma WordIsFound(s: string, i: nat, word: string)
    requires word in ["true", "false", "null"] && Reads(s, i, word)
    ensures i < |s| && s[i] == word[0] && WordEnd(s, i) == Ok(i + |word|)
  {
    ReadsAt(s, i, word, 0);
    if word != "true" {
      assert !StartsWith(s, i, "true") by {
        if StartsWith(s, i, "true") { ReadsAt(s, i, "true", 0); }
      }
    }
    if word == "null" {
      assert !StartsWith(s, i, "false") by {
        if StartsWith(s, i, "false") { ReadsAt(s, i, "false", 0); }
      }
    }
  }

  lemma NumberIsNoWord(s: string, i: nat)
    requires i < |s| && (s[i] == '-' || IsDigit(s[i]))
    ensures WordEnd(s, i) == NumberEnd(s, i)
  {
    if StartsWith(s, i, "true") { ReadsAt(s, i, "true", 0); }
    if StartsWith(s, i, "false") { ReadsAt(s, i, "false", 0); }
    if StartsWith(s, i, "null") { ReadsAt(s, i, "null", 0); }
  }

  lemma {:induction false} ValueIsFound(s: string, i: nat, v: Json)
    requires Good(v) && Reads(s, i, Text(v)) && Delimited(s, i + |Text(v)|)
    ensures i < |s| && !IsSpace(s[i]) && s[i] !in ",}]" && ValueEnd(s, i) == Ok(i + |Text(v)|)
    decreases v, 1
  {
    hide Reads, Delimited, NumberText, Quoted, NumberEnd, WordEnd, StringFrom, ItemsEnd, MembersEnd, ItemsText, MembersText;
    match v
    case Str(ps) =>
      QuotedIsFound(s, i, ps);
    case Num(n) =>
      NumberIsFound(s, i, n);
      NumberIsNoWord(s, i);
    case Word(w) =>
      WordIsFound(s, i, w);
    case Arr(_, _) =>
      ArrayIsFound(s, i, v);
    case Obj(_, _) =>
      ObjectIsFound(s, i, v);
  }

  lemma {:induction false} ArrayIsFound(s: string, i: nat, v: Json)
    requires Good(v) && v.Arr? && Reads(s, i, Text(v))
    ensures i < |s| && s[i] == '[' && ValueEnd(s, i) == Ok(i + |Text(v)|)
    decreases v, 0
  {
    hide Reads, Text, ItemsEnd, ItemsText, SkipSpace;
    BracketParts(s, i, v);
    ReadsChar(s, i, '[');
    var close := i + 1 + |Inner(v)|;
    ReadsChar(s, close, ']');
    SpaceStops(s, i, "");
    if v.items.NoItems? {
      SpaceStops(s, i + 1, v.blank);
    } else {
      ItemsAreFound(s, i + 1, v.items);
    }
  }

  lemma {:induction false} ItemsAreFound(s: string, i: nat, items: Items)
    requires items.Item? && GoodItems(items) && Reads(s, i, ItemsText(items)) && Reads(s, i + |ItemsText(items)|, "]")
    ensures i <= |s| && SkipSpace(s, i) < |s| && s[SkipSpace(s, i)] != ']'
    ensures ItemsEnd(s, SkipSpace(s, i)) == Ok(i + |ItemsText(items)| + 1)
    decreases items
  {
    hide Reads, Text, ItemsText, ItemsTail, SkipSpace, ValueEnd;
    ItemsParts(s, i, items);
    var i1 := i + |items.before|;
    var i2 := i1 + |Text(items.value)|;
    var i3 := i2 + |items.after|;
    ItemsTailStarts(s, i3, items.rest);
    ValueIsDelimited(s, i2, items.after);
    ValueIsFound(s, i1, items.value);
    SpaceStops(s, i, items.before);
    SpaceStops(s, i2, items.after);
    if items.rest.Item? {
      ItemsTailParts(s, i3, items.rest);
      ItemsAreFound(s, i3 + 1, items.rest);
    }
  }

  lemma {:induction false} ObjectIsFound(s: string, i: nat, v: Json)
    requires Good(v) && v.Obj? && Reads(s, i, Text(v))
    ensures i < |s| && s[i] == '{' && ValueEnd(s, i) == Ok(i + |Text(v)|)
    decreases v, 0
  {
    hide Reads, Text, MembersEnd, MembersText, SkipSpace;
    BracketParts(s, i, v);
    ReadsChar(s, i, '{');
    var close := i + 1 + |Inner(v)|;
    ReadsChar(s, close, '}');
    SpaceStops(s, i, "");
    if v.members.NoMembers? {
      SpaceStops(s, i + 1, v.blank);
    } else {
      MembersAreFound(s, i + 1, v.members);
    }
  }

  /** The key and the colon of the first member. */
  lemma KeyIsFound(s: string, i: nat, ms: Members)
    requires ms.Member? && GoodMembers(ms) && Reads(s, i, KeyText(ms))
    requires i + |KeyText(ms)| < |s| && !IsSpace(s[i + |KeyText(ms)|])
    ensures var start := SkipSpace(s, i);
            && start < |s| && s[start] == '"' && StringFrom(s, start + 1).Ok?
            && var colon := SkipSpace(s, StringFrom(s, start + 1).value);
            && colon < |s| && s[colon] == ':' && SkipSpace(s, colon + 1) == i + |KeyText(ms)|
  {
    hide Reads, ColonText, KeyText, Quoted, StringFrom, SkipSpace;
    KeyParts(s, i, ms);
    QuotedIsFound(s, i + |ms.before|, ms.key);
    SpaceStops(s, i, ms.before);
    ColonIsFound(s, i + |ms.before| + |Quoted(ms.key)|, ms);
  }

  lemma SpacesBefore(s: string, i: nat, j: nat)
    requires i <= |s| && j < |s| && SkipSpace(s, i) == j && !IsSpace(s[j])
    ensures ValueEnd(s, i) == ValueEnd(s, j)
  {
  }

  lemma {:induction false} MembersAreFound(s: string, i: nat, ms: Members)
    requires ms.Member? && GoodMembers(ms) && Reads(s, i, MembersText(ms)) && Reads(s, i + |MembersText(ms)|, "}")
    ensures i <= |s| && SkipSpace(s, i) < |s| && s[SkipSpace(s, i)] != '}'
    ensures MembersEnd(s, SkipSpace(s, i)) == Ok(i + |MembersText(ms)| + 1)
    decreases ms
  {
    hide Reads, Text, KeyText, MembersText, MembersTail, SkipSpace, ValueEnd, StringFrom, Blank, Good, GoodPieces, Delimited;
    MembersParts(s, i, ms);
    var i1 := i + |KeyText(ms)|;
    var i2 := i1 + |Text(ms.value)|;
    var i3 := i2 + |ms.after|;
    MembersTailStarts(s, i3, ms.rest);
    ValueIsDelimited(s, i2, ms.after);
    ValueIsFound(s, i1, ms.value);
    KeyIsFound(s, i, ms);
    SpacesBefore(s, SkipSpace(s, StringFrom(s, SkipSpace(s, i) + 1).value) + 1, i1);
    SpaceStops(s, i2, ms.after);
    if ms.rest.Member? {
      MembersTailParts(s, i3, ms.rest);
      MembersAreFound(s, i3 + 1, ms.rest);
    }
  }

  /** `value_end` stops exactly behind a well-formed value, wherever it stands in the source. */
  lemma ValueEndIsExact(s: string, i: nat, ws: string, v: Json)
    requires Blank(ws) && Good(v) && Reads(s, i, ws + Text(v))
    requires Delimited(s, i + |ws| + |Text(v)|)
    ensures i <= |s| && ValueEnd(s, i) == Ok(i + |ws| + |Text(v)|)
  {
    hide Reads, Delimited, Text, SkipSpace, ValueEnd;
    ReadsSplit(s, i, ws, Text(v));
    ValueIsFound(s, i + |ws|, v);
    SpaceStops(s, i, ws);
    SpacesBefore(s, i, i + |ws|);
  }

  /** On well-formed texts the two hand-written scanners agree. */
  lemma ScannersAgree(s: string, i: nat, ws: string, v: Json)
    requires Blank(ws) && Good(v) && Reads(s, i, ws + Text(v))
    requires Delimited(s, i + |ws| + |Text(v)|)
    ensures i <= |s| && ValueEnd(s, i).Ok? && Stack.ValueEnd(s, i) == Ok(ValueEnd(s, i).value)
  {
    hide Reads, Delimited, Text, ValueEnd, Stack.ValueEnd;
    ValueEndIsExact(s, i, ws, v);
    Stack.ValueEndIsExact(s, i, ws, v);
  }
}
