/** The recursive scanner accepts exactly the JSON texts of RFC 8259, section 2. */
module JsonAcceptance {
  import opened Wrappers
  import opened JsonText
  import opened Slices
  import opened JsonRecursiveScan

  // ----- whatever it scans is well formed

  lemma Skipped(s: string, i: nat) returns (ws: string)
    requires i <= |s|
    ensures Blank(ws) && Reads(s, i, ws) && SkipSpace(s, i) == i + |ws|
    ensures SkipSpace(s, i) < |s| ==> !IsSpace(s[SkipSpace(s, i)])
    decreases |s| - i
  {
    ws := "";
    if i < |s| && IsSpace(s[i]) {
      var rest := Skipped(s, i + 1);
      ws := [s[i]] + rest;
      ReadsSplit(s, i, [s[i]], rest);
    }
  }

  lemma ScannedPiece(s: string, i: nat) returns (p: Piece)
    requires i < |s| && s[i] != '"' && StringFrom(s, i).Ok?
    ensures GoodPiece(p) && Reads(s, i, PieceText(p))
  {
    if s[i] != '\\' {
      p := Plain(s[i]);
    } else if s[i + 1] != 'u' {
      p := Escape(s[i + 1]);
    } else {
      p := Unicode(s[i + 2..i + 6]);
      assert forall k :: 0 <= k < 4 ==> p.hex[k] == s[i + 2 + k];
      assert s[i..i + 6] == s[i..i + 2] + s[i + 2..i + 6];
    }
  }

  lemma ScannedPieces(s: string, i: nat) returns (ps: seq<Piece>)
    requires StringFrom(s, i).Ok?
    ensures GoodPieces(ps) && Reads(s, i, PiecesText(ps) + "\"")
    ensures StringFrom(s, i) == Ok(i + |PiecesText(ps)| + 1)
    decreases |s| - i
  {
    ps := [];
    if s[i] == '"' {
      assert PiecesText(ps) + "\"" == "\"" == [s[i]];
    } else {
      var p := ScannedPiece(s, i);
      hide Reads, StringFrom, GoodPiece;
      PieceIsPassed(s, i, p);
      PieceIsNotEmpty(p);
      var rest := ScannedPieces(s, i + |PieceText(p)|);
      ps := [p] + rest;
      PiecesJoin(p, rest);
      ReadsSplit(s, i, PieceText(p), PiecesText(rest) + "\"");
    }
  }

  lemma PieceIsNotEmpty(p: Piece)
    ensures |PieceText(p)| > 0
  {
  }

  lemma PiecesJoin(p: Piece, rest: seq<Piece>)
    ensures PiecesText([p] + rest) == PieceText(p) + PiecesText(rest)
    ensures PiecesText([p] + rest) + "\"" == PieceText(p) + (PiecesText(rest) + "\"")
    ensures GoodPiece(p) && GoodPieces(rest) ==> GoodPieces([p] + rest)
  {
    assert ([p] + rest)[1..] == rest;
  }

  lemma ScannedString(s: string, i: nat) returns (ps: seq<Piece>)
    requires i < |s| && s[i] == '"' && StringFrom(s, i + 1).Ok?
    ensures GoodPieces(ps) && Reads(s, i, Quoted(ps)) && StringFrom(s, i + 1) == Ok(i + |Quoted(ps)|)
  {
    hide Reads, StringFrom, PiecesText, GoodPieces;
    ps := ScannedPieces(s, i + 1);
    ReadsOne(s, i);
    ReadsSplit(s, i, "\"", PiecesText(ps) + "\"");
  }

  lemma ScannedDigits(s: string, i: nat) returns (ds: string)
    requires DigitsEnd(s, i).Ok?
    ensures Digits(ds) && Reads(s, i, ds) && DigitsEnd(s, i) == Ok(i + |ds|)
  {
    ds := s[i..SkipDigits(s, i)];
    DigitsBetween(s, i);
  }

  lemma {:induction false} DigitsBetween(s: string, i: nat)
    requires i <= |s|
    ensures forall k :: i <= k < SkipDigits(s, i) ==> IsDigit(s[k])
    decreases |s| - i
  {
    if i < |s| && IsDigit(s[i]) {
      DigitsBetween(s, i + 1);
    }
  }

  lemma ScannedWhole(s: string, i: nat) returns (ds: string)
    requires WholeEnd(s, i).Ok?
    ensures Digits(ds) && (ds[0] == '0' ==> |ds| == 1) && Reads(s, i, ds) && WholeEnd(s, i) == Ok(i + |ds|)
  {
    if s[i] == '0' {
      ds := "0";
      assert s[i..i + 1] == ds;
    } else {
      ds := ScannedDigits(s, i);
      ReadsAt(s, i, ds, 0);
    }
  }

  lemma ScannedFraction(s: string, i: nat) returns (f: Option<string>)
    requires i <= |s| && FractionEnd(s, i).Ok?
    ensures (f.Some? ==> Digits(f.value)) && Reads(s, i, FractionText(f)) && FractionEnd(s, i) == Ok(i + |FractionText(f)|)
  {
    f := None;
    if i < |s| && s[i] == '.' {
      var ds := ScannedDigits(s, i + 1);
      f := Some(ds);
      assert s[i..i + 1] == ".";
      ReadsSplit(s, i, ".", ds);
    }
  }

  lemma JoinExponent(s: string, i: nat, e: Exponent)
    requires i < |s| && s[i] == e.letter && Reads(s, i + 1, e.sign) && Reads(s, i + 1 + |e.sign|, e.digits)
    ensures Reads(s, i, ExponentText(Some(e))) && |ExponentText(Some(e))| == 1 + |e.sign| + |e.digits|
  {
    hide Reads;
    ReadsOne(s, i);
    ReadsSplit(s, i + 1, e.sign, e.digits);
    ReadsSplit(s, i, [e.letter], e.sign + e.digits);
  }

  lemma SignText(s: string, i: nat) returns (sign: string)
    requires i <= |s|
    ensures sign == (if i < |s| && IsSign(s[i]) then [s[i]] else "") && Reads(s, i, sign)
  {
    sign := if i < |s| && IsSign(s[i]) then [s[i]] else "";
  }

  lemma WithoutExponent(s: string, i: nat)
    requires i <= |s|
    ensures Reads(s, i, ExponentText(None)) && |ExponentText(None)| == 0
  {
  }

  lemma ScannedExponent(s: string, i: nat) returns (e: Option<Exponent>)
    requires i <= |s| && ExponentEnd(s, i).Ok?
    ensures (e.Some? ==> GoodExponent(e.value)) && Reads(s, i, ExponentText(e)) && ExponentEnd(s, i) == Ok(i + |ExponentText(e)|)
  {
    hide Reads, Digits, DigitsEnd, IsSign, ExponentText;
    if i < |s| && IsExponentLetter(s[i]) {
      var sign := SignText(s, i + 1);
      var ds := ScannedDigits(s, i + 1 + |sign|);
      e := Some(Exponent(s[i], sign, ds));
      JoinExponent(s, i, e.value);
    } else {
      WithoutExponent(s, i);
      e := None;
    }
  }

  lemma ScannedNumber(s: string, i: nat) returns (n: Number)
    requires i < |s| && NumberEnd(s, i).Ok?
    ensures GoodNumber(n) && Reads(s, i, NumberText(n)) && NumberEnd(s, i) == Ok(i + |NumberText(n)|)
  {
    hide Reads, WholeEnd, FractionEnd, ExponentEnd, FractionText, ExponentText, Digits, GoodExponent;
    var minus := s[i] == '-';
    ScannedSign(s, i);
    var i1 := i + |Sign(minus)|;
    var whole := ScannedWhole(s, i1);
    var fraction := ScannedFraction(s, i1 + |whole|);
    var i3 := i1 + |whole| + |FractionText(fraction)|;
    var exponent := ScannedExponent(s, i3);
    n := Number(minus, whole, fraction, exponent);
    ReadsSplit(s, i1 + |whole|, FractionText(fraction), ExponentText(exponent));
    ReadsSplit(s, i1, whole, FractionText(fraction) + ExponentText(exponent));
    ReadsSplit(s, i, Sign(minus), whole + (FractionText(fraction) + ExponentText(exponent)));
  }

  lemma ScannedSign(s: string, i: nat)
    requires i < |s|
    ensures Reads(s, i, Sign(s[i] == '-'))
  {
  }

  /** What `value_end` walked over is space and a well-formed value. */
  lemma ScannedValue(s: string, i: nat) returns (ws: string, v: Json)
    requires i <= |s| && ValueEnd(s, i).Ok?
    ensures Blank(ws) && Good(v) && Reads(s, i, ws) && Reads(s, i + |ws|, Text(v))
    ensures ValueEnd(s, i) == Ok(i + |ws| + |Text(v)|)
    decreases |s| - i, 2
  {
    hide Reads, StringFrom, ItemsEnd, MembersEnd, NumberEnd, SkipSpace, NumberText, Quoted, ItemsText, MembersText;
    ws := Skipped(s, i);
    var start := i + |ws|;
    if s[start] == '"' {
      var ps := ScannedString(s, start);
      v := Str(ps);
    } else if s[start] == '{' || s[start] == '[' {
      v := ScannedBody(s, i, start);
    } else {
      v := ScannedScalar(s, start);
    }
  }

  lemma ScannedScalar(s: string, i: nat) returns (v: Json)
    requires i < |s| && WordEnd(s, i).Ok?
    ensures Good(v) && Reads(s, i, Text(v)) && WordEnd(s, i) == Ok(i + |Text(v)|)
  {
    if StartsWith(s, i, "true") {
      v := Word("true");
    } else if StartsWith(s, i, "false") {
      v := Word("false");
    } else if StartsWith(s, i, "null") {
      v := Word("null");
    } else {
      hide Reads, NumberEnd, NumberText, GoodNumber, StartsWith;
      var n := ScannedNumber(s, i);
      v := Num(n);
    }
  }

  /** The brackets around what stands between them. */
  lemma Bracketed(s: string, i: nat, v: Json)
    requires (v.Arr? || v.Obj?) && i < |s| && s[i] == (if v.Arr? then '[' else '{')
    requires Reads(s, i + 1, Inner(v)) && i + 1 + |Inner(v)| < |s|
    requires s[i + 1 + |Inner(v)|] == if v.Arr? then ']' else '}'
    ensures Reads(s, i, Text(v)) && |Text(v)| == |Inner(v)| + 2
  {
    hide Reads, Text, Inner;
    var close := i + 1 + |Inner(v)|;
    BracketText(v);
    ReadsOne(s, i);
    ReadsOne(s, close);
    ReadsSplit(s, i + 1, Inner(v), [s[close]]);
    ReadsSplit(s, i, [s[i]], Inner(v) + [s[close]]);
  }

  lemma BracketText(v: Json)
    requires v.Arr? || v.Obj?
    ensures Text(v) == [if v.Arr? then '[' else '{'] + (Inner(v) + [if v.Arr? then ']' else '}'])
  {
  }

  lemma ScannedBody(s: string, i: nat, start: nat) returns (v: Json)
    requires i <= start < |s| && SkipSpace(s, i) == start && (s[start] == '{' || s[start] == '[') && ValueEnd(s, i).Ok?
    ensures Good(v) && Reads(s, start, Text(v)) && ValueEnd(s, i) == Ok(start + |Text(v)|)
    decreases |s| - i, 1
  {
    hide Reads, ItemsEnd, MembersEnd, SkipSpace, ItemsText, MembersText, Text;
    var blank := Skipped(s, start + 1);
    var first := start + 1 + |blank|;
    if s[start] == '[' {
      if s[first] == ']' {
        v := Arr(blank, NoItems);
      } else {
        var items := ScannedItems(s, first);
        PrefixItems(s, start + 1, blank, items);
        v := Arr("", items.(before := blank + items.before));
      }
    } else if s[first] == '}' {
      v := Obj(blank, NoMembers);
    } else {
      var ms := ScannedMembers(s, first);
      PrefixMembers(s, start + 1, blank, ms);
      v := Obj("", ms.(before := blank + ms.before));
    }
    Bracketed(s, start, v);
  }

  lemma BlankJoin(a: string, b: string)
    requires Blank(a) && Blank(b)
    ensures Blank(a + b)
  {
  }

  lemma PrefixItems(s: string, i: nat, ws: string, items: Items)
    requires items.Item? && GoodItems(items) && Blank(ws) && Reads(s, i, ws) && Reads(s, i + |ws|, ItemsText(items))
    ensures GoodItems(items.(before := ws + items.before))
    ensures Reads(s, i, ItemsText(items.(before := ws + items.before)))
    ensures |ItemsText(items.(before := ws + items.before))| == |ws| + |ItemsText(items)|
  {
    hide Reads, Text, ItemsTail, Blank;
    BlankJoin(ws, items.before);
    var rest := Text(items.value) + (items.after + ItemsTail(items.rest));
    assert (ws + items.before) + rest == ws + (items.before + rest);
    ReadsSplit(s, i, ws, items.before + rest);
  }

  lemma PrefixMembers(s: string, i: nat, ws: string, ms: Members)
    requires ms.Member? && GoodMembers(ms) && Blank(ws) && Reads(s, i, ws) && Reads(s, i + |ws|, MembersText(ms))
    ensures GoodMembers(ms.(before := ws + ms.before))
    ensures Reads(s, i, MembersText(ms.(before := ws + ms.before)))
    ensures |MembersText(ms.(before := ws + ms.before))| == |ws| + |MembersText(ms)|
  {
    hide Reads, Text, MembersTail, Quoted, Blank;
    BlankJoin(ws, ms.before);
    var name := Quoted(ms.key) + ColonText(ms);
    assert ColonText(ms.(before := ws + ms.before)) == ColonText(ms);
    var rest := Text(ms.value) + (ms.after + MembersTail(ms.rest));
    assert ((ws + ms.before) + name) + rest == ws + ((ms.before + name) + rest);
    ReadsSplit(s, i, ws, (ms.before + name) + rest);
  }

  lemma ScannedItems(s: string, i: nat) returns (items: Items)
    requires i <= |s| && ItemsEnd(s, i).Ok?
    ensures items.Item? && GoodItems(items) && Reads(s, i, ItemsText(items))
    ensures ItemsEnd(s, i) == Ok(i + |ItemsText(items)| + 1)
    ensures i + |ItemsText(items)| < |s| && s[i + |ItemsText(items)|] == ']'
    decreases |s| - i, 3
  {
    hide Reads, ValueEnd, SkipSpace, Text, ItemsText, Good, Blank;
    var ws, v := ScannedValue(s, i);
    var end := i + |ws| + |Text(v)|;
    var after := Skipped(s, end);
    var next := end + |after|;
    var rest := NoItems;
    if s[next] == ',' {
      var blank := Skipped(s, next + 1);
      var more := ScannedItems(s, next + 1 + |blank|);
      PrefixItems(s, next + 1, blank, more);
      rest := more.(before := blank + more.before);
    }
    items := Item(ws, v, after, rest);
    JoinItems(s, i, items);
  }

  lemma JoinItems(s: string, i: nat, items: Items)
    requires items.Item? && Reads(s, i, items.before) && Reads(s, i + |items.before|, Text(items.value))
    requires Reads(s, i + |items.before| + |Text(items.value)|, items.after)
    requires var next := i + |items.before| + |Text(items.value)| + |items.after|;
             next <= |s| && (items.rest.Item? ==> next < |s| && s[next] == ',' && Reads(s, next + 1, ItemsText(items.rest)))
    ensures Reads(s, i, ItemsText(items))
    ensures |ItemsText(items)| == |items.before| + |Text(items.value)| + |items.after|
                                + if items.rest.Item? then 1 + |ItemsText(items.rest)| else 0
  {
    hide Reads, Text, ItemsTail;
    var value, tail := Text(items.value), ItemsTail(items.rest);
    var i1 := i + |items.before|;
    JoinItemsTail(s, i1 + |value| + |items.after|, items.rest);
    ReadsSplit(s, i1 + |value|, items.after, tail);
    ReadsSplit(s, i1, value, items.after + tail);
    ReadsSplit(s, i, items.before, value + (items.after + tail));
  }

  lemma JoinItemsTail(s: string, i: nat, rest: Items)
    requires i <= |s| && (rest.Item? ==> i < |s| && s[i] == ',' && Reads(s, i + 1, ItemsText(rest)))
    ensures Reads(s, i, ItemsTail(rest))
    ensures |ItemsTail(rest)| == if rest.Item? then 1 + |ItemsText(rest)| else 0
  {
    if rest.Item? {
      ReadsOne(s, i);
      hide Reads, ItemsText;
      ReadsSplit(s, i, ",", ItemsText(rest));
    }
  }

  lemma JoinMembersTail(s: string, i: nat, rest: Members)
    requires i <= |s| && (rest.Member? ==> i < |s| && s[i] == ',' && Reads(s, i + 1, MembersText(rest)))
    ensures Reads(s, i, MembersTail(rest))
    ensures |MembersTail(rest)| == if rest.Member? then 1 + |MembersText(rest)| else 0
  {
    if rest.Member? {
      ReadsOne(s, i);
      hide Reads, MembersText;
      ReadsSplit(s, i, ",", MembersText(rest));
    }
  }

  /** The key and the colon, from the quote on. */
  lemma ScannedKey(s: string, i: nat) returns (key: seq<Piece>, before: string)
    requires i < |s| && s[i] == '"' && StringFrom(s, i + 1).Ok?
    requires var colon := SkipSpace(s, StringFrom(s, i + 1).value); colon < |s| && s[colon] == ':'
    ensures GoodPieces(key) && Blank(before) && Reads(s, i, Quoted(key)) && Reads(s, i + |Quoted(key)|, before + ":")
    ensures SkipSpace(s, StringFrom(s, i + 1).value) == i + |Quoted(key)| + |before|
  {
    hide StringFrom, SkipSpace, Quoted;
    key := ScannedString(s, i);
    var end := i + |Quoted(key)|;
    before := Skipped(s, end);
    assert Reads(s, end + |before|, ":");
    ReadsSplit(s, end, before, ":");
  }

  lemma ScannedMembers(s: string, i: nat) returns (ms: Members)
    requires i <= |s| && MembersEnd(s, i).Ok?
    ensures ms.Member? && GoodMembers(ms) && Reads(s, i, MembersText(ms))
    ensures MembersEnd(s, i) == Ok(i + |MembersText(ms)| + 1)
    ensures i + |MembersText(ms)| < |s| && s[i + |MembersText(ms)|] == '}'
    decreases |s| - i, 4
  {
    hide Reads, ValueEnd, StringFrom, SkipSpace, Text, Quoted, MembersText, Good, Blank, GoodPieces;
    var key, beforeColon := ScannedKey(s, i);
    var colon := i + |Quoted(key)| + |beforeColon|;
    var afterColon, v := ScannedValue(s, colon + 1);
    var end := colon + 1 + |afterColon| + |Text(v)|;
    var after := Skipped(s, end);
    var rest := ScannedMoreMembers(s, end + |after|);
    ms := Member("", key, beforeColon, afterColon, v, after, rest);
    assert Blank("") by { EmptyIsBlank(); }
    JoinMembers(s, i, ms);
  }

  /** From the comma behind a member, if there is one. */
  lemma ScannedMoreMembers(s: string, next: nat) returns (rest: Members)
    requires next < |s| && (s[next] == ',' ==> MembersEnd(s, SkipSpace(s, next + 1)).Ok?)
    ensures rest.Member? <==> s[next] == ','
    ensures rest.Member? ==>
              && GoodMembers(rest) && Reads(s, next + 1, MembersText(rest))
              && MembersEnd(s, SkipSpace(s, next + 1)) == Ok(next + 1 + |MembersText(rest)| + 1)
              && next + 1 + |MembersText(rest)| < |s| && s[next + 1 + |MembersText(rest)|] == '}'
    decreases |s| - next, 3
  {
    hide Reads, MembersText, MembersEnd, SkipSpace, Blank;
    rest := NoMembers;
    if s[next] == ',' {
      var blank := Skipped(s, next + 1);
      var more := ScannedMembers(s, next + 1 + |blank|);
      PrefixMembers(s, next + 1, blank, more);
      rest := more.(before := blank + more.before);
    }
  }

  lemma EmptyIsBlank()
    ensures Blank("")
  {
  }

  lemma JoinMembers(s: string, i: nat, ms: Members)
    requires ms.Member? && ms.before == "" && Reads(s, i, Quoted(ms.key)) && Reads(s, i + |Quoted(ms.key)|, ms.beforeColon + ":")
    requires var colon := i + |Quoted(ms.key)| + |ms.beforeColon|;
             var end := colon + 1 + |ms.afterColon| + |Text(ms.value)|;
             var next := end + |ms.after|;
             && Reads(s, colon + 1, ms.afterColon) && Reads(s, colon + 1 + |ms.afterColon|, Text(ms.value))
             && Reads(s, end, ms.after) && next <= |s|
             && (ms.rest.Member? ==> next < |s| && s[next] == ',' && Reads(s, next + 1, MembersText(ms.rest)))
    ensures Reads(s, i, MembersText(ms))
    ensures |MembersText(ms)| == |Quoted(ms.key)| + |ms.beforeColon| + 1 + |ms.afterColon| + |Text(ms.value)| + |ms.after|
                               + if ms.rest.Member? then 1 + |MembersText(ms.rest)| else 0
  {
    hide Reads, Text, MembersTail, KeyText, Quoted;
    JoinKey(s, i, ms);
    var value, tail := Text(ms.value), MembersTail(ms.rest);
    var i1 := i + |KeyText(ms)|;
    JoinMembersTail(s, i1 + |value| + |ms.after|, ms.rest);
    ReadsSplit(s, i1 + |value|, ms.after, tail);
    ReadsSplit(s, i1, value, ms.after + tail);
    ReadsSplit(s, i, KeyText(ms), value + (ms.after + tail));
  }

  lemma JoinKey(s: string, i: nat, ms: Members)
    requires ms.Member? && ms.before == "" && Reads(s, i, Quoted(ms.key)) && Reads(s, i + |Quoted(ms.key)|, ms.beforeColon + ":")
    requires Reads(s, i + |Quoted(ms.key)| + |ms.beforeColon| + 1, ms.afterColon)
    ensures Reads(s, i, KeyText(ms)) && |KeyText(ms)| == |Quoted(ms.key)| + |ms.beforeColon| + 1 + |ms.afterColon|
  {
    hide Reads, Quoted;
    assert (ms.beforeColon + ":") + ms.afterColon == ColonText(ms);
    assert "" + (Quoted(ms.key) + ColonText(ms)) == Quoted(ms.key) + ColonText(ms);
    ReadsSplit(s, i + |Quoted(ms.key)|, ms.beforeColon + ":", ms.afterColon);
    ReadsSplit(s, i, Quoted(ms.key), ColonText(ms));
  }

  // ----- the check in front of every parse

  /** The guard of `parse_json`: one value, and nothing but white space behind it. */
  predicate Accepts(s: string) {
    var end := ValueEnd(s, 0);
    end.Ok? && SkipSpace(s, end.value) == |s|
  }

  ghost predicate IsTextOf(s: string, before: string, v: Json, after: string) {
    Blank(before) && Good(v) && Blank(after) && s == before + (Text(v) + after)
  }

  ghost predicate IsJsonText(s: string) {
    exists before, v, after :: IsTextOf(s, before, v, after)
  }

  lemma AcceptedIsJson(s: string) returns (before: string, v: Json, after: string)
    requires Accepts(s)
    ensures IsTextOf(s, before, v, after)
  {
    hide Reads, Text, ValueEnd, SkipSpace, Blank, Good;
    before, v := ScannedValue(s, 0);
    after := Skipped(s, |before| + |Text(v)|);
    ReadsSplit(s, |before|, Text(v), after);
    ReadsSplit(s, 0, before, Text(v) + after);
    ReadsWhole(s, before + (Text(v) + after));
  }

  lemma JsonIsAccepted(s: string, before: string, v: Json, after: string)
    requires IsTextOf(s, before, v, after)
    ensures Accepts(s)
  {
    hide Reads, Text, Good, Blank, SkipSpace, ValueEnd;
    var end := |before| + |Text(v)|;
    WholeReads(s);
    ReadsSplit(s, 0, before, Text(v) + after);
    ReadsSplit(s, |before|, Text(v), after);
    ReadsSplit(s, 0, before, Text(v));
    BlankDelimits(s, end, after);
    ValueEndIsExact(s, 0, before, v);
    SpaceStops(s, end, after);
  }

  lemma WholeReads(s: string)
    ensures Reads(s, 0, s)
  {
  }

  lemma BlankDelimits(s: string, i: nat, after: string)
    requires Blank(after) && Reads(s, i, after) && i + |after| == |s|
    ensures Delimited(s, i)
  {
    if after != "" {
      ReadsAt(s, i, after, 0);
    }
  }

  /** `parse_json` lets a text through exactly when it is a JSON text. */
  lemma AcceptsExactlyJson(s: string)
    ensures Accepts(s) <==> IsJsonText(s)
  {
    hide Accepts, IsTextOf;
    if Accepts(s) {
      var before, v, after := AcceptedIsJson(s);
    }
    if IsJsonText(s) {
      var before, v, after :| IsTextOf(s, before, v, after);
      JsonIsAccepted(s, before, v, after);
    }
  }
}
