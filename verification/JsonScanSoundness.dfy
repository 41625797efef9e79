/**
 What the scanners of node/compat-host/src/protocol.ts and examples/wasm-python/plugin.py let through on any text, well
 formed or not: quoted strings, balanced brackets, members between commas, and numbers without leading zeros.
 */
module JsonScanSoundness {
  import opened JsonRootField
  import opened JsonStackScan
  import opened JsonText
  import opened Slices
  import opened Wrappers
  import R = JsonRecursiveScan

  // ----- strings

  /** Characters other than a quote, and backslashes with whatever comes behind them. */
  predicate IsBody(text: string) {
    text == "" ||
    if text[0] == '\\' then |text| >= 2 && IsBody(text[2..]) else text[0] != '"' && IsBody(text[1..])
  }

  lemma {:induction false} BodyIsExact(s: string, i: nat, end: nat)
    requires i <= |s|
    ensures StringFrom(s, i) == Ok(end) <==> i < end <= |s| && s[end - 1] == '"' && IsBody(s[i..end - 1])
    decreases |s| - i
  {
    if i < |s| {
      if s[i] == '\\' {
        if i + 2 <= |s| { BodyIsExact(s, i + 2, end); }
        if i < end <= |s| && end - 1 > i + 1 {
          assert s[i..end - 1][2..] == s[i + 2..end - 1];
        }
      } else if s[i] == '"' {
        if i < end <= |s| && end > i + 1 { assert s[i..end - 1][0] == '"'; }
        if end == i + 1 { assert s[i..end - 1] == ""; }
      } else {
        BodyIsExact(s, i + 1, end);
        if i + 1 < end <= |s| { assert s[i..end - 1][1..] == s[i + 1..end - 1]; }
      }
    }
  }

  /** A string ends at the first quote that no backslash takes away. */
  lemma StringIsExact(s: string, i: nat, end: nat)
    requires i <= |s|
    ensures StringEnd(s, i) == Ok(end) <==>
      i + 1 < end <= |s| && s[i] == '"' && s[end - 1] == '"' && IsBody(s[i + 1..end - 1])
  {
    if i < |s| { BodyIsExact(s, i + 1, end); }
  }

  // ----- brackets

  /** What the stack scanner walks over inside brackets; it does not look at what lies between them. */
  datatype Nest = Bare(c: char) | Quote(body: string) | Group(open: char, items: seq<Nest>)

  function Close(open: char): char {
    if open == '{' then '}' else ']'
  }

  predicate IsBracket(c: char) {
    c == '{' || c == '[' || c == '}' || c == ']'
  }

  predicate GoodNest(n: Nest) {
    match n
    case Bare(c) => c != '"' && !IsBracket(c)
    case Quote(body) => IsBody(body)
    case Group(open, items) => (open == '{' || open == '[') && forall k :: 0 <= k < |items| ==> GoodNest(items[k])
  }

  predicate GoodNests(ns: seq<Nest>) {
    forall k :: 0 <= k < |ns| ==> GoodNest(ns[k])
  }

  function Printed(n: Nest): (text: string)
    ensures text != ""
    decreases n, 0
  {
    match n
    case Bare(c) => [c]
    case Quote(body) => ['"'] + body + ['"']
    case Group(open, items) => [open] + PrintedAll(items) + [Close(open)]
  }

  function PrintedAll(ns: seq<Nest>): string
    decreases ns, |ns|
  {
    if ns == [] then "" else Printed(ns[0]) + PrintedAll(ns[1..])
  }

  /** What is left to read when these brackets are open: the rest inside each of them, innermost first. */
  function Unwound(closes: string, lists: seq<seq<Nest>>): string
    requires |lists| == |closes|
  {
    if closes == "" then ""
    else
      var n := |closes| - 1;
      PrintedAll(lists[n]) + [closes[n]] + Unwound(closes[..n], lists[..n])
  }

  /** One more thing in front of the innermost list. */
  lemma UnwoundPrepends(closes: string, lists: seq<seq<Nest>>, n: Nest)
    requires |lists| == |closes| > 0
    ensures var top := |lists| - 1;
      Unwound(closes, lists[top := [n] + lists[top]]) == Printed(n) + Unwound(closes, lists)
  {
    var top := |lists| - 1;
    assert ([n] + lists[top])[1..] == lists[top];
    assert lists[top := [n] + lists[top]][..top] == lists[..top];
  }

  ghost predicate Leaves(s: string, i: nat, end: nat, closes: string, lists: seq<seq<Nest>>) {
    && i <= end <= |s| && |lists| == |closes|
    && (forall k :: 0 <= k < |lists| ==> GoodNests(lists[k]))
    && s[i..end] == Unwound(closes, lists)
  }

  lemma Prepended(s: string, i: nat, j: nat, end: nat, closes: string, lists: seq<seq<Nest>>, n: Nest)
    requires i < j && Leaves(s, j, end, closes, lists) && closes != "" && GoodNest(n) && s[i..j] == Printed(n)
    ensures Leaves(s, i, end, closes, lists[|lists| - 1 := [n] + lists[|lists| - 1]])
  {
    UnwoundPrepends(closes, lists, n);
    assert s[i..end] == s[i..j] + s[j..end];
  }

  /** A bracket that opens and closes again is one group in front of what follows it. */
  lemma Grouped(s: string, i: nat, end: nat, closes: string, open: char, lists: seq<seq<Nest>>)
    requires i < |s| && s[i] == open && (open == '{' || open == '[') && closes != ""
    requires Leaves(s, i + 1, end, closes + [Close(open)], lists)
    ensures var n := |closes|;
      Leaves(s, i, end, closes, lists[..n][n - 1 := [Group(open, lists[n])] + lists[n - 1]])
  {
    var n := |closes|;
    var g, rest := Group(open, lists[n]), lists[..n];
    assert (closes + [Close(open)])[..n] == closes;
    UnwoundPrepends(closes, rest, g);
    assert s[i..end] == [open] + s[i + 1..end];
    assert [open] + (PrintedAll(lists[n]) + [Close(open)] + Unwound(closes, rest)) == Printed(g) + Unwound(closes, rest);
  }

  lemma Closed(s: string, i: nat, end: nat, closes: string, lists: seq<seq<Nest>>)
    requires i < |s| && closes != "" && s[i] == closes[|closes| - 1]
    requires Leaves(s, i + 1, end, closes[..|closes| - 1], lists)
    ensures Leaves(s, i, end, closes, lists + [[]])
  {
    var n := |closes| - 1;
    assert (lists + [[]])[..n] == lists;
    assert s[i..end] == [s[i]] + s[i + 1..end];
  }

  lemma LastCloses(s: string, i: nat, closes: string)
    requires i < |s| && |closes| == 1 && s[i] == closes[0]
    ensures Leaves(s, i, i + 1, closes, [[]])
  {
    var none: seq<seq<Nest>> := [];
    assert s[i + 1..i + 1] == "";
    Closed(s, i, i + 1, closes, none);
    assert none + [[]] == [[]];
  }

  lemma BareIsPrinted(s: string, i: nat)
    requires i < |s|
    ensures s[i..i + 1] == Printed(Bare(s[i]))
  {
  }

  lemma QuoteIsPrinted(s: string, i: nat, next: nat)
    requires StringEnd(s, i) == Ok(next)
    ensures i + 1 < next <= |s| && s[i..next] == Printed(Quote(s[i + 1..next - 1])) && IsBody(s[i + 1..next - 1])
  {
    StringIsExact(s, i, next);
    assert s[i..next] == ['"'] + s[i + 1..next - 1] + ['"'];
  }

  lemma {:induction false} NestedReads(s: string, i: nat, closes: string, end: nat) returns (lists: seq<seq<Nest>>)
    requires closes != "" && i <= |s| && Nested(s, i, closes) == Ok(end)
    ensures Leaves(s, i, end, closes, lists)
    decreases |s| - i
  {
    hide Unwound, Printed, StringEnd, IsBody;
    var c, n := s[i], |closes| - 1;
    if c == '"' {
      var next := StringEnd(s, i).value;
      QuoteIsPrinted(s, i, next);
      lists := NestedReads(s, next, closes, end);
      Prepended(s, i, next, end, closes, lists, Quote(s[i + 1..next - 1]));
      lists := lists[n := [Quote(s[i + 1..next - 1])] + lists[n]];
    } else if c == '{' || c == '[' {
      assert [Close(c)] == if c == '{' then "}" else "]";
      var more := NestedReads(s, i + 1, closes + [Close(c)], end);
      Grouped(s, i, end, closes, c, more);
      lists := more[..n + 1][n := [Group(c, more[n + 1])] + more[n]];
    } else if c == '}' || c == ']' {
      if n == 0 {
        lists := [[]];
        LastCloses(s, i, closes);
      } else {
        lists := NestedReads(s, i + 1, closes[..n], end);
        Closed(s, i, end, closes, lists);
        lists := lists + [[]];
      }
    } else {
      lists := NestedReads(s, i + 1, closes, end);
      BareIsPrinted(s, i);
      Prepended(s, i, i + 1, end, closes, lists, Bare(c));
      lists := lists[n := [Bare(c)] + lists[n]];
    }
  }

  /** First, last and inside of a text, as they stand in the source. */
  lemma Inside(s: string, i: nat, end: nat, first: char, inner: string, last: char)
    requires i <= end <= |s| && s[i..end] == [first] + inner + [last]
    ensures end - i == |inner| + 2 && s[i] == first && s[end - 1] == last && s[i + 1..end - 1] == inner
  {
    var text := [first] + inner + [last];
    assert s[i] == text[0] && s[end - 1] == text[|text| - 1];
    forall k | 0 <= k < |inner| ensures s[i + 1..end - 1][k] == inner[k] {
      assert s[i..end][k + 1] == text[k + 1];
    }
  }

  lemma GroupOpens(s: string, i: nat, closes: string)
    requires i < |s| && (s[i] == '{' || s[i] == '[')
    ensures Nested(s, i, closes) == Nested(s, i + 1, closes + [Close(s[i])])
  {
    assert [Close(s[i])] == if s[i] == '{' then "}" else "]";
  }

  lemma GroupCloses(s: string, i: nat, closes: string, open: char)
    requires i < |s| && (open == '{' || open == '[') && s[i] == Close(open)
    ensures Nested(s, i, closes + [Close(open)]) == if closes == "" then Ok(i + 1) else Nested(s, i + 1, closes)
  {
    assert (closes + [Close(open)])[..|closes|] == closes;
  }

  /** Inside brackets, a printed thing is walked over. */
  lemma {:induction false} NestIsPassed(s: string, i: nat, n: Nest, closes: string)
    requires GoodNest(n) && closes != "" && i + |Printed(n)| <= |s| && s[i..i + |Printed(n)|] == Printed(n)
    ensures Nested(s, i, closes) == Nested(s, i + |Printed(n)|, closes)
    decreases n, 0
  {
    var end := i + |Printed(n)|;
    match n
    case Bare(_) => assert s[i..i + 1][0] == s[i];
    case Quote(body) =>
      Inside(s, i, end, '"', body, '"');
      StringIsExact(s, i, end);
    case Group(open, items) =>
      Inside(s, i, end, open, PrintedAll(items), Close(open));
      hide Nested;
      GroupOpens(s, i, closes);
      NestsArePassed(s, i + 1, items, closes + [Close(open)]);
      GroupCloses(s, end - 1, closes, open);
  }

  lemma {:induction false} NestsArePassed(s: string, i: nat, ns: seq<Nest>, closes: string)
    requires GoodNests(ns) && closes != "" && i + |PrintedAll(ns)| <= |s| && s[i..i + |PrintedAll(ns)|] == PrintedAll(ns)
    ensures Nested(s, i, closes) == Nested(s, i + |PrintedAll(ns)|, closes)
    decreases ns, |ns|
  {
    hide Nested;
    if ns != [] {
      var text, first := PrintedAll(ns), Printed(ns[0]);
      var next := i + |first|;
      assert s[i..next] == text[..|first|] == first;
      assert s[next..i + |text|] == text[|first|..] == PrintedAll(ns[1..]);
      NestIsPassed(s, i, ns[0], closes);
      NestsArePassed(s, next, ns[1..], closes);
    }
  }

  lemma BracketsBalance(s: string, i: nat, end: nat) returns (items: seq<Nest>)
    requires i < |s| && (s[i] == '{' || s[i] == '[') && Nested(s, i, "") == Ok(end)
    ensures i < end <= |s| && GoodNests(items) && s[i..end] == Printed(Group(s[i], items))
  {
    var close := [Close(s[i])];
    GroupOpens(s, i, "");
    assert "" + close == close;
    var lists := NestedReads(s, i + 1, close, end);
    items := lists[0];
    assert Unwound(close[..0], lists[..0]) == "";
    assert Unwound(close, lists) == PrintedAll(items) + close + "";
    assert s[i..end] == [s[i]] + s[i + 1..end];
  }

  lemma BalanceIsFound(s: string, i: nat, end: nat, items: seq<Nest>)
    requires i < end <= |s| && (s[i] == '{' || s[i] == '[')
    requires GoodNests(items) && s[i..end] == Printed(Group(s[i], items))
    ensures Nested(s, i, "") == Ok(end)
  {
    hide Nested;
    var open := s[i];
    Inside(s, i, end, open, PrintedAll(items), Close(open));
    GroupOpens(s, i, "");
    NestsArePassed(s, i + 1, items, "" + [Close(open)]);
    GroupCloses(s, end - 1, "", open);
  }

  /** From an opening bracket the stack scanner stops exactly behind the bracket that balances it. */
  lemma BracketsAreExact(s: string, i: nat, end: nat)
    requires i < |s| && (s[i] == '{' || s[i] == '[')
    ensures Nested(s, i, "") == Ok(end) <==>
      i < end <= |s| && exists items: seq<Nest> :: GoodNests(items) && s[i..end] == Printed(Group(s[i], items))
  {
    hide Nested, GoodNests, Printed;
    if Nested(s, i, "") == Ok(end) {
      var items := BracketsBalance(s, i, end);
      assert GoodNests(items);
    }
    if i < end <= |s| {
      forall items: seq<Nest> | GoodNests(items) && s[i..end] == Printed(Group(s[i], items)) ensures Nested(s, i, "") == Ok(end) {
        BalanceIsFound(s, i, end, items);
      }
    }
  }

  // ----- members

  /** A member's key is a string, and a colon stands between it and its value. */
  lemma FieldHasShape(s: string, start: nat, decode: KeyReader)
    requires start <= |s| && ReadField(s, start, decode).Ok?
    ensures StringEnd(s, start).Ok?
    ensures var field, keyEnd := ReadField(s, start, decode).value, StringEnd(s, start).value;
      var colon := SkipSpace(s, keyEnd);
      && decode(s[start..keyEnd]) == Some(field.key)
      && colon < |s| && s[colon] == ':'
      && ValueEnd(s, SkipSpace(s, colon + 1)).Ok?
      && field.value == s[SkipSpace(s, colon + 1)..ValueEnd(s, SkipSpace(s, colon + 1)).value]
      && field.next == SkipSpace(s, ValueEnd(s, SkipSpace(s, colon + 1)).value)
  {
  }

  /** The members from `i` on: where each begins, a comma after each but the last, and a closing brace at the end. */
  ghost predicate Members(s: string, i: nat, decode: KeyReader, starts: seq<nat>, fields: seq<Field>)
    decreases |starts|
  {
    if |starts| != |fields| then false
    else if starts == [] then SkipSpace(s, i) < |s| && s[SkipSpace(s, i)] == '}'
    else
      && starts[0] == SkipSpace(s, i) && ReadField(s, starts[0], decode) == Ok(fields[0])
      && fields[0].next < |s|
      && (if s[fields[0].next] == '}' then |starts| == 1
          else s[fields[0].next] == ',' && Members(s, fields[0].next + 1, decode, starts[1..], fields[1..]))
  }

  ghost predicate RootMembers(s: string, decode: KeyReader, starts: seq<nat>, fields: seq<Field>) {
    Members(s, SkipSpace(s, 0) + 1, decode, starts, fields)
  }

  /** The values of the members with this key. */
  function Sought(fields: seq<Field>, key: string): seq<string> {
    if fields == [] then [] else (if fields[0].key == key then [fields[0].value] else []) + Sought(fields[1..], key)
  }

  lemma SpaceIsAhead(s: string, i: nat)
    ensures i <= SkipSpace(s, i)
  {
  }

  lemma {:induction false} MembersAreAccepted(
    s: string, i: nat, sought: string, decode: KeyReader, result: Option<string>) returns (starts: seq<nat>, fields: seq<Field>)
    requires RootFrom(s, i, sought, decode, result).Ok?
    ensures Members(s, i, decode, starts, fields)
    ensures |Sought(fields, sought)| <= if result.Some? then 0 else 1
    ensures RootFrom(s, i, sought, decode, result).value ==
      if Sought(fields, sought) == [] then result else Some(Sought(fields, sought)[0])
    decreases |s| - i
  {
    hide ReadField, SkipSpace;
    SpaceIsAhead(s, i);
    var start := SkipSpace(s, i);
    if start < |s| && s[start] == '}' {
      starts, fields := [], [];
    } else {
      var field := ReadField(s, start, decode).value;
      var found := if field.key == sought then Some(field.value) else result;
      if field.next < |s| && s[field.next] == '}' {
        starts, fields := [start], [field];
        assert fields[1..] == [];
      } else {
        var moreStarts, moreFields := MembersAreAccepted(s, field.next + 1, sought, decode, found);
        starts, fields := [start] + moreStarts, [field] + moreFields;
        assert starts[1..] == moreStarts && fields[1..] == moreFields;
      }
    }
  }

  /**
   Whatever text a root-level field is read from, well formed or not, begins with a brace, has members with commas between
   them and a brace behind them, and the field is the value of the only member of that name, absent without one.
   */
  lemma AcceptedRootHasMembers(s: string, sought: string, decode: KeyReader)
    requires Root(s, sought, decode).Ok?
    ensures SkipSpace(s, 0) < |s| && s[SkipSpace(s, 0)] == '{'
    ensures exists starts: seq<nat>, fields: seq<Field> ::
           && RootMembers(s, decode, starts, fields)
           && Root(s, sought, decode).value == (if Sought(fields, sought) == [] then None else Some(Sought(fields, sought)[0]))
           && |Sought(fields, sought)| <= 1
  {
    var starts, fields := MembersAreAccepted(s, SkipSpace(s, 0) + 1, sought, decode, None);
    assert RootMembers(s, decode, starts, fields);
  }

  // ----- numbers

  predicate AllDigits(text: string) {
    forall c <- text :: IsDigit(c)
  }

  lemma {:induction false} DigitsAreSkipped(s: string, i: nat)
    requires i <= |s|
    ensures var end := R.SkipDigits(s, i);
      AllDigits(s[i..end]) && (end < |s| ==> !IsDigit(s[end]))
    decreases |s| - i
  {
    if i < |s| && IsDigit(s[i]) {
      DigitsAreSkipped(s, i + 1);
      assert s[i..R.SkipDigits(s, i)] == [s[i]] + s[i + 1..R.SkipDigits(s, i)];
    }
  }

  /** The whole part of a number is the longest run of digits, and begins with a zero only if that is all of it. */
  lemma WholePartIsExact(s: string, i: nat, end: nat)
    requires i <= |s|
    ensures R.WholeEnd(s, i) == Ok(end) <==>
      && i < end <= |s| && AllDigits(s[i..end]) && (end < |s| ==> !IsDigit(s[end]))
      && (s[i] == '0' ==> end == i + 1)
  {
    DigitsAreSkipped(s, i);
    var run := R.SkipDigits(s, i);
    forall k | i <= k < run ensures IsDigit(s[k]) {
      DigitInside(s, i, run, k);
    }
    if i < end <= |s| && AllDigits(s[i..end]) {
      forall k | i <= k < end ensures IsDigit(s[k]) {
        DigitInside(s, i, end, k);
      }
    }
  }

  lemma DigitInside(s: string, i: nat, end: nat, k: nat)
    requires i <= k < end <= |s| && AllDigits(s[i..end])
    ensures IsDigit(s[k])
  {
    assert s[k] == s[i..end][k - i];
  }
}
