/** Reading a root-level unsigned integer out of a frame: `rootInteger` and `u64` of node/compat-host/src/protocol.ts. */
module JsonRootField {
  import opened Wrappers
  import opened JsonText
  import opened Slices
  import opened JsonStackScan

  /** JSON.parse applied to the text of an object key. */
  type KeyReader = string -> Option<string>

  // ----- what the loop of `rootInteger` computes

  /** One turn: the key, the text of its value, and where the value's trailing space ends. */
  datatype Field = Field(key: string, value: string, next: nat)

  function ReadValue(s: string, keyEnd: nat, key: string): (r: Result<Field, ScanError>)
    requires keyEnd <= |s|
    ensures r.Ok? ==> keyEnd < r.value.next <= |s|
  {
    var colon := SkipSpace(s, keyEnd);
    if colon >= |s| || s[colon] != ':' then Err(BadObject)
    else
      var start := SkipSpace(s, colon + 1);
      match ValueEnd(s, start)
      case Err(e) => Err(e)
      case Ok(end) => Ok(Field(key, s[start..end], SkipSpace(s, end)))
  }

  function ReadField(s: string, start: nat, decode: KeyReader): (r: Result<Field, ScanError>)
    ensures r.Ok? ==> start < r.value.next <= |s|
  {
    match StringEnd(s, start)
    case Err(e) => Err(e)
    case Ok(keyEnd) =>
      match decode(s[start..keyEnd])
      case None => Err(BadKeyText)
      case Some(key) => ReadValue(s, keyEnd, key)
  }

  function RootFrom(s: string, i: nat, sought: string, decode: KeyReader, result: Option<string>): Result<Option<string>, ScanError>
    decreases |s| - i
  {
    var start := SkipSpace(s, i);
    if start < |s| && s[start] == '}' then Ok(result)
    else
      match ReadField(s, start, decode)
      case Err(e) => Err(e)
      case Ok(field) => RootAfter(s, field, sought, decode, result)
  }

  /** The rest of a turn, once the member has been read. */
  function RootAfter(s: string, field: Field, sought: string, decode: KeyReader, result: Option<string>):
    Result<Option<string>, ScanError>
    requires field.next <= |s|
    decreases |s| - field.next
  {
    if field.key == sought && result.Some? then Err(Duplicate)
    else
      var found := if field.key == sought then Some(field.value) else result;
      if field.next < |s| && s[field.next] == '}' then Ok(found)
      else if field.next >= |s| || s[field.next] != ',' then Err(BadObject)
      else RootFrom(s, field.next + 1, sought, decode, found)
  }

  function Root(s: string, sought: string, decode: KeyReader): Result<Option<string>, ScanError> {
    var open := SkipSpace(s, 0);
    if open >= |s| || s[open] != '{' then Err(NotAnObject) else RootFrom(s, open + 1, sought, decode, None)
  }

  /** One turn up to the end of the member's value. */
  method ReadMember(s: string, keyStart: nat, decode: KeyReader) returns (r: Result<Field, ScanError>)
    ensures r == ReadField(s, keyStart, decode)
  {
    hide SkipSpace, StringEnd, ValueEnd;
    var keyEnd := ScanString(s, keyStart);
    if keyEnd.Err? {
      return Err(keyEnd.error);
    }
    var key := decode(s[keyStart..keyEnd.value]);
    if key.None? {
      return Err(BadKeyText);
    }
    var index := Whitespace(s, keyEnd.value);
    if index >= |s| || s[index] != ':' {
      return Err(BadObject);
    }
    index := Whitespace(s, index + 1);
    var end := ScanValue(s, index);
    if end.Err? {
      return Err(end.error);
    }
    var next := Whitespace(s, end.value);
    r := Ok(Field(key.value, s[index..end.value], next));
  }

  method RootInteger(s: string, sought: string, decode: KeyReader) returns (r: Result<Option<string>, ScanError>)
    ensures r == Root(s, sought, decode)
  {
    hide SkipSpace, ReadField;
    var index := Whitespace(s, 0);
    if index >= |s| || s[index] != '{' {
      return Err(NotAnObject);
    }
    index := index + 1;
    var result: Option<string> := None;
    while true
      invariant index <= |s|
      invariant RootFrom(s, index, sought, decode, result) == Root(s, sought, decode)
      decreases |s| - index
    {
      index := Whitespace(s, index);
      if index < |s| && s[index] == '}' {
        return Ok(result);
      }
      var field := ReadMember(s, index, decode);
      if field.Err? {
        return Err(field.error);
      }
      if field.value.key == sought {
        if result.Some? {
          return Err(Duplicate);
        }
        result := Some(field.value.value);
      }
      index := field.value.next;
      if index < |s| && s[index] == '}' {
        return Ok(result);
      }
      if index >= |s| || s[index] != ',' {
        return Err(BadObject);
      }
      index := index + 1;
    }
  }

  // ----- it reads the root-level members, and only those

  /** JSON.parse reads every well-formed string. */
  ghost predicate ReadsKeys(decode: KeyReader) {
    forall ps :: GoodPieces(ps) ==> decode(Quoted(ps)).Some?
  }

  /** The texts of the values the root object holds under `sought`. */
  function Values(ms: Members, sought: string, decode: KeyReader): (texts: seq<string>)
    decreases ms
  {
    if ms.NoMembers? then []
    else (if decode(Quoted(ms.key)) == Some(sought) then [Text(ms.value)] else []) + Values(ms.rest, sought, decode)
  }

  /** None, the only one, or a refusal of two. */
  function Only(texts: seq<string>): Result<Option<string>, ScanError> {
    if |texts| == 0 then Ok(None) else if |texts| == 1 then Ok(Some(texts[0])) else Err(Duplicate)
  }

  function Held(result: Option<string>): seq<string> {
    if result.None? then [] else [result.value]
  }

  /** Where the separator behind the first member stands, when its value starts at `at`. */
  function Behind(at: nat, ms: Members): nat
    requires ms.Member?
  {
    at + |Text(ms.value)| + |ms.after|
  }

  ghost predicate ValueStands(s: string, at: nat, ms: Members)
    requires ms.Member?
  {
    && Reads(s, at, Text(ms.value)) && Reads(s, at + |Text(ms.value)|, ms.after)
    && Behind(at, ms) < |s| && s[Behind(at, ms)] in ",}"
  }

  lemma ValueIsBounded(s: string, at: nat, ms: Members)
    requires ms.Member? && GoodMembers(ms) && ValueStands(s, at, ms)
    ensures at < |s| && !IsSpace(s[at]) && ValueEnd(s, at) == Ok(at + |Text(ms.value)|)
    ensures at + |Text(ms.value)| <= |s| && s[at..at + |Text(ms.value)|] == Text(ms.value)
    ensures SkipSpace(s, at + |Text(ms.value)|) == Behind(at, ms)
  {
    assert s[at..at + |Text(ms.value)|] == Text(ms.value);
    hide Reads, Text, SkipSpace, ValueEnd;
    var end := at + |Text(ms.value)|;
    ValueIsDelimited(s, end, ms.after);
    hide Delimited;
    ValueIsFound(s, at, ms.value);
    SpaceStops(s, end, ms.after);
  }

  lemma ValueIsRead(s: string, keyEnd: nat, ms: Members, key: string)
    requires ms.Member? && GoodMembers(ms) && Reads(s, keyEnd, ColonText(ms)) && keyEnd <= |s|
    requires ValueStands(s, keyEnd + |ColonText(ms)|, ms)
    ensures ReadValue(s, keyEnd, key) == Ok(Field(key, Text(ms.value), Behind(keyEnd + |ColonText(ms)|, ms)))
  {
    hide Reads, ColonText, Text, SkipSpace, ValueEnd, ValueStands, Behind, Good, GoodPieces;
    ValueIsBounded(s, keyEnd + |ColonText(ms)|, ms);
    ColonIsFound(s, keyEnd, ms);
  }

  lemma KeyIsFound(s: string, i: nat, ms: Members)
    requires ms.Member? && GoodMembers(ms) && Reads(s, i, KeyText(ms))
    ensures var start := i + |ms.before|; var keyEnd := start + |Quoted(ms.key)|;
            && SkipSpace(s, i) == start && StringEnd(s, start) == Ok(keyEnd)
            && start < keyEnd <= |s| && s[start] == '"' && s[start..keyEnd] == Quoted(ms.key)
            && Reads(s, keyEnd, ColonText(ms)) && keyEnd + |ColonText(ms)| == i + |KeyText(ms)|
  {
    KeyParts(s, i, ms);
    var start := i + |ms.before|;
    assert s[start..start + |Quoted(ms.key)|] == Quoted(ms.key);
    hide Reads, ColonText, KeyText, Quoted, StringEnd, SkipSpace;
    QuotedIsFound(s, start, ms.key);
    SpaceStops(s, i, ms.before);
  }

  /** One turn of the loop reads the first member. */
  lemma FieldIsRead(s: string, i: nat, ms: Members, decode: KeyReader)
    requires ms.Member? && GoodMembers(ms) && decode(Quoted(ms.key)).Some?
    requires Reads(s, i, KeyText(ms)) && ValueStands(s, i + |KeyText(ms)|, ms)
    ensures var start := SkipSpace(s, i);
            && start < |s| && s[start] != '}'
            && ReadField(s, start, decode)
            == Ok(Field(decode(Quoted(ms.key)).value, Text(ms.value), Behind(i + |KeyText(ms)|, ms)))
  {
    hide GoodMembers, Reads, ValueStands, Behind, ColonText, Text, ReadValue, KeyText, Quoted, StringEnd, SkipSpace;
    KeyIsFound(s, i, ms);
    ValueIsRead(s, i + |ms.before| + |Quoted(ms.key)|, ms, decode(Quoted(ms.key)).value);
  }

  lemma KeyDecodes(ms: Members, decode: KeyReader)
    requires ms.Member? && GoodMembers(ms) && ReadsKeys(decode)
    ensures decode(Quoted(ms.key)).Some?
  {
  }

  lemma {:induction false} MembersAreRead(s: string, i: nat, ms: Members, sought: string, decode: KeyReader, result: Option<string>)
    requires ms.Member? && GoodMembers(ms) && ReadsKeys(decode)
    requires Reads(s, i, MembersText(ms)) && Reads(s, i + |MembersText(ms)|, "}")
    ensures RootFrom(s, i, sought, decode, result) == Only(Held(result) + Values(ms, sought, decode))
    decreases ms
  {
    hide Reads, Text, MembersText, MembersTail, KeyText, ReadField, ReadsKeys, Quoted;
    MembersParts(s, i, ms);
    var next := i + |KeyText(ms)| + |Text(ms.value)| + |ms.after|;
    MembersTailStarts(s, next, ms.rest);
    KeyDecodes(ms, decode);
    FieldIsRead(s, i, ms, decode);
    var key := decode(Quoted(ms.key)).value;
    var field := Field(key, Text(ms.value), next);
    assert RootFrom(s, i, sought, decode, result) == RootAfter(s, field, sought, decode, result);
    if key == sought && result.Some? {
    } else {
      var found := if key == sought then Some(Text(ms.value)) else result;
      assert Held(result) + Values(ms, sought, decode) == Held(found) + Values(ms.rest, sought, decode);
      if ms.rest.Member? {
        MembersTailParts(s, next, ms.rest);
        MembersAreRead(s, next + 1, ms.rest, sought, decode, found);
      }
    }
  }

  lemma RootStands(before: string, v: Json, after: string)
    requires v.Obj?
    ensures var s := before + (Text(v) + after);
            var open := |before|;
            && Reads(s, 0, before) && Reads(s, open, "{") && Reads(s, open + 1, Inner(v)) && Reads(s, open + 1 + |Inner(v)|, "}")
  {
    var s := before + (Text(v) + after);
    assert Reads(s, 0, s);
    hide Reads, Text, Inner;
    ReadsSplit(s, 0, before, Text(v) + after);
    ReadsSplit(s, |before|, Text(v), after);
    BracketParts(s, |before|, v);
  }

  lemma RootMembers(s: string, open: nat, blank: string, ms: Members, sought: string, decode: KeyReader)
    requires Good(Obj(blank, ms)) && ReadsKeys(decode)
    requires Reads(s, open + 1, Inner(Obj(blank, ms))) && Reads(s, open + 1 + |Inner(Obj(blank, ms))|, "}")
    ensures RootFrom(s, open + 1, sought, decode, None) == Only(Values(ms, sought, decode))
  {
    hide Reads, RootFrom, MembersText, ReadsKeys, Only;
    if ms.Member? {
      MembersAreRead(s, open + 1, ms, sought, decode, None);
      assert Held(None) + Values(ms, sought, decode) == Values(ms, sought, decode);
    } else {
      EmptyRoot(s, open + 1, blank, sought, decode);
      assert Only([]) == Ok(None) by { OnlyNone(); }
    }
  }

  lemma OnlyNone()
    ensures Only([]) == Ok(None)
  {
  }

  /** For a well-formed root object, the field is the only root-level member of that name. */
  lemma RootReadsTheMember(before: string, blank: string, ms: Members, after: string, sought: string, decode: KeyReader)
    requires Blank(before) && Good(Obj(blank, ms)) && ReadsKeys(decode)
    ensures Root(before + (Text(Obj(blank, ms)) + after), sought, decode) == Only(Values(ms, sought, decode))
  {
    var v := Obj(blank, ms);
    RootStands(before, v, after);
    hide Reads, Text, Inner, RootFrom, SkipSpace, ReadsKeys, Values, Only;
    var s := before + (Text(v) + after);
    ReadsChar(s, |before|, '{');
    SpaceStops(s, 0, before);
    RootMembers(s, |before|, blank, ms, sought, decode);
  }

  lemma EmptyRoot(s: string, i: nat, blank: string, sought: string, decode: KeyReader)
    requires Blank(blank) && Reads(s, i, blank) && Reads(s, i + |blank|, "}")
    ensures RootFrom(s, i, sought, decode, None) == Ok(None)
  {
    ReadsChar(s, i + |blank|, '}');
    SpaceStops(s, i, blank);
  }

  // ----- the unsigned 64-bit integer in the field's text

  const MAX_U64: nat := 0xffff_ffff_ffff_ffff

  datatype IntegerError = Missing | Malformed | TooLarge

  function Digit(c: char): nat {
    if IsDigit(c) then c as nat - '0' as nat else 0
  }

  function Value(ds: string): nat {
    if ds == [] then 0 else 10 * Value(ds[..|ds| - 1]) + Digit(ds[|ds| - 1])
  }

  /** The regular expression `0|[1-9]\d{0,19}`. */
  predicate Canonical(t: string) {
    t == "0" || (1 <= |t| <= 20 && '1' <= t[0] <= '9' && forall i :: 1 <= i < |t| ==> IsDigit(t[i]))
  }

  function U64(source: Option<string>, required: bool): Result<Option<nat>, IntegerError> {
    if source.None? then (if required then Err(Missing) else Ok(None))
    else if !Canonical(source.value) then Err(Malformed)
    else if Value(source.value) > MAX_U64 then Err(TooLarge)
    else Ok(Some(Value(source.value)))
  }

  /** Decimal printing, without leading zeros. */
  function Decimal(n: nat): (t: string)
    ensures t != [] && Digits(t)
    ensures Value(t) == n
    ensures n > 0 ==> t[0] != '0'
  {
    if n < 10 then [('0' as nat + n) as char]
    else
      var t := Decimal(n / 10) + [('0' as nat + n % 10) as char];
      assert t[..|t| - 1] == Decimal(n / 10);
      t
  }

  function Power(k: nat): nat {
    if k == 0 then 1 else 10 * Power(k - 1)
  }

  lemma {:induction false} DecimalLength(n: nat, k: nat)
    requires n < Power(k + 1)
    ensures |Decimal(n)| <= k + 1
  {
    if k > 0 && n >= 10 {
      DecimalLength(n / 10, k - 1);
    }
  }

  lemma TwentyDigits()
    ensures MAX_U64 < Power(20)
  {
    assert Power(5) == 100000;
    assert Power(10) == 100000 * Power(5);
    assert Power(15) == 100000 * Power(10);
    assert Power(20) == 100000 * Power(15);
  }

  /** Digits without a leading zero are what printing gives for their value. */
  lemma {:induction false} PrintsBack(t: string)
    requires Digits(t) && (|t| > 1 ==> t[0] != '0')
    ensures Decimal(Value(t)) == t
    ensures |t| > 1 ==> Value(t) >= 10
    decreases |t|
  {
    var last := Digit(t[|t| - 1]);
    assert ('0' as nat + last) as char == t[|t| - 1];
    if |t| == 1 {
      assert t[..0] == [];
      assert t == [t[0]];
    } else {
      var front := t[..|t| - 1];
      assert Digits(front) && t == front + [t[|t| - 1]];
      PrintsBack(front);
      if |front| == 1 {
        assert front[..0] == [];
        assert Value(front) == Digit(front[0]) >= 1;
      }
      assert Value(t) / 10 == Value(front) && Value(t) % 10 == last;
    }
  }

  lemma CanonicalIsDecimal(t: string)
    requires Canonical(t)
    ensures t == Decimal(Value(t))
  {
    hide Value, Decimal;
    assert Digits(t);
    PrintsBack(t);
  }

  lemma DecimalIsCanonical(n: nat)
    requires n <= MAX_U64
    ensures Canonical(Decimal(n)) && Value(Decimal(n)) == n
  {
    hide Value, Power;
    TwentyDigits();
    DecimalLength(n, 19);
    if n > 0 {
      hide Decimal;
      assert Digits(Decimal(n)) && IsDigit(Decimal(n)[0]);
    }
  }

  /** `u64` accepts exactly the decimal texts of the numbers below 2^64. */
  lemma U64AcceptsCanonicalDecimals(t: string, required: bool, n: nat)
    ensures U64(Some(t), required) == Ok(Some(n)) <==> n <= MAX_U64 && t == Decimal(n)
  {
    hide Value, Decimal, Canonical;
    if Canonical(t) {
      CanonicalIsDecimal(t);
    }
    if n <= MAX_U64 && t == Decimal(n) {
      DecimalIsCanonical(n);
    }
  }

  lemma RootU64IsTheField(before: string, blank: string, ms: Members, after: string, sought: string, decode: KeyReader, required: bool, n: nat)
    requires Blank(before) && Good(Obj(blank, ms)) && ReadsKeys(decode)
    ensures var root := Root(before + (Text(Obj(blank, ms)) + after), sought, decode);
            (root.Ok? && U64(root.value, required) == Ok(Some(n))) <==> (n <= MAX_U64 && Values(ms, sought, decode) == [Decimal(n)])
  {
    hide Root, Values, U64, Decimal;
    RootReadsTheMember(before, blank, ms, after, sought, decode);
    var texts := Values(ms, sought, decode);
    if |texts| == 1 {
      U64AcceptsCanonicalDecimals(texts[0], required, n);
      assert texts == [texts[0]];
    } else if |texts| == 0 {
      NoFieldNoNumber(required);
    }
  }

  lemma NoFieldNoNumber(required: bool)
    ensures U64(None, required) == if required then Err(Missing) else Ok(None)
  {
  }
}
