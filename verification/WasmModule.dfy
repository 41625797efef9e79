/**
 The binary module parser of crates/tessivum-extism/src/lib.rs: what it computes, and the class that reads
 the bytes. Section 5.5 of the WebAssembly Core Specification gives the module format.
 */
module WasmModule {
  import opened Leb128
  import opened Slices
  import opened Wrappers

  // ----- single items

  function ByteAt(b: seq<byte>, i: nat, end: nat): (r: Option<Read<byte>>)
    requires i <= end <= |b|
    ensures r.Some? ==> i < r.value.next <= end
  {
    if i == end then None else Some(Read(b[i], i + 1))
  }

  function BytesAt(b: seq<byte>, i: nat, end: nat, length: nat): (r: Option<Read<seq<byte>>>)
    requires i <= end <= |b|
    ensures r.Some? ==> i <= r.value.next <= end
  {
    if i + length > end then None else Some(Read(b[i..i + length], i + length))
  }

  /** A length and that many bytes. */
  function BlockAt(b: seq<byte>, i: nat, end: nat): (r: Option<Read<seq<byte>>>)
    requires i <= end <= |b|
    ensures r.Some? ==> i < r.value.next <= end
  {
    match U32(b, i, end)
    case None => None
    case Some(length) => BytesAt(b, length.next, end, length.value)
  }

  predicate Continues(s: seq<byte>, k: nat) {
    k < |s| && 0x80 <= s[k] < 0xc0
  }

  /** Well-formed UTF-8, section 4 of RFC 3629. */
  predicate Utf8(s: seq<byte>) {
    if s == [] then true
    else if s[0] < 0x80 then Utf8(s[1..])
    else if 0xc2 <= s[0] < 0xe0 then Continues(s, 1) && Utf8(s[2..])
    else if 0xe0 <= s[0] < 0xf0 then
      && Continues(s, 1) && Continues(s, 2)
      && (s[0] == 0xe0 ==> s[1] >= 0xa0) && (s[0] == 0xed ==> s[1] < 0xa0)
      && Utf8(s[3..])
    else
      && 0xf0 <= s[0] < 0xf5 && Continues(s, 1) && Continues(s, 2) && Continues(s, 3)
      && (s[0] == 0xf0 ==> s[1] >= 0x90) && (s[0] == 0xf4 ==> s[1] < 0x90)
      && Utf8(s[4..])
  }

  function NameAt(b: seq<byte>, i: nat, end: nat): (r: Option<Read<seq<byte>>>)
    requires i <= end <= |b|
    ensures r.Some? ==> i < r.value.next <= end
  {
    var name := BlockAt(b, i, end);
    if name.Some? && Utf8(name.value.value) then name else None
  }

  // ----- entries of the four sections the parser reads

  datatype Signature = Signature(parameters: seq<byte>, results: seq<byte>)

  datatype Entry =
    | Type(signature: Signature)
    | Function(typeIndex: nat)
    | Export(name: seq<byte>, kind: byte, index: nat)

  const TYPES: byte := 1
  const IMPORTS: byte := 2
  const FUNCTIONS: byte := 3
  const EXPORTS: byte := 7
  const FUNCTION_TYPE: byte := 0x60

  predicate Parsed(id: byte) {
    id == TYPES || id == IMPORTS || id == FUNCTIONS || id == EXPORTS
  }

  function TypeAt(b: seq<byte>, i: nat, end: nat): (r: Option<Read<Entry>>)
    requires i <= end <= |b|
    ensures r.Some? ==> i < r.value.next <= end
  {
    var form := ByteAt(b, i, end);
    if form.None? || form.value.value != FUNCTION_TYPE then None
    else
      match BlockAt(b, form.value.next, end)
      case None => None
      case Some(parameters) =>
        match BlockAt(b, parameters.next, end)
        case None => None
        case Some(results) => Some(Read(Type(Signature(parameters.value, results.value)), results.next))
  }

  function FunctionAt(b: seq<byte>, i: nat, end: nat): (r: Option<Read<Entry>>)
    requires i <= end <= |b|
    ensures r.Some? ==> i < r.value.next <= end
  {
    match U32(b, i, end)
    case None => None
    case Some(index) => Some(Read(Function(index.value), index.next))
  }

  /** An import adds a function; its two names are checked and dropped. */
  function ImportAt(b: seq<byte>, i: nat, end: nat): (r: Option<Read<Entry>>)
    requires i <= end <= |b|
    ensures r.Some? ==> i < r.value.next <= end
  {
    match NameAt(b, i, end)
    case None => None
    case Some(host) =>
      match NameAt(b, host.next, end)
      case None => None
      case Some(field) =>
        var kind := ByteAt(b, field.next, end);
        if kind.None? || kind.value.value != 0 then None else FunctionAt(b, kind.value.next, end)
  }

  function ExportAt(b: seq<byte>, i: nat, end: nat): (r: Option<Read<Entry>>)
    requires i <= end <= |b|
    ensures r.Some? ==> i < r.value.next <= end
  {
    match NameAt(b, i, end)
    case None => None
    case Some(name) =>
      match ByteAt(b, name.next, end)
      case None => None
      case Some(kind) =>
        match U32(b, kind.next, end)
        case None => None
        case Some(index) => Some(Read(Export(name.value, kind.value, index.value), index.next))
  }

  function EntryAt(id: byte, b: seq<byte>, i: nat, end: nat): (r: Option<Read<Entry>>)
    requires i <= end <= |b|
    ensures r.Some? ==> i < r.value.next <= end
  {
    if id == TYPES then TypeAt(b, i, end)
    else if id == IMPORTS then ImportAt(b, i, end)
    else if id == FUNCTIONS then FunctionAt(b, i, end)
    else ExportAt(b, i, end)
  }

  // ----- the tables they fill

  datatype Tables = Tables(types: seq<Signature>, functions: seq<nat>, exports: map<seq<byte>, nat>)

  const EMPTY := Tables([], [], map[])

  /** Only function exports are kept; a second one of the same name is an error. */
  function Apply(t: Tables, e: Entry): Option<Tables> {
    match e
    case Type(signature) => Some(t.(types := t.types + [signature]))
    case Function(typeIndex) => Some(t.(functions := t.functions + [typeIndex]))
    case Export(name, kind, index) =>
      if kind != 0 then Some(t)
      else if name in t.exports then None
      else Some(t.(exports := t.exports[name := index]))
  }

  /** The loop over `count` entries. */
  function EntriesAt(id: byte, b: seq<byte>, i: nat, end: nat, count: nat, t: Tables): (r: Option<Read<Tables>>)
    requires i <= end <= |b|
    ensures r.Some? ==> i <= r.value.next <= end
    decreases count
  {
    if count == 0 then Some(Read(t, i))
    else
      match EntryAt(id, b, i, end)
      case None => None
      case Some(entry) =>
        match Apply(t, entry.value)
        case None => None
        case Some(t') => EntriesAt(id, b, entry.next, end, count - 1, t')
  }

  /** A whole section body; sections of other ids are skipped. */
  function BodyAt(id: byte, b: seq<byte>, i: nat, end: nat, t: Tables): Option<Tables>
    requires i <= end <= |b|
  {
    if !Parsed(id) then Some(t)
    else
      match U32(b, i, end)
      case None => None
      case Some(count) =>
        match EntriesAt(id, b, count.next, end, count.value, t)
        case None => None
        case Some(read) => if read.next == end then Some(read.value) else None
  }

  function SectionAt(b: seq<byte>, i: nat, t: Tables): (r: Option<Read<Tables>>)
    requires i <= |b|
    ensures r.Some? ==> i < r.value.next <= |b|
  {
    match ByteAt(b, i, |b|)
    case None => None
    case Some(id) =>
      match U32(b, id.next, |b|)
      case None => None
      case Some(size) =>
        var end := size.next + size.value;
        if end > |b| then None
        else
          match BodyAt(id.value, b, size.next, end, t)
          case None => None
          case Some(t') => Some(Read(t', end))
  }

  function SectionsAt(b: seq<byte>, i: nat, t: Tables): Option<Tables>
    requires i <= |b|
    decreases |b| - i
  {
    if i == |b| then Some(t)
    else
      match SectionAt(b, i, t)
      case None => None
      case Some(read) => SectionsAt(b, read.next, read.value)
  }

  const MAGIC: seq<byte> := [0, 0x61, 0x73, 0x6d, 1, 0, 0, 0]

  predicate IndicesHold(t: Tables) {
    forall name <- t.exports :: t.exports[name] < |t.functions| && t.functions[t.exports[name]] < |t.types|
  }

  /** Every function export with the signature its function's type gives it. */
  function Signatures(t: Tables): map<seq<byte>, Signature>
    requires IndicesHold(t)
  {
    map name <- t.exports :: t.types[t.functions[t.exports[name]]]
  }

  function FunctionExports(b: seq<byte>): Option<map<seq<byte>, Signature>> {
    if |b| < 8 || b[..8] != MAGIC then None
    else
      match SectionsAt(b, 8, EMPTY)
      case None => None
      case Some(t) => if IndicesHold(t) then Some(Signatures(t)) else None
  }

  // ----- the reader

  /** What a read returned, together with where it left the cursor. */
  function Outcome<T>(r: Option<T>, offset: nat): Option<Read<T>> {
    if r.None? then None else Some(Read(r.value, offset))
  }

  class WasmReader {
    const source: seq<byte>
    const end: nat
    var offset: nat

    /** The cursor never leaves the section. */
    ghost predicate Valid()
      reads this
    {
      offset <= end <= |source|
    }

    constructor (source: seq<byte>, offset: nat, end: nat)
      requires offset <= end <= |source|
      ensures Valid() && this.source == source && this.offset == offset && this.end == end
    {
      this.source, this.offset, this.end := source, offset, end;
    }

    method Byte() returns (r: Option<byte>)
      requires Valid()
      modifies this
      ensures Valid()
      ensures Outcome(r, offset) == ByteAt(source, old(offset), end)
    {
      if offset == end {
        return None;
      }
      r := Some(source[offset]);
      offset := offset + 1;
    }

    method Bytes(length: nat) returns (r: Option<seq<byte>>)
      requires Valid()
      modifies this
      ensures Valid()
      ensures Outcome(r, offset) == BytesAt(source, old(offset), end, length)
    {
      var stop := offset + length;
      if stop > end {
        return None;
      }
      r := Some(source[offset..stop]);
      offset := stop;
    }

    method Integer() returns (r: Option<nat>)
      requires Valid()
      modifies this
      ensures Valid()
      ensures Outcome(r, offset) == U32(source, old(offset), end)
    {
      hide WithPayload;
      var value: nat, scale: nat := 0, 1;
      for index := 0 to 5
        invariant Valid()
        invariant U32From(source, offset, end, index, scale, value) == U32(source, old(offset), end)
      {
        var byte := Byte();
        if byte.None? {
          return None;
        }
        if index == 4 && byte.value % 0x80 > 0x0f {
          return None;
        }
        value := WithPayload(value, byte.value, scale);
        if byte.value < 0x80 {
          return Some(value);
        }
        scale := scale * 0x80;
      }
      r := None;
    }

    method Block() returns (r: Option<seq<byte>>)
      requires Valid()
      modifies this
      ensures Valid()
      ensures Outcome(r, offset) == BlockAt(source, old(offset), end)
    {
      var length := Integer();
      if length.None? {
        return None;
      }
      r := Bytes(length.value);
    }

    method Name() returns (r: Option<seq<byte>>)
      requires Valid()
      modifies this
      ensures Valid()
      ensures Outcome(r, offset) == NameAt(source, old(offset), end)
    {
      r := Block();
      if r.Some? && !Utf8(r.value) {
        r := None;
      }
    }

    method TypeEntry() returns (r: Option<Entry>)
      requires Valid()
      modifies this
      ensures Valid()
      ensures Outcome(r, offset) == TypeAt(source, old(offset), end)
    {
      hide BlockAt;
      var form := Byte();
      if form.None? || form.value != FUNCTION_TYPE {
        return None;
      }
      var parameters := Block();
      if parameters.None? {
        return None;
      }
      var results := Block();
      if results.None? {
        return None;
      }
      r := Some(Type(Signature(parameters.value, results.value)));
    }

    method FunctionEntry() returns (r: Option<Entry>)
      requires Valid()
      modifies this
      ensures Valid()
      ensures Outcome(r, offset) == FunctionAt(source, old(offset), end)
    {
      var index := Integer();
      r := if index.None? then None else Some(Function(index.value));
    }

    method ImportEntry() returns (r: Option<Entry>)
      requires Valid()
      modifies this
      ensures Valid()
      ensures Outcome(r, offset) == ImportAt(source, old(offset), end)
    {
      hide NameAt, FunctionAt;
      var host := Name();
      if host.None? {
        return None;
      }
      var field := Name();
      if field.None? {
        return None;
      }
      var kind := Byte();
      if kind.None? || kind.value != 0 {
        return None;
      }
      r := FunctionEntry();
    }

    method ExportEntry() returns (r: Option<Entry>)
      requires Valid()
      modifies this
      ensures Valid()
      ensures Outcome(r, offset) == ExportAt(source, old(offset), end)
    {
      hide NameAt, U32;
      var name := Name();
      if name.None? {
        return None;
      }
      var kind := Byte();
      if kind.None? {
        return None;
      }
      var index := Integer();
      r := if index.None? then None else Some(Export(name.value, kind.value, index.value));
    }

    method ReadEntry(id: byte) returns (r: Option<Entry>)
      requires Valid() && Parsed(id)
      modifies this
      ensures Valid()
      ensures Outcome(r, offset) == EntryAt(id, source, old(offset), end)
    {
      hide TypeAt, ImportAt, FunctionAt, ExportAt;
      if id == TYPES {
        r := TypeEntry();
      } else if id == IMPORTS {
        r := ImportEntry();
      } else if id == FUNCTIONS {
        r := FunctionEntry();
      } else {
        r := ExportEntry();
      }
    }

    method ReadBody(id: byte, tables: Tables) returns (r: Option<Tables>)
      requires Valid()
      modifies this
      ensures Valid()
      ensures r == BodyAt(id, source, old(offset), end, tables)
    {
      hide EntryAt, Apply, U32;
      if !Parsed(id) {
        offset := end;
        return Some(tables);
      }
      var count := Integer();
      if count.None? {
        return None;
      }
      ghost var first := offset;
      var t := tables;
      for n := 0 to count.value
        invariant Valid()
        invariant EntriesAt(id, source, offset, end, count.value - n, t) == EntriesAt(id, source, first, end, count.value, tables)
      {
        var entry := ReadEntry(id);
        if entry.None? {
          return None;
        }
        var next := Apply(t, entry.value);
        if next.None? {
          return None;
        }
        t := next.value;
      }
      r := if offset == end then Some(t) else None;
    }
  }

  method WasmFunctionExports(wasm: seq<byte>) returns (r: Option<map<seq<byte>, Signature>>)
    ensures r == FunctionExports(wasm)
  {
    hide BodyAt, U32, Signatures, IndicesHold;
    var reader := new WasmReader(wasm, 0, |wasm|);
    var magic := reader.Bytes(4);
    if magic.None? || magic.value != MAGIC[..4] {
      MagicSplits(wasm);
      return None;
    }
    var version := reader.Bytes(4);
    MagicSplits(wasm);
    if version.None? || version.value != MAGIC[4..] {
      return None;
    }
    var tables := EMPTY;
    while reader.offset < reader.end
      invariant fresh(reader) && reader.Valid() && reader.source == wasm && reader.end == |wasm|
      invariant SectionsAt(wasm, reader.offset, tables) == SectionsAt(wasm, 8, EMPTY)
      decreases reader.end - reader.offset
    {
      var id := reader.Byte();
      var length := reader.Integer();
      if length.None? || reader.offset + length.value > reader.end {
        return None;
      }
      var end := reader.offset + length.value;
      var section := new WasmReader(wasm, reader.offset, end);
      var body := section.ReadBody(id.value, tables);
      if body.None? {
        return None;
      }
      tables := body.value;
      reader.offset := end;
    }
    r := if IndicesHold(tables) then Some(Signatures(tables)) else None;
  }

  lemma MagicSplits(wasm: seq<byte>)
    ensures (|wasm| >= 8 && wasm[..8] == MAGIC) <==> (|wasm| >= 8 && wasm[0..4] == MAGIC[..4] && wasm[4..8] == MAGIC[4..])
  {
    if |wasm| >= 8 {
      assert wasm[..8] == wasm[0..4] + wasm[4..8];
      assert MAGIC == MAGIC[..4] + MAGIC[4..];
      assert wasm[..8][..4] == wasm[0..4] && wasm[..8][4..] == wasm[4..8];
    }
  }

  // ----- the exports every guest must have

  const MAX_WASM_BYTES: nat := 0x80_0000

  function Ascii(name: string): seq<byte> {
    seq(|name|, k requires 0 <= k < |name| => (name[k] as nat % 0x80) as byte)
  }

  const GUEST_EXPORTS: seq<seq<byte>> :=
    [Ascii("cordis_init"), Ascii("cordis_call"), Ascii("cordis_event"), Ascii("cordis_update"), Ascii("cordis_stop")]

  /** The type () -> i32. */
  const GUEST_TYPE := Signature([], [0x7f])

  datatype ManifestError = ModuleInvalid | ExportMissing(which: nat) | ExportInvalid(which: nat)

  predicate HasGuestExport(exports: map<seq<byte>, Signature>, which: nat)
    requires which < |GUEST_EXPORTS|
  {
    GUEST_EXPORTS[which] in exports && exports[GUEST_EXPORTS[which]] == GUEST_TYPE
  }

  predicate Readable(wasm: seq<byte>) {
    |wasm| <= MAX_WASM_BYTES && FunctionExports(wasm).Some?
  }

  predicate AcceptedGuest(wasm: seq<byte>) {
    Readable(wasm) && forall k :: 0 <= k < |GUEST_EXPORTS| ==> HasGuestExport(FunctionExports(wasm).value, k)
  }

  /** The first export that is missing, or of another type, decides the error. */
  method ValidateWasmExports(wasm: seq<byte>) returns (error: Option<ManifestError>)
    ensures error.None? <==> AcceptedGuest(wasm)
    ensures error == Some(ModuleInvalid) <==> |wasm| > MAX_WASM_BYTES || FunctionExports(wasm).None?
    ensures error.Some? && !error.value.ModuleInvalid? ==>
              var which := error.value.which;
              && which < |GUEST_EXPORTS| && !HasGuestExport(FunctionExports(wasm).value, which)
              && (error.value.ExportMissing? <==> GUEST_EXPORTS[which] !in FunctionExports(wasm).value)
              && forall k :: 0 <= k < which ==> HasGuestExport(FunctionExports(wasm).value, k)
  {
    if |wasm| > MAX_WASM_BYTES {
      return Some(ModuleInvalid);
    }
    var exports := WasmFunctionExports(wasm);
    if exports.None? {
      return Some(ModuleInvalid);
    }
    for which := 0 to |GUEST_EXPORTS|
      invariant forall k :: 0 <= k < which ==> HasGuestExport(exports.value, k)
    {
      assert HasGuestExport(exports.value, which) <==>
               GUEST_EXPORTS[which] in exports.value && exports.value[GUEST_EXPORTS[which]] == GUEST_TYPE;
      if GUEST_EXPORTS[which] !in exports.value {
        return Some(ExportMissing(which));
      }
      if exports.value[GUEST_EXPORTS[which]] != GUEST_TYPE {
        return Some(ExportInvalid(which));
      }
    }
    error := None;
  }
}
