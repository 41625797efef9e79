/** The parser reads back every printed module, and accepts nothing else. */
module WasmRoundTrip {
  import opened Leb128
  import opened Slices
  import opened WasmModule
  import opened WasmSyntax
  import opened Wrappers

  // ----- printed items are read back

  lemma BlockIsRead(b: seq<byte>, i: nat, end: nat, block: Block)
    requires GoodBlock(block) && Reads(b, i, BlockBytes(block)) && i + |BlockBytes(block)| <= end <= |b|
    ensures BlockAt(b, i, end) == Some(Read(block.content, i + |BlockBytes(block)|))
  {
    ReadsSplit(b, i, block.length, block.content);
    U32IsFound(b, i, end, block.length);
  }

  lemma NameIsRead(b: seq<byte>, i: nat, end: nat, block: Block)
    requires GoodName(block) && Reads(b, i, BlockBytes(block)) && i + |BlockBytes(block)| <= end <= |b|
    ensures NameAt(b, i, end) == Some(Read(block.content, i + |BlockBytes(block)|))
  {
    BlockIsRead(b, i, end, block);
  }

  lemma ByteIsRead(b: seq<byte>, i: nat, end: nat, x: byte)
    requires Reads(b, i, [x]) && i < end <= |b|
    ensures ByteAt(b, i, end) == Some(Read(x, i + 1))
  {
    ReadsChar(b, i, x);
  }

  lemma TypeIsRead(b: seq<byte>, i: nat, end: nat, item: Item)
    requires item.TypeItem? && GoodItem(TYPES, item) && Reads(b, i, ItemBytes(item)) && i + |ItemBytes(item)| <= end <= |b|
    ensures TypeAt(b, i, end) == Some(Read(Meaning(item), i + |ItemBytes(item)|))
  {
    hide Reads, BlockBytes, BlockAt, ByteAt, GoodBlock;
    var parameters, results := BlockBytes(item.parameters), BlockBytes(item.results);
    ReadsSplit(b, i, [FUNCTION_TYPE], parameters + results);
    ReadsSplit(b, i + 1, parameters, results);
    ByteIsRead(b, i, end, FUNCTION_TYPE);
    BlockIsRead(b, i + 1, end, item.parameters);
    BlockIsRead(b, i + 1 + |parameters|, end, item.results);
  }

  lemma FunctionIsRead(b: seq<byte>, i: nat, end: nat, index: Integer)
    requires IsInteger(index) && Reads(b, i, index) && i + |index| <= end <= |b|
    ensures FunctionAt(b, i, end) == Some(Read(Function(Number(index)), i + |index|))
  {
    U32IsFound(b, i, end, index);
  }

  lemma ImportIsRead(b: seq<byte>, i: nat, end: nat, item: Item)
    requires item.ImportItem? && GoodItem(IMPORTS, item) && Reads(b, i, ItemBytes(item)) && i + |ItemBytes(item)| <= end <= |b|
    ensures ImportAt(b, i, end) == Some(Read(Meaning(item), i + |ItemBytes(item)|))
  {
    hide Reads, BlockBytes, NameAt, ByteAt, FunctionAt, GoodName, IsInteger;
    var host, field := BlockBytes(item.host), BlockBytes(item.field);
    ReadsSplit(b, i, host, field + ([0] + item.typeIndex));
    ReadsSplit(b, i + |host|, field, [0] + item.typeIndex);
    ReadsSplit(b, i + |host| + |field|, [0], item.typeIndex);
    NameIsRead(b, i, end, item.host);
    NameIsRead(b, i + |host|, end, item.field);
    ByteIsRead(b, i + |host| + |field|, end, 0);
    FunctionIsRead(b, i + |host| + |field| + 1, end, item.typeIndex);
  }

  lemma ExportIsRead(b: seq<byte>, i: nat, end: nat, item: Item)
    requires item.ExportItem? && GoodItem(EXPORTS, item) && Reads(b, i, ItemBytes(item)) && i + |ItemBytes(item)| <= end <= |b|
    ensures ExportAt(b, i, end) == Some(Read(Meaning(item), i + |ItemBytes(item)|))
  {
    hide Reads, BlockBytes, NameAt, ByteAt, U32, GoodName;
    var name := BlockBytes(item.name);
    ReadsSplit(b, i, name, [item.kind] + item.index);
    ReadsSplit(b, i + |name|, [item.kind], item.index);
    NameIsRead(b, i, end, item.name);
    ByteIsRead(b, i + |name|, end, item.kind);
    U32IsFound(b, i + |name| + 1, end, item.index);
  }

  lemma ItemIsRead(id: byte, b: seq<byte>, i: nat, end: nat, item: Item)
    requires GoodItem(id, item) && Reads(b, i, ItemBytes(item)) && i + |ItemBytes(item)| <= end <= |b|
    ensures EntryAt(id, b, i, end) == Some(Read(Meaning(item), i + |ItemBytes(item)|))
  {
    hide Reads, TypeAt, ImportAt, FunctionAt, ExportAt, BlockBytes;
    match item
    case TypeItem(_, _) => TypeIsRead(b, i, end, item);
    case ImportItem(_, _, _) => ImportIsRead(b, i, end, item);
    case FunctionItem(index) => FunctionIsRead(b, i, end, index);
    case ExportItem(_, _, _) => ExportIsRead(b, i, end, item);
  }

  lemma {:induction false} ItemsAreRead(id: byte, b: seq<byte>, i: nat, end: nat, items: seq<Item>, t: Tables)
    requires GoodItems(id, items) && Reads(b, i, ItemsBytes(items)) && i + |ItemsBytes(items)| <= end <= |b|
    ensures EntriesAt(id, b, i, end, |items|, t) == Outcome(ApplyAll(t, Meanings(items)), i + |ItemsBytes(items)|)
    decreases |items|
  {
    hide Reads, EntryAt, Apply, ItemBytes, Meaning, GoodItem;
    if items != [] {
      ReadsSplit(b, i, ItemBytes(items[0]), ItemsBytes(items[1..]));
      ItemIsRead(id, b, i, end, items[0]);
      var t1 := Apply(t, Meaning(items[0]));
      assert Meanings(items)[0] == Meaning(items[0]) && Meanings(items)[1..] == Meanings(items[1..]);
      if t1.Some? {
        ItemsAreRead(id, b, i + |ItemBytes(items[0])|, end, items[1..], t1.value);
      }
    }
  }

  lemma BodyIsRead(b: seq<byte>, i: nat, s: Section, t: Tables)
    requires GoodSection(s) && Reads(b, i, Body(s))
    ensures BodyAt(s.id, b, i, i + |Body(s)|, t) == ApplyAll(t, SectionEntries(s))
  {
    hide Reads, U32, EntriesAt, ItemsBytes, GoodItems, Meanings;
    if s.Vector? {
      var end := i + |Body(s)|;
      assert end <= |b| by { BodyInside(b, i, s); }
      ReadsSplit(b, i, s.count, ItemsBytes(s.items));
      U32IsFound(b, i, end, s.count);
      ItemsAreRead(s.id, b, i + |s.count|, end, s.items, t);
    } else {
      BodyInside(b, i, s);
    }
  }

  lemma BodyInside(b: seq<byte>, i: nat, s: Section)
    requires Reads(b, i, Body(s))
    ensures i + |Body(s)| <= |b|
  {
  }

  lemma SectionIsRead(b: seq<byte>, i: nat, s: Section, t: Tables)
    requires GoodSection(s) && Reads(b, i, SectionBytes(s)) && i <= |b|
    ensures SectionAt(b, i, t) == Outcome(ApplyAll(t, SectionEntries(s)), i + |SectionBytes(s)|)
  {
    hide Reads, U32, Body, BodyAt, SectionEntries;
    ReadsSplit(b, i, [s.id], s.size + Body(s));
    ReadsSplit(b, i + 1, s.size, Body(s));
    ReadsChar(b, i, s.id);
    BodyInside(b, i + 1 + |s.size|, s);
    U32IsFound(b, i + 1, |b|, s.size);
    BodyIsRead(b, i + 1 + |s.size|, s, t);
  }

  lemma {:induction false} SectionsAreRead(b: seq<byte>, i: nat, ss: seq<Section>, t: Tables)
    requires GoodSections(ss) && Reads(b, i, SectionsBytes(ss)) && i + |SectionsBytes(ss)| == |b|
    ensures SectionsAt(b, i, t) == ApplyAll(t, Entries(ss))
    decreases |ss|
  {
    hide Reads, SectionAt, SectionBytes, SectionEntries, GoodSection;
    if ss != [] {
      ReadsSplit(b, i, SectionBytes(ss[0]), SectionsBytes(ss[1..]));
      SectionIsRead(b, i, ss[0], t);
      ApplyJoins(t, SectionEntries(ss[0]), Entries(ss[1..]));
      SectionIsNotEmpty(ss[0]);
      var t1 := ApplyAll(t, SectionEntries(ss[0]));
      if t1.Some? {
        SectionsAreRead(b, i + |SectionBytes(ss[0])|, ss[1..], t1.value);
      }
    }
  }

  lemma SectionIsNotEmpty(s: Section)
    ensures |SectionBytes(s)| > 0
  {
  }

  /**
   Round trip: a printed module is accepted exactly when its function exports have distinct names and existing
   functions and types; the result then lists each of them with its declared signature.
   */
  lemma PrintedModuleIsParsed(ss: seq<Section>)
    requires GoodSections(ss)
    ensures FunctionExports(ModuleBytes(ss)).Some? <==> Resolved(Entries(ss))
    ensures Resolved(Entries(ss)) ==> Lists(FunctionExports(ModuleBytes(ss)).value, Entries(ss))
  {
    var b := ModuleBytes(ss);
    assert b[..8] == MAGIC;
    assert b[8..8 + |SectionsBytes(ss)|] == SectionsBytes(ss);
    assert Reads(b, 8, SectionsBytes(ss));
    hide ModuleBytes, SectionsAt, SectionsBytes, Entries, ApplyAll, IndicesHold, Resolved, Lists, Reads;
    SectionsAreRead(b, 8, ss, EMPTY);
    var es := Entries(ss);
    FoldResolves(es);
  }

  lemma FoldResolves(es: seq<Entry>)
    ensures var t := ApplyAll(EMPTY, es);
            && (Resolved(es) <==> t.Some? && IndicesHold(t.value))
            && (Resolved(es) ==> Lists(Signatures(t.value), es))
  {
    hide ApplyAll, IndicesHold, Resolves, Lists, Signatures, Adds;
    FoldFillsTables(EMPTY, es);
    if DistinctNames(es) {
      TablesResolve(es, ApplyAll(EMPTY, es).value);
    }
  }

  // ----- whatever is accepted is printed from syntax

  lemma ScannedBlock(b: seq<byte>, i: nat, end: nat) returns (block: Block)
    requires i <= end <= |b| && BlockAt(b, i, end).Some?
    ensures GoodBlock(block) && Reads(b, i, BlockBytes(block))
    ensures BlockAt(b, i, end) == Some(Read(block.content, i + |BlockBytes(block)|))
  {
    var length := ScannedU32(b, i, end);
    var at := i + |length|;
    block := Block(length, b[at..at + U32(b, i, end).value.value]);
    assert Reads(b, at, block.content);
    ReadsSplit(b, i, length, block.content);
  }

  lemma ScannedType(b: seq<byte>, i: nat, end: nat) returns (item: Item)
    requires i <= end <= |b| && TypeAt(b, i, end).Some?
    ensures item.TypeItem? && GoodItem(TYPES, item) && Reads(b, i, ItemBytes(item))
    ensures TypeAt(b, i, end).value.next == i + |ItemBytes(item)|
  {
    hide Reads, BlockAt, BlockBytes, GoodBlock;
    ReadsOne(b, i);
    var parameters := ScannedBlock(b, i + 1, end);
    var results := ScannedBlock(b, i + 1 + |BlockBytes(parameters)|, end);
    item := TypeItem(parameters, results);
    ReadsSplit(b, i + 1, BlockBytes(parameters), BlockBytes(results));
    ReadsSplit(b, i, [FUNCTION_TYPE], BlockBytes(parameters) + BlockBytes(results));
  }

  lemma ScannedFunction(b: seq<byte>, i: nat, end: nat) returns (index: Integer)
    requires i <= end <= |b| && FunctionAt(b, i, end).Some?
    ensures IsInteger(index) && Reads(b, i, index) && FunctionAt(b, i, end).value.next == i + |index|
  {
    index := ScannedU32(b, i, end);
  }

  lemma ScannedName(b: seq<byte>, i: nat, end: nat) returns (name: Block)
    requires i <= end <= |b| && NameAt(b, i, end).Some?
    ensures GoodName(name) && Reads(b, i, BlockBytes(name)) && NameAt(b, i, end).value.next == i + |BlockBytes(name)|
  {
    name := ScannedBlock(b, i, end);
  }

  lemma ScannedImport(b: seq<byte>, i: nat, end: nat) returns (item: Item)
    requires i <= end <= |b| && ImportAt(b, i, end).Some?
    ensures item.ImportItem? && GoodItem(IMPORTS, item) && Reads(b, i, ItemBytes(item))
    ensures ImportAt(b, i, end).value.next == i + |ItemBytes(item)|
  {
    hide Reads, NameAt, FunctionAt, BlockBytes, GoodName, IsInteger;
    var host := ScannedName(b, i, end);
    var i1 := i + |BlockBytes(host)|;
    var field := ScannedName(b, i1, end);
    var i2 := i1 + |BlockBytes(field)|;
    ReadsOne(b, i2);
    var index := ScannedFunction(b, i2 + 1, end);
    item := ImportItem(host, field, index);
    ReadsSplit(b, i2, [0], index);
    ReadsSplit(b, i1, BlockBytes(field), [0] + index);
    ReadsSplit(b, i, BlockBytes(host), BlockBytes(field) + ([0] + index));
  }

  lemma ScannedExport(b: seq<byte>, i: nat, end: nat) returns (item: Item)
    requires i <= end <= |b| && ExportAt(b, i, end).Some?
    ensures item.ExportItem? && GoodItem(EXPORTS, item) && Reads(b, i, ItemBytes(item))
    ensures ExportAt(b, i, end).value.next == i + |ItemBytes(item)|
  {
    hide Reads, NameAt, U32, BlockBytes, GoodName;
    var name := ScannedName(b, i, end);
    var i1 := i + |BlockBytes(name)|;
    ReadsOne(b, i1);
    var index := ScannedU32(b, i1 + 1, end);
    item := ExportItem(name, b[i1], index);
    ReadsSplit(b, i1, [b[i1]], index);
    ReadsSplit(b, i, BlockBytes(name), [b[i1]] + index);
  }

  lemma ScannedItem(id: byte, b: seq<byte>, i: nat, end: nat) returns (item: Item)
    requires i <= end <= |b| && Parsed(id) && EntryAt(id, b, i, end).Some?
    ensures GoodItem(id, item) && Reads(b, i, ItemBytes(item)) && EntryAt(id, b, i, end).value.next == i + |ItemBytes(item)|
  {
    hide Reads, TypeAt, ImportAt, FunctionAt, ExportAt, BlockBytes, GoodBlock, GoodName, IsInteger;
    if id == TYPES {
      item := ScannedType(b, i, end);
    } else if id == IMPORTS {
      item := ScannedImport(b, i, end);
    } else if id == FUNCTIONS {
      var index := ScannedFunction(b, i, end);
      item := FunctionItem(index);
    } else {
      item := ScannedExport(b, i, end);
    }
  }

  lemma ScannedItems(id: byte, b: seq<byte>, i: nat, end: nat, count: nat, t: Tables) returns (items: seq<Item>)
    requires i <= end <= |b| && Parsed(id) && EntriesAt(id, b, i, end, count, t).Some?
    ensures |items| == count && GoodItems(id, items) && Reads(b, i, ItemsBytes(items))
    ensures EntriesAt(id, b, i, end, count, t).value.next == i + |ItemsBytes(items)|
    decreases count
  {
    hide Reads, EntryAt, Apply, GoodItem, ItemBytes;
    items := [];
    if count == 0 {
      ReadsNothing(b, i);
    } else {
      var item := ScannedItem(id, b, i, end);
      var t1 := Apply(t, EntryAt(id, b, i, end).value.value).value;
      var rest := ScannedItems(id, b, i + |ItemBytes(item)|, end, count - 1, t1);
      items := [item] + rest;
      assert items[1..] == rest;
      ReadsSplit(b, i, ItemBytes(item), ItemsBytes(rest));
    }
  }

  lemma ScannedBody(id: byte, b: seq<byte>, i: nat, end: nat, t: Tables, size: Integer) returns (s: Section)
    requires i <= end <= |b| && BodyAt(id, b, i, end, t).Some? && Encodes(size, end - i)
    ensures s.id == id && s.size == size && GoodSection(s) && Reads(b, i, Body(s)) && |Body(s)| == end - i
  {
    hide Reads, EntriesAt, U32, ItemsBytes, GoodItems, LebValue;
    if Parsed(id) {
      var count := ScannedU32(b, i, end);
      var items := ScannedItems(id, b, i + |count|, end, U32(b, i, end).value.value, t);
      s := Vector(id, size, count, items);
      ReadsSplit(b, i, count, ItemsBytes(items));
    } else {
      s := Skipped(id, size, b[i..end]);
      ReadsSlice(b, i, end);
    }
  }

  lemma ReadsSlice(b: seq<byte>, i: nat, end: nat)
    requires i <= end <= |b|
    ensures Reads(b, i, b[i..end])
  {
  }

  lemma ScannedSection(b: seq<byte>, i: nat, t: Tables) returns (s: Section)
    requires i <= |b| && SectionAt(b, i, t).Some?
    ensures GoodSection(s) && Reads(b, i, SectionBytes(s)) && SectionAt(b, i, t).value.next == i + |SectionBytes(s)|
  {
    hide Reads, U32, BodyAt, GoodSection, Body;
    ReadsOne(b, i);
    var size := ScannedU32(b, i + 1, |b|);
    var at := i + 1 + |size|;
    s := ScannedBody(b[i], b, at, at + U32(b, i + 1, |b|).value.value, t, size);
    ReadsSplit(b, i + 1, size, Body(s));
    ReadsSplit(b, i, [b[i]], size + Body(s));
  }

  lemma ScannedSections(b: seq<byte>, i: nat, t: Tables) returns (ss: seq<Section>)
    requires i <= |b| && SectionsAt(b, i, t).Some?
    ensures GoodSections(ss) && Reads(b, i, SectionsBytes(ss)) && i + |SectionsBytes(ss)| == |b|
    decreases |b| - i
  {
    hide Reads, SectionAt, SectionBytes, GoodSection;
    ss := [];
    if i == |b| {
      ReadsNothing(b, i);
    } else {
      var s := ScannedSection(b, i, t);
      SectionIsNotEmpty(s);
      var rest := ScannedSections(b, i + |SectionBytes(s)|, SectionAt(b, i, t).value.value);
      ss := [s] + rest;
      assert ss[1..] == rest;
      ReadsSplit(b, i, SectionBytes(s), SectionsBytes(rest));
    }
  }

  /** Whatever the parser accepts is the binary form of a resolved module. */
  lemma ParsedModuleIsPrinted(b: seq<byte>) returns (ss: seq<Section>)
    requires FunctionExports(b).Some?
    ensures GoodSections(ss) && Resolved(Entries(ss)) && b == ModuleBytes(ss)
  {
    hide SectionsAt, Entries, Resolved, Lists, GoodSections, SectionsBytes;
    ss := ScannedSections(b, 8, EMPTY);
    assert b[8..8 + |SectionsBytes(ss)|] == SectionsBytes(ss);
    assert b == b[..8] + b[8..8 + |SectionsBytes(ss)|] == ModuleBytes(ss);
    PrintedModuleIsParsed(ss);
  }

  predicate Declares(es: seq<Entry>, e: Entry, name: seq<byte>, signature: Signature)
    requires Resolved(es)
  {
    e in es && ExportsFunction(e) && e.name == name && Types(es)[Functions(es)[e.index]] == signature
  }

  ghost predicate DeclaresGuestExport(es: seq<Entry>, k: nat)
    requires Resolved(es) && k < |GUEST_EXPORTS|
  {
    exists e :: Declares(es, e, GUEST_EXPORTS[k], GUEST_TYPE)
  }

  /** A guest that passes validation is a module that exports each required function as () -> i32. */
  lemma AcceptedGuestDeclaresItsExports(wasm: seq<byte>) returns (ss: seq<Section>)
    requires AcceptedGuest(wasm)
    ensures GoodSections(ss) && wasm == ModuleBytes(ss) && Resolved(Entries(ss))
    ensures forall k :: 0 <= k < |GUEST_EXPORTS| ==> DeclaresGuestExport(Entries(ss), k)
  {
    hide FunctionExports, ModuleBytes, Entries, GoodSections, Resolved;
    ss := ParsedModuleIsPrinted(wasm);
    PrintedModuleIsParsed(ss);
    forall k | 0 <= k < |GUEST_EXPORTS| ensures DeclaresGuestExport(Entries(ss), k) {
      assert HasGuestExport(FunctionExports(wasm).value, k);
      var e := ListedEntry(FunctionExports(wasm).value, Entries(ss), GUEST_EXPORTS[k]);
      assert Declares(Entries(ss), e, GUEST_EXPORTS[k], GUEST_TYPE);
    }
  }

  lemma ListedEntry(exports: map<seq<byte>, Signature>, es: seq<Entry>, name: seq<byte>) returns (e: Entry)
    requires Resolved(es) && Lists(exports, es) && name in exports
    ensures Declares(es, e, name, exports[name])
  {
    e :| e in es && ExportsFunction(e) && e.name == name;
  }
}
