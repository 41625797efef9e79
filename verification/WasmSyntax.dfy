/** Modules as syntax: what the parser accepts, and what each accepted module declares. */
module WasmSyntax {
  import opened Leb128
  import opened Slices
  import opened WasmModule
  import opened Wrappers

  // ----- syntax that keeps its encodings

  /** One of the byte strings of section 5.2.2; a number may have several. */
  type Integer = seq<byte>

  datatype Block = Block(length: Integer, content: seq<byte>)

  datatype Item =
    | TypeItem(parameters: Block, results: Block)
    | ImportItem(host: Block, field: Block, typeIndex: Integer)
    | FunctionItem(typeIndex: Integer)
    | ExportItem(name: Block, kind: byte, index: Integer)

  datatype Section =
    | Vector(id: byte, size: Integer, count: Integer, items: seq<Item>)
    | Skipped(id: byte, size: Integer, content: seq<byte>)

  predicate Encodes(e: Integer, n: nat) {
    LebValue(32, e) == Some(n)
  }

  predicate IsInteger(e: Integer) {
    LebValue(32, e).Some?
  }

  predicate GoodBlock(b: Block) {
    Encodes(b.length, |b.content|)
  }

  predicate GoodName(b: Block) {
    GoodBlock(b) && Utf8(b.content)
  }

  predicate GoodItem(id: byte, item: Item) {
    match item
    case TypeItem(parameters, results) => id == TYPES && GoodBlock(parameters) && GoodBlock(results)
    case ImportItem(host, field, typeIndex) => id == IMPORTS && GoodName(host) && GoodName(field) && IsInteger(typeIndex)
    case FunctionItem(typeIndex) => id == FUNCTIONS && IsInteger(typeIndex)
    case ExportItem(name, kind, index) => id == EXPORTS && GoodName(name) && IsInteger(index)
  }

  predicate GoodItems(id: byte, items: seq<Item>) {
    forall k :: 0 <= k < |items| ==> GoodItem(id, items[k])
  }

  predicate GoodSection(s: Section) {
    && Encodes(s.size, |Body(s)|)
    && match s
       case Vector(id, _, count, items) => Parsed(id) && Encodes(count, |items|) && GoodItems(id, items)
       case Skipped(id, _, _) => !Parsed(id)
  }

  predicate GoodSections(ss: seq<Section>) {
    forall k :: 0 <= k < |ss| ==> GoodSection(ss[k])
  }

  // ----- printing

  function BlockBytes(b: Block): seq<byte> {
    b.length + b.content
  }

  function ItemBytes(item: Item): seq<byte> {
    match item
    case TypeItem(parameters, results) => [FUNCTION_TYPE] + (BlockBytes(parameters) + BlockBytes(results))
    case ImportItem(host, field, typeIndex) => BlockBytes(host) + (BlockBytes(field) + ([0] + typeIndex))
    case FunctionItem(typeIndex) => typeIndex
    case ExportItem(name, kind, index) => BlockBytes(name) + ([kind] + index)
  }

  function ItemsBytes(items: seq<Item>): seq<byte> {
    if items == [] then [] else ItemBytes(items[0]) + ItemsBytes(items[1..])
  }

  function Body(s: Section): seq<byte> {
    match s
    case Vector(_, _, count, items) => count + ItemsBytes(items)
    case Skipped(_, _, content) => content
  }

  function SectionBytes(s: Section): seq<byte> {
    [s.id] + (s.size + Body(s))
  }

  function SectionsBytes(ss: seq<Section>): seq<byte> {
    if ss == [] then [] else SectionBytes(ss[0]) + SectionsBytes(ss[1..])
  }

  /** The binary form: header, then the sections in the order they are listed. */
  function ModuleBytes(ss: seq<Section>): seq<byte> {
    MAGIC + SectionsBytes(ss)
  }

  // ----- what a module declares

  function Number(e: Integer): nat {
    if IsInteger(e) then LebValue(32, e).value else 0
  }

  function Meaning(item: Item): Entry {
    match item
    case TypeItem(parameters, results) => Type(Signature(parameters.content, results.content))
    case ImportItem(_, _, typeIndex) => Function(Number(typeIndex))
    case FunctionItem(typeIndex) => Function(Number(typeIndex))
    case ExportItem(name, kind, index) => Export(name.content, kind, Number(index))
  }

  /** The entries of all parsed sections, in order. */
  function Entries(ss: seq<Section>): seq<Entry> {
    if ss == [] then [] else SectionEntries(ss[0]) + Entries(ss[1..])
  }

  function SectionEntries(s: Section): seq<Entry> {
    if s.Vector? then Meanings(s.items) else []
  }

  function Meanings(items: seq<Item>): (es: seq<Entry>)
    ensures |es| == |items|
  {
    seq(|items|, k requires 0 <= k < |items| => Meaning(items[k]))
  }

  function Types(es: seq<Entry>): seq<Signature> {
    if es == [] then [] else (if es[0].Type? then [es[0].signature] else []) + Types(es[1..])
  }

  /** The function index space: imported and defined functions, by their type index. */
  function Functions(es: seq<Entry>): seq<nat> {
    if es == [] then [] else (if es[0].Function? then [es[0].typeIndex] else []) + Functions(es[1..])
  }

  predicate ExportsFunction(e: Entry) {
    e.Export? && e.kind == 0
  }

  predicate DistinctNames(es: seq<Entry>) {
    forall j, k :: 0 <= j < k < |es| && ExportsFunction(es[j]) && ExportsFunction(es[k]) ==> es[j].name != es[k].name
  }

  /** An export whose function and whose function's type exist. */
  predicate Resolves(es: seq<Entry>, e: Entry)
    requires e.Export?
  {
    e.index < |Functions(es)| && Functions(es)[e.index] < |Types(es)|
  }

  predicate Resolved(es: seq<Entry>) {
    DistinctNames(es) && forall e <- es :: ExportsFunction(e) ==> Resolves(es, e)
  }

  /** The result lists each function export of the module with its declared signature, and nothing else. */
  ghost predicate Lists(result: map<seq<byte>, Signature>, es: seq<Entry>)
    requires Resolved(es)
  {
    && (forall e <- es :: ExportsFunction(e) ==>
          e.name in result && result[e.name] == Types(es)[Functions(es)[e.index]])
    && forall name <- result :: exists e <- es :: ExportsFunction(e) && e.name == name
  }

  // ----- folding the entries into the tables

  function ApplyAll(t: Tables, es: seq<Entry>): Option<Tables>
    decreases |es|
  {
    if es == [] then Some(t)
    else
      match Apply(t, es[0])
      case None => None
      case Some(t') => ApplyAll(t', es[1..])
  }

  lemma {:induction false} ApplyJoins(t: Tables, a: seq<Entry>, b: seq<Entry>)
    ensures ApplyAll(t, a + b) == if ApplyAll(t, a).None? then None else ApplyAll(ApplyAll(t, a).value, b)
    decreases |a|
  {
    if a == [] {
      assert a + b == b;
    } else {
      assert (a + b)[1..] == a[1..] + b;
      if Apply(t, a[0]).Some? {
        ApplyJoins(Apply(t, a[0]).value, a[1..], b);
      }
    }
  }

  predicate Fresh(t: Tables, es: seq<Entry>) {
    forall e <- es :: ExportsFunction(e) ==> e.name !in t.exports
  }

  /** A function export of that name. */
  ghost predicate Names(es: seq<Entry>, name: seq<byte>) {
    exists e <- es :: ExportsFunction(e) && e.name == name
  }

  ghost predicate Extends(a: map<seq<byte>, nat>, b: map<seq<byte>, nat>) {
    forall name <- a :: name in b && b[name] == a[name]
  }

  ghost predicate ListsAll(es: seq<Entry>, exports: map<seq<byte>, nat>) {
    forall e <- es :: ExportsFunction(e) ==> e.name in exports && exports[e.name] == e.index
  }

  /** The tables after a list of entries. */
  ghost predicate Adds(t: Tables, es: seq<Entry>, t': Tables) {
    && t'.types == t.types + Types(es)
    && t'.functions == t.functions + Functions(es)
    && (forall name :: name in t'.exports <==> name in t.exports || Names(es, name))
    && Extends(t.exports, t'.exports)
    && ListsAll(es, t'.exports)
  }

  lemma DistinctSplits(es: seq<Entry>)
    requires es != []
    ensures DistinctNames(es) <==>
            DistinctNames(es[1..]) && (ExportsFunction(es[0]) ==> forall e <- es[1..] :: ExportsFunction(e) ==> e.name != es[0].name)
  {
    var rest := es[1..];
    assert forall k :: 0 <= k < |rest| ==> rest[k] == es[k + 1];
    if DistinctNames(es) {
      forall e | e in rest && ExportsFunction(e) && ExportsFunction(es[0]) ensures e.name != es[0].name {
        var k :| 0 <= k < |rest| && rest[k] == e;
        assert es[k + 1] == e;
      }
    }
    if DistinctNames(rest) && (ExportsFunction(es[0]) ==> forall e <- rest :: ExportsFunction(e) ==> e.name != es[0].name) {
      forall j, k | 0 <= j < k < |es| && ExportsFunction(es[j]) && ExportsFunction(es[k]) ensures es[j].name != es[k].name {
        assert rest[k - 1] == es[k];
        if j == 0 {
          assert rest[k - 1] in rest;
        } else {
          assert rest[j - 1] == es[j];
        }
      }
    }
  }

  /** Folding succeeds exactly when no function export is named twice. */
  lemma {:induction false} FoldFillsTables(t: Tables, es: seq<Entry>)
    ensures ApplyAll(t, es).Some? <==> DistinctNames(es) && Fresh(t, es)
    ensures ApplyAll(t, es).Some? ==> Adds(t, es, ApplyAll(t, es).value)
    decreases |es|
  {
    if es != [] {
      DistinctSplits(es);
      var e, rest := es[0], es[1..];
      var t1 := Apply(t, e);
      assert es == [e] + rest;
      if t1.Some? {
        FoldFillsTables(t1.value, rest);
        assert Fresh(t1.value, rest) <==>
               Fresh(t, rest) && (ExportsFunction(e) ==> forall x <- rest :: ExportsFunction(x) ==> x.name != e.name);
        if ApplyAll(t, es).Some? {
          AddsStep(t, e, rest, t1.value, ApplyAll(t, es).value);
        }
      }
    }
  }

  lemma NamesStep(e: Entry, rest: seq<Entry>, name: seq<byte>)
    ensures Names([e] + rest, name) <==> (ExportsFunction(e) && e.name == name) || Names(rest, name)
  {
    var es := [e] + rest;
    if ExportsFunction(e) && e.name == name {
      assert e in es;
    }
    if Names(rest, name) {
      var x :| x in rest && ExportsFunction(x) && x.name == name;
      assert x in es;
    }
  }

  lemma ListsMore(e: Entry, rest: seq<Entry>, exports: map<seq<byte>, nat>)
    requires ListsAll(rest, exports) && (ExportsFunction(e) ==> e.name in exports && exports[e.name] == e.index)
    ensures ListsAll([e] + rest, exports)
  {
  }

  lemma TablesStep(t: Tables, e: Entry, rest: seq<Entry>, t1: Tables, t2: Tables)
    requires Apply(t, e) == Some(t1) && t2.types == t1.types + Types(rest) && t2.functions == t1.functions + Functions(rest)
    ensures t2.types == t.types + Types([e] + rest) && t2.functions == t.functions + Functions([e] + rest)
  {
    assert ([e] + rest)[1..] == rest;
  }

  lemma ExportsStep(t: Tables, e: Entry, t1: Tables, exports: map<seq<byte>, nat>)
    requires Apply(t, e) == Some(t1) && Extends(t1.exports, exports)
    requires ExportsFunction(e) ==> e.name !in t.exports
    ensures Extends(t.exports, exports) && (ExportsFunction(e) ==> e.name in exports && exports[e.name] == e.index)
    ensures forall name :: name in t1.exports <==> name in t.exports || (ExportsFunction(e) && e.name == name)
  {
  }

  lemma AddsStep(t: Tables, e: Entry, rest: seq<Entry>, t1: Tables, t2: Tables)
    requires Apply(t, e) == Some(t1) && Adds(t1, rest, t2)
    requires ExportsFunction(e) ==> e.name !in t.exports
    ensures Adds(t, [e] + rest, t2)
  {
    hide Names, Apply, Types, Functions, Extends, ListsAll;
    TablesStep(t, e, rest, t1, t2);
    ExportsStep(t, e, t1, t2.exports);
    ListsMore(e, rest, t2.exports);
    forall name ensures name in t2.exports <==> name in t.exports || Names([e] + rest, name) {
      NamesStep(e, rest, name);
    }
  }

  /** The tables of a module give its exports. */
  lemma TablesResolve(es: seq<Entry>, t: Tables)
    requires Adds(EMPTY, es, t) && DistinctNames(es)
    ensures IndicesHold(t) <==> Resolved(es)
    ensures Resolved(es) ==> Lists(Signatures(t), es)
  {
    assert t.types == Types(es) && t.functions == Functions(es);
    if IndicesHold(t) {
      forall e | e in es && ExportsFunction(e) ensures Resolves(es, e) {
        assert e.name in t.exports;
      }
    }
    if Resolved(es) {
      forall name | name in t.exports
        ensures t.exports[name] < |t.functions| && t.functions[t.exports[name]] < |t.types|
        ensures exists e <- es :: ExportsFunction(e) && e.name == name
      {
        assert Names(es, name);
        var e :| e in es && ExportsFunction(e) && e.name == name;
        assert Resolves(es, e);
      }
    }
  }
}
