/** The ordered entry tree of crates/tessivum-core/src/loader.rs and the patches that edit it. */
module EntryTree {
  import opened Wrappers

  type Id = string

  /** `options` stands for the fields the tree operations only copy. */
  datatype Entry = Entry(id: Id, package: string, config: string, disabled: bool, options: string)

  datatype EntryGroup = EntryGroup(id: string, entries: seq<Entry>, groups: seq<EntryGroup>, disabled: bool)

  datatype Tree = Tree(entries: seq<Entry>, groups: seq<EntryGroup>)

  // ----- the list of entries

  /** Every entry vector of the groups, a group before its nested groups. */
  function GroupVectors(gs: seq<EntryGroup>): seq<seq<Entry>> {
    if gs == [] then [] else [gs[0].entries] + GroupVectors(gs[0].groups) + GroupVectors(gs[1..])
  }

  /** The root vector first. */
  function Vectors(t: Tree): seq<seq<Entry>> {
    [t.entries] + GroupVectors(t.groups)
  }

  function Concat(vs: seq<seq<Entry>>): seq<Entry> {
    if vs == [] then [] else vs[0] + Concat(vs[1..])
  }

  function Collected(gs: seq<EntryGroup>): seq<Entry> {
    if gs == [] then [] else gs[0].entries + (Collected(gs[0].groups) + Collected(gs[1..]))
  }

  /** `entries()`. */
  function Entries(t: Tree): seq<Entry> {
    t.entries + Collected(t.groups)
  }

  /** Group ids, flags and nesting, without the entries. */
  datatype Frame = Frame(id: string, disabled: bool, nested: seq<Frame>)

  function Frames(gs: seq<EntryGroup>): seq<Frame> {
    if gs == [] then [] else [Frame(gs[0].id, gs[0].disabled, Frames(gs[0].groups))] + Frames(gs[1..])
  }

  // ----- editing at the first entry of an id

  /** The index of the first entry with that id, or the length. */
  function Find(es: seq<Entry>, id: Id): (k: nat)
    ensures k <= |es|
    ensures k < |es| ==> es[k].id == id
    ensures forall j :: 0 <= j < k ==> es[j].id != id
  {
    if es == [] || es[0].id == id then 0 else 1 + Find(es[1..], id)
  }

  predicate Has(es: seq<Entry>, id: Id) {
    Find(es, id) < |es|
  }

  /** What takes the place of the entry found: nothing, a replacement, or a new entry and the old one. */
  type Edit = Entry -> seq<Entry>

  function Splice(es: seq<Entry>, id: Id, edit: Edit): seq<Entry>
    requires Has(es, id)
  {
    var k := Find(es, id);
    es[..k] + edit(es[k]) + es[k + 1..]
  }

  /** The entry found, and the groups or the tree after the edit. */
  datatype Spliced<T> = Spliced(entry: Entry, after: T)

  /** The edit happens in the first group, in document order, that holds the id. */
  function SpliceGroups(gs: seq<EntryGroup>, id: Id, edit: Edit): Option<Spliced<seq<EntryGroup>>> {
    if gs == [] then None
    else if Has(gs[0].entries, id) then
      Some(Spliced(gs[0].entries[Find(gs[0].entries, id)], [gs[0].(entries := Splice(gs[0].entries, id, edit))] + gs[1..]))
    else
      match SpliceGroups(gs[0].groups, id, edit)
      case Some(nested) => Some(Spliced(nested.entry, [gs[0].(groups := nested.after)] + gs[1..]))
      case None => Behind([gs[0]], SpliceGroups(gs[1..], id, edit))
  }

  function Behind(front: seq<EntryGroup>, rest: Option<Spliced<seq<EntryGroup>>>): Option<Spliced<seq<EntryGroup>>> {
    if rest.None? then None else Some(Spliced(rest.value.entry, front + rest.value.after))
  }

  function SpliceTree(t: Tree, id: Id, edit: Edit): Option<Spliced<Tree>> {
    if Has(t.entries, id) then Some(Spliced(t.entries[Find(t.entries, id)], t.(entries := Splice(t.entries, id, edit))))
    else
      match SpliceGroups(t.groups, id, edit)
      case Some(found) => Some(Spliced(found.entry, t.(groups := found.after)))
      case None => None
  }

  // ----- patches

  datatype Patch =
    | Insert(entry: Entry, before: Option<Id>)
    | Update(id: Id, entry: Entry)
    | UpdateConfig(id: Id, config: string)
    | Remove(id: Id)
    | Move(id: Id, before: Option<Id>)

  datatype PatchError = Mismatch | Missing(id: Id) | PrecedesItself | Invalid

  function Drop(): Edit {
    (_: Entry) => []
  }

  function Replace(entry: Entry): Edit {
    (_: Entry) => [entry]
  }

  function Configure(config: string): Edit {
    (e: Entry) => [e.(config := config)]
  }

  function Precede(entry: Entry): Edit {
    (e: Entry) => [entry, e]
  }

  function Edited(t: Tree, id: Id, edit: Edit): Result<Tree, PatchError> {
    match SpliceTree(t, id, edit)
    case Some(found) => Ok(found.after)
    case None => Err(Missing(id))
  }

  function Inserted(t: Tree, entry: Entry, before: Option<Id>): Result<Tree, PatchError> {
    if before.None? then Ok(t.(entries := t.entries + [entry])) else Edited(t, before.value, Precede(entry))
  }

  function Patched(t: Tree, p: Patch): Result<Tree, PatchError> {
    match p
    case Insert(entry, before) => Inserted(t, entry, before)
    case Update(id, entry) => if entry.id != id then Err(Mismatch) else Edited(t, id, Replace(entry))
    case UpdateConfig(id, config) => Edited(t, id, Configure(config))
    case Remove(id) => Edited(t, id, Drop())
    case Move(id, before) =>
      if before == Some(id) then Err(PrecedesItself)
      else
        match SpliceTree(t, id, Drop())
        case Some(found) => Inserted(found.after, found.entry, before)
        case None => Err(Missing(id))
  }

  // ----- the operations, as the source writes them

  method Position(es: seq<Entry>, id: Id) returns (index: Option<nat>)
    ensures index == if Has(es, id) then Some(Find(es, id)) else None
  {
    for k := 0 to |es|
      invariant Find(es, id) >= k
    {
      if es[k].id == id {
        return Some(k);
      }
    }
    index := None;
  }

  /** What is left of a walk that has passed the first `k` groups. */
  ghost function Walk(gs: seq<EntryGroup>, k: nat, id: Id, edit: Edit): Option<Spliced<seq<EntryGroup>>>
    requires k <= |gs|
  {
    Behind(gs[..k], SpliceGroups(gs[k..], id, edit))
  }

  lemma WalkStarts(gs: seq<EntryGroup>, id: Id, edit: Edit)
    ensures Walk(gs, 0, id, edit) == SpliceGroups(gs, id, edit)
  {
    assert gs[0..] == gs && gs[..0] == [];
    var r := SpliceGroups(gs, id, edit);
    if r.Some? {
      assert [] + r.value.after == r.value.after;
    }
  }

  lemma WalkTurns(gs: seq<EntryGroup>, k: nat, id: Id, edit: Edit)
    requires k < |gs|
    ensures var g := gs[k];
            var nested := SpliceGroups(g.groups, id, edit);
            Walk(gs, k, id, edit) ==
            if Has(g.entries, id) then
              Some(Spliced(g.entries[Find(g.entries, id)], gs[k := g.(entries := Splice(g.entries, id, edit))]))
            else if nested.Some? then Some(Spliced(nested.value.entry, gs[k := g.(groups := nested.value.after)]))
            else Walk(gs, k + 1, id, edit)
  {
    hide Has, Splice;
    var rest := gs[k..];
    assert rest[0] == gs[k] && rest[1..] == gs[k + 1..] && gs[..k + 1] == gs[..k] + [gs[k]];
    forall g: EntryGroup ensures gs[..k] + ([g] + rest[1..]) == gs[k := g] {
    }
    var tail := SpliceGroups(rest[1..], id, edit);
    if tail.Some? {
      assert gs[..k] + ([gs[k]] + tail.value.after) == gs[..k + 1] + tail.value.after;
    }
  }

  /** The walks for finding, removing and inserting differ only in what they do at the position found. */
  method EditGroups(gs: seq<EntryGroup>, id: Id, edit: Edit) returns (r: Option<Spliced<seq<EntryGroup>>>)
    ensures r == SpliceGroups(gs, id, edit)
    decreases gs
  {
    hide SpliceGroups, Walk;
    WalkStarts(gs, id, edit);
    for k := 0 to |gs|
      invariant SpliceGroups(gs, id, edit) == Walk(gs, k, id, edit)
    {
      WalkTurns(gs, k, id, edit);
      var entries := gs[k].entries;
      var position := Position(entries, id);
      if position.Some? {
        var at := position.value;
        var edited := entries[..at] + edit(entries[at]) + entries[at + 1..];
        return Some(Spliced(entries[at], gs[k := gs[k].(entries := edited)]));
      }
      var nested := EditGroups(gs[k].groups, id, edit);
      if nested.Some? {
        return Some(Spliced(nested.value.entry, gs[k := gs[k].(groups := nested.value.after)]));
      }
    }
    WalkEnds(gs, id, edit);
    r := None;
  }

  lemma WalkEnds(gs: seq<EntryGroup>, id: Id, edit: Edit)
    ensures Walk(gs, |gs|, id, edit) == None
  {
  }

  /** The detached clone a patch edits in place. */
  class Candidate {
    var entries: seq<Entry>
    var groups: seq<EntryGroup>

    function Value(): Tree
      reads this
    {
      Tree(entries, groups)
    }

    constructor (t: Tree)
      ensures Value() == t
    {
      entries, groups := t.entries, t.groups;
    }

    /** On a miss nothing has changed. */
    method EditEntry(id: Id, edit: Edit) returns (r: Result<Entry, PatchError>)
      modifies this
      ensures match SpliceTree(old(Value()), id, edit)
              case Some(found) => r == Ok(found.entry) && Value() == found.after
              case None => r == Err(Missing(id)) && Value() == old(Value())
    {
      var position := Position(entries, id);
      if position.Some? {
        var at := position.value;
        r := Ok(entries[at]);
        entries := entries[..at] + edit(entries[at]) + entries[at + 1..];
        return;
      }
      var found := EditGroups(groups, id, edit);
      if found.None? {
        return Err(Missing(id));
      }
      groups := found.value.after;
      r := Ok(found.value.entry);
    }

    method InsertEntry(entry: Entry, before: Option<Id>) returns (error: Option<PatchError>)
      modifies this
      ensures Outcome(error, Value()) == Inserted(old(Value()), entry, before)
    {
      if before.None? {
        entries := entries + [entry];
        return None;
      }
      var r := EditEntry(before.value, Precede(entry));
      error := if r.Ok? then None else Some(r.error);
    }

    method Apply(p: Patch) returns (error: Option<PatchError>)
      modifies this
      ensures Outcome(error, Value()) == Patched(old(Value()), p)
    {
      match p
      case Insert(entry, before) =>
        error := InsertEntry(entry, before);
      case Update(id, entry) =>
        if entry.id != id {
          return Some(Mismatch);
        }
        var r := EditEntry(id, Replace(entry));
        error := if r.Ok? then None else Some(r.error);
      case UpdateConfig(id, config) =>
        var r := EditEntry(id, Configure(config));
        error := if r.Ok? then None else Some(r.error);
      case Remove(id) =>
        var r := EditEntry(id, Drop());
        error := if r.Ok? then None else Some(r.error);
      case Move(id, before) =>
        if before == Some(id) {
          return Some(PrecedesItself);
        }
        var r := EditEntry(id, Drop());
        if r.Err? {
          return Some(r.error);
        }
        error := InsertEntry(r.value, before);
    }
  }

  function Outcome(error: Option<PatchError>, t: Tree): Result<Tree, PatchError> {
    if error.None? then Ok(t) else Err(error.value)
  }
}
