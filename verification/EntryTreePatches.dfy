/** Patches and lists of patches, as edits of the list of entries. */
module EntryTreePatches {
  import opened EntryTree
  import opened EntryTreeEdits
  import opened EntryTreeValidation
  import opened Wrappers

  // ----- one patch

  /** Why a patch is refused, decided on the list of entries alone. */
  function Fault(es: seq<Entry>, p: Patch): Option<PatchError> {
    match p
    case Insert(_, before) => if before.Some? && !Has(es, before.value) then Some(Missing(before.value)) else None
    case Update(id, entry) => if entry.id != id then Some(Mismatch) else if !Has(es, id) then Some(Missing(id)) else None
    case UpdateConfig(id, _) => if !Has(es, id) then Some(Missing(id)) else None
    case Remove(id) => if !Has(es, id) then Some(Missing(id)) else None
    case Move(id, before) =>
      if before == Some(id) then Some(PrecedesItself)
      else if !Has(es, id) then Some(Missing(id))
      else if before.Some? && !Has(es, before.value) then Some(Missing(before.value))
      else None
  }

  function Without<T>(es: seq<T>, k: nat): seq<T>
    requires k < |es|
  {
    es[..k] + es[k + 1..]
  }

  function InsertAt<T>(es: seq<T>, k: nat, e: T): seq<T>
    requires k <= |es|
  {
    es[..k] + [e] + es[k..]
  }

  /** Immediately before the named entry, or at the end of the root vector. */
  function Place(es: seq<Entry>, root: nat, before: Option<Id>): nat {
    if before.Some? then Find(es, before.value) else root
  }

  /** The effect of a patch on the list of entries; `root` is how many of them stand in the root vector. */
  function Effect(es: seq<Entry>, root: nat, p: Patch): seq<Entry>
    requires Fault(es, p).None? && root <= |es|
  {
    match p
    case Insert(entry, before) => InsertAt(es, Place(es, root, before), entry)
    case Update(id, entry) => es[Find(es, id) := entry]
    case UpdateConfig(id, config) => es[Find(es, id) := es[Find(es, id)].(config := config)]
    case Remove(id) => Without(es, Find(es, id))
    case Move(id, before) =>
      var k := Find(es, id);
      var rest := Without(es, k);
      InsertAt(rest, Place(rest, if k < root then root - 1 else root, before), es[k])
  }

  lemma DropIsWithout(es: seq<Entry>, id: Id)
    requires Has(es, id)
    ensures Splice(es, id, Drop()) == Without(es, Find(es, id))
  {
  }

  lemma ReplaceIsUpdate(es: seq<Entry>, id: Id, e: Entry)
    requires Has(es, id)
    ensures Splice(es, id, Replace(e)) == es[Find(es, id) := e]
  {
  }

  lemma ConfigureIsUpdate(es: seq<Entry>, id: Id, config: string)
    requires Has(es, id)
    ensures Splice(es, id, Configure(config)) == es[Find(es, id) := es[Find(es, id)].(config := config)]
  {
  }

  lemma PrecedeIsInsert(es: seq<Entry>, id: Id, e: Entry)
    requires Has(es, id)
    ensures Splice(es, id, Precede(e)) == InsertAt(es, Find(es, id), e)
  {
    var k := Find(es, id);
    assert es[..k] + [e, es[k]] + es[k + 1..] == es[..k] + [e] + es[k..];
  }

  /** Another id is found after a removal exactly when it was there before. */
  lemma {:induction false} HasAfterRemoval(es: seq<Entry>, id: Id, other: Id)
    requires Has(es, id) && id != other
    ensures Has(Without(es, Find(es, id)), other) <==> Has(es, other)
  {
    var k := Find(es, id);
    FindJoins(es[..k], es[k + 1..], other);
    FindJoins(es[..k], es[k..], other);
    assert es == es[..k] + es[k..] && es[k..][1..] == es[k + 1..];
  }

  lemma InsertActsOnTheList(t: Tree, e: Entry, before: Option<Id>)
    ensures Inserted(t, e, before).Ok? <==> before.None? || Has(Entries(t), before.value)
    ensures before.Some? && !Has(Entries(t), before.value) ==> Inserted(t, e, before) == Err(Missing(before.value))
    ensures Inserted(t, e, before).Ok? ==>
              var t' := Inserted(t, e, before).value;
              && Entries(t') == InsertAt(Entries(t), Place(Entries(t), |t.entries|, before), e)
              && Frames(t'.groups) == Frames(t.groups)
  {
    hide Has, Splice, InsertAt, SpliceTree;
    if before.None? {
      assert Entries(t.(entries := t.entries + [e])) == InsertAt(Entries(t), |t.entries|, e) by { AtRootEnd(t, e); }
    } else {
      EditActsOnTheList(t, before.value, Precede(e));
      if Has(Entries(t), before.value) {
        PrecedeIsInsert(Entries(t), before.value, e);
      }
    }
  }

  lemma AtRootEnd(t: Tree, e: Entry)
    ensures Entries(t.(entries := t.entries + [e])) == InsertAt(Entries(t), |t.entries|, e)
  {
    var rest := Collected(t.groups);
    assert (t.entries + rest)[..|t.entries|] == t.entries && (t.entries + rest)[|t.entries|..] == rest;
  }

  /** Removing shortens the root vector only if the entry stood there. */
  lemma RootAfterRemoval(t: Tree, id: Id)
    requires Has(Entries(t), id) && SpliceTree(t, id, Drop()).Some?
    ensures |SpliceTree(t, id, Drop()).value.after.entries|
         == if Find(Entries(t), id) < |t.entries| then |t.entries| - 1 else |t.entries|
  {
    FindJoins(t.entries, Collected(t.groups), id);
  }

  lemma MoveActsOnTheList(t: Tree, p: Patch)
    requires p.Move?
    ensures Patched(t, p).Err? <==> Fault(Entries(t), p).Some?
    ensures Patched(t, p).Err? ==> Patched(t, p).error == Fault(Entries(t), p).value
    ensures Patched(t, p).Ok? ==>
              && Entries(Patched(t, p).value) == Effect(Entries(t), |t.entries|, p)
              && Frames(Patched(t, p).value.groups) == Frames(t.groups)
  {
    hide Has, Splice, Without, InsertAt, SpliceTree, Inserted;
    EditActsOnTheList(t, p.id, Drop());
    if p.before != Some(p.id) && Has(Entries(t), p.id) {
      DropIsWithout(Entries(t), p.id);
      RootAfterRemoval(t, p.id);
      var found := SpliceTree(t, p.id, Drop()).value;
      InsertActsOnTheList(found.after, found.entry, p.before);
      if p.before.Some? {
        HasAfterRemoval(Entries(t), p.id, p.before.value);
      }
    }
  }

  /** Patches refine edits of the flat list; group ids, nesting and flags stay as they are. */
  lemma PatchActsOnTheList(t: Tree, p: Patch)
    ensures Patched(t, p).Err? <==> Fault(Entries(t), p).Some?
    ensures Patched(t, p).Err? ==> Patched(t, p).error == Fault(Entries(t), p).value
    ensures Patched(t, p).Ok? ==>
              && Entries(Patched(t, p).value) == Effect(Entries(t), |t.entries|, p)
              && Frames(Patched(t, p).value.groups) == Frames(t.groups)
  {
    hide Has, Splice, Without, InsertAt, SpliceTree, Inserted;
    match p
    case Insert(entry, before) =>
      InsertActsOnTheList(t, entry, before);
    case Update(id, entry) =>
      EditActsOnTheList(t, id, Replace(entry));
      if Has(Entries(t), id) { ReplaceIsUpdate(Entries(t), id, entry); }
    case UpdateConfig(id, config) =>
      EditActsOnTheList(t, id, Configure(config));
      if Has(Entries(t), id) { ConfigureIsUpdate(Entries(t), id, config); }
    case Remove(id) =>
      EditActsOnTheList(t, id, Drop());
      if Has(Entries(t), id) { DropIsWithout(Entries(t), id); }
    case Move(_, _) =>
      MoveActsOnTheList(t, p);
  }

  // ----- conservation

  lemma RemovalCounts<T>(es: seq<T>, k: nat)
    requires k < |es|
    ensures multiset(es) == multiset(Without(es, k)) + multiset{es[k]}
  {
    assert es == es[..k] + ([es[k]] + es[k + 1..]);
  }

  lemma InsertionCounts(es: seq<Entry>, k: nat, e: Entry)
    requires k <= |es|
    ensures multiset(InsertAt(es, k, e)) == multiset(es) + multiset{e}
  {
    assert es == es[..k] + es[k..];
  }

  /** Moving an entry loses and duplicates nothing. */
  lemma MoveConservesEntries(t: Tree, id: Id, before: Option<Id>)
    requires Patched(t, Move(id, before)).Ok?
    ensures multiset(Entries(Patched(t, Move(id, before)).value)) == multiset(Entries(t))
  {
    hide Patched, Without, InsertAt;
    var es, p := Entries(t), Move(id, before);
    PatchActsOnTheList(t, p);
    var k := Find(es, id);
    var rest := Without(es, k);
    WithoutLength(es, k);
    RemovalCounts(es, k);
    InsertionCounts(rest, Place(rest, if k < |t.entries| then |t.entries| - 1 else |t.entries|, before), es[k]);
  }

  lemma WithoutLength<T>(es: seq<T>, k: nat)
    requires k < |es|
    ensures |Without(es, k)| == |es| - 1
  {
  }

  /** Validity looks at the entries as a bag, and at the frame of groups. */
  lemma ValidityOfBags(t: Tree, t': Tree, check: Check)
    requires multiset(Entries(t)) == multiset(Entries(t')) && Frames(t.groups) == Frames(t'.groups) && Validate(t, check)
    ensures Validate(t', check)
  {
    hide Validate;
    ValidTrees(t, check);
    ValidTrees(t', check);
    var es, es' := Entries(t), Entries(t');
    forall e | e in es' ensures check(e) {
      assert e in multiset(es');
    }
    DistinctBags(es, es');
  }

  lemma IdsRemoval(es: seq<Entry>, k: nat)
    requires k < |es|
    ensures multiset(Ids(es)) == multiset(Ids(Without(es, k))) + multiset{es[k].id}
  {
    RemovalCounts(Ids(es), k);
    assert Ids(Without(es, k)) == Without(Ids(es), k);
  }

  lemma IdsOfBags(es: seq<Entry>, es': seq<Entry>)
    requires multiset(es) == multiset(es')
    ensures multiset(Ids(es)) == multiset(Ids(es'))
    decreases |es|
  {
    if es == [] {
      assert |multiset(es')| == |es'|;
    } else {
      assert es[0] in multiset(es');
      var k :| 0 <= k < |es'| && es'[k] == es[0];
      RemovalCounts(es, 0);
      RemovalCounts(es', k);
      IdsRemoval(es, 0);
      IdsRemoval(es', k);
      WithoutLength(es, 0);
      hide Ids, Without;
      assert multiset(Without(es, 0)) == multiset(es) - multiset{es[0]} == multiset(Without(es', k));
      IdsOfBags(Without(es, 0), Without(es', k));
    }
  }

  lemma DistinctSplits(xs: seq<string>)
    requires xs != []
    ensures Distinct(xs) <==> Distinct(xs[1..]) && xs[0] !in xs[1..]
  {
    var rest := xs[1..];
    assert forall k :: 0 <= k < |rest| ==> rest[k] == xs[k + 1];
    if Distinct(rest) && xs[0] !in rest {
      forall j, k | 0 <= j < k < |xs| ensures xs[j] != xs[k] {
        assert xs[k] == rest[k - 1] && rest[k - 1] in rest;
        if j > 0 {
          assert xs[j] == rest[j - 1];
        }
      }
    }
  }

  lemma {:induction false} DistinctCounts(xs: seq<string>)
    ensures Distinct(xs) <==> forall x :: multiset(xs)[x] <= 1
    decreases |xs|
  {
    if xs != [] {
      var rest := xs[1..];
      assert xs == [xs[0]] + rest;
      assert multiset(xs) == multiset{xs[0]} + multiset(rest);
      DistinctSplits(xs);
      DistinctCounts(rest);
      hide Distinct;
      if forall x :: multiset(xs)[x] <= 1 {
        assert multiset(xs)[xs[0]] <= 1;
        forall x ensures multiset(rest)[x] <= 1 {
          assert multiset(xs)[x] <= 1;
        }
      }
    }
  }

  lemma DistinctBags(es: seq<Entry>, es': seq<Entry>)
    requires multiset(es) == multiset(es')
    ensures Distinct(Ids(es)) <==> Distinct(Ids(es'))
  {
    IdsOfBags(es, es');
    DistinctCounts(Ids(es));
    DistinctCounts(Ids(es'));
  }

  // ----- patches on committed trees

  /** `apply`: the patch on a clone, then validation. */
  function Apply(t: Tree, p: Patch, check: Check): Result<Tree, PatchError> {
    match Patched(t, p)
    case Err(e) => Err(e)
    case Ok(t') => if Validate(t', check) then Ok(t') else Err(Invalid)
  }

  function PatchedAll(t: Tree, ps: seq<Patch>): Result<Tree, PatchError>
    decreases |ps|
  {
    if ps == [] then Ok(t)
    else
      match Patched(t, ps[0])
      case Err(e) => Err(e)
      case Ok(t') => PatchedAll(t', ps[1..])
  }

  /** `apply_all`: validation only at the end. */
  function ApplyAll(t: Tree, ps: seq<Patch>, check: Check): Result<Tree, PatchError> {
    match PatchedAll(t, ps)
    case Err(e) => Err(e)
    case Ok(t') => if Validate(t', check) then Ok(t') else Err(Invalid)
  }

  method ApplyPatches(t: Tree, ps: seq<Patch>, check: Check) returns (r: Result<Tree, PatchError>)
    ensures r == ApplyAll(t, ps, check)
  {
    var candidate := new Candidate(t);
    for k := 0 to |ps|
      invariant fresh(candidate)
      invariant PatchedAll(candidate.Value(), ps[k..]) == PatchedAll(t, ps)
    {
      assert ps[k..][1..] == ps[k + 1..];
      var error := candidate.Apply(ps[k]);
      if error.Some? {
        return Err(error.value);
      }
    }
    var ok := CheckTree(candidate.Value(), check);
    r := if ok then Ok(candidate.Value()) else Err(Invalid);
  }

  lemma {:induction false} PatchesJoin(t: Tree, ps: seq<Patch>, qs: seq<Patch>)
    ensures PatchedAll(t, ps + qs) == if PatchedAll(t, ps).Err? then PatchedAll(t, ps) else PatchedAll(PatchedAll(t, ps).value, qs)
    decreases |ps|
  {
    if ps == [] {
      assert ps + qs == qs;
    } else {
      assert (ps + qs)[1..] == ps[1..] + qs;
      if Patched(t, ps[0]).Ok? {
        PatchesJoin(Patched(t, ps[0]).value, ps[1..], qs);
      }
    }
  }

  /** A single patch is a list of one. */
  lemma ApplyIsAListOfOne(t: Tree, p: Patch, check: Check)
    ensures Apply(t, p, check) == ApplyAll(t, [p], check)
  {
    hide Patched, Validate;
    assert [p][1..] == [];
    assert Patched(t, p).Ok? ==> PatchedAll(Patched(t, p).value, []) == Ok(Patched(t, p).value);
    assert PatchedAll(t, [p]) == Patched(t, p);
  }

  /**
   Two lists one after the other do what their concatenation does exactly if the tree between them is accepted, or the
   first list fails by itself, or the concatenation is not accepted either.
   */
  lemma ConcatenationIsSequential(t: Tree, ps: seq<Patch>, qs: seq<Patch>, check: Check)
    ensures var first := ApplyAll(t, ps, check);
            var second := if first.Ok? then ApplyAll(first.value, qs, check) else first;
            && (second == ApplyAll(t, ps + qs, check) <==>
                  || PatchedAll(t, ps).Err?
                  || Validate(PatchedAll(t, ps).value, check)
                  || ApplyAll(t, ps + qs, check) == Err(Invalid))
            && (first.Ok? <==> PatchedAll(t, ps).Ok? && Validate(PatchedAll(t, ps).value, check))
  {
    PatchesJoin(t, ps, qs);
  }

  /** Without the accepted tree between them they differ: the id of any entry may be doubled and removed again. */
  lemma ConcatenationMayRepair(e: Entry, check: Check)
    requires check(e)
    ensures exists t: Tree, ps: seq<Patch>, qs: seq<Patch> :: ApplyAll(t, ps, check).Err? && ApplyAll(t, ps + qs, check).Ok?
  {
    var t := Tree([e], []);
    var ps, qs := [Insert(e, None)], [Remove(e.id)];
    var doubled := Tree([e, e], []);
    assert Find([e], e.id) == 0 && Find([e, e], e.id) == 0;
    assert Patched(t, ps[0]) == Ok(doubled) && Patched(doubled, qs[0]) == Ok(t) by {
      assert [e] + [e] == [e, e];
      assert [e, e][..0] + [] + [e, e][1..] == [e];
    }
    assert PatchedAll(t, ps) == Ok(doubled);
    assert PatchedAll(doubled, qs) == Ok(t);
    assert check(e) && [e][1..] == [] && [e, e][1..] == [e];
    assert ValidateEntries([], {} + {e.id}, check) == Some({} + {e.id});
    assert ValidateEntries([e], {} + {e.id}, check).None?;
    assert Validate(t, check) && !Validate(doubled, check);
    PatchesJoin(t, ps, qs);
    assert ApplyAll(t, ps, check).Err? && ApplyAll(t, ps + qs, check).Ok?;
  }

  /** On an accepted tree a move can fail only for the reasons on the list: the result is accepted again. */
  lemma MoveKeepsValidity(t: Tree, id: Id, before: Option<Id>, check: Check)
    requires Validate(t, check)
    ensures Apply(t, Move(id, before), check).Ok? <==> Fault(Entries(t), Move(id, before)).None?
  {
    hide Validate, Patched, Fault;
    var p := Move(id, before);
    PatchActsOnTheList(t, p);
    if Patched(t, p).Ok? {
      MoveConservesEntries(t, id, before);
      ValidityOfBags(t, Patched(t, p).value, check);
    }
  }

  // ----- active entries

  function ActiveOf(es: seq<Entry>, disabled: bool): seq<Entry> {
    if es == [] then []
    else (if !es[0].disabled && !disabled then [es[0]] else []) + ActiveOf(es[1..], disabled)
  }

  function CollectedActive(gs: seq<EntryGroup>, disabled: bool): seq<Entry>
    decreases gs
  {
    if gs == [] then []
    else
      var off := disabled || gs[0].disabled;
      ActiveOf(gs[0].entries, off) + (CollectedActive(gs[0].groups, off) + CollectedActive(gs[1..], disabled))
  }

  function ActiveEntries(t: Tree): seq<Entry> {
    ActiveOf(t.entries, false) + CollectedActive(t.groups, false)
  }

  /** For each entry in order, whether it or a group around it is disabled. */
  function Suppressed(es: seq<Entry>, disabled: bool): (marks: seq<bool>)
    ensures |marks| == |es|
  {
    seq(|es|, k requires 0 <= k < |es| => es[k].disabled || disabled)
  }

  function SuppressedGroups(gs: seq<EntryGroup>, disabled: bool): seq<bool>
    decreases gs
  {
    if gs == [] then []
    else
      var off := disabled || gs[0].disabled;
      Suppressed(gs[0].entries, off) + (SuppressedGroups(gs[0].groups, off) + SuppressedGroups(gs[1..], disabled))
  }

  function Select(es: seq<Entry>, marks: seq<bool>): seq<Entry>
    requires |es| == |marks|
  {
    if es == [] then [] else (if marks[0] then [] else [es[0]]) + Select(es[1..], marks[1..])
  }

  lemma {:induction false} SelectJoins(a: seq<Entry>, m: seq<bool>, b: seq<Entry>, n: seq<bool>)
    requires |a| == |m| && |b| == |n|
    ensures Select(a + b, m + n) == Select(a, m) + Select(b, n)
    decreases |a|
  {
    if a == [] {
      assert a + b == b && m + n == n;
    } else {
      assert (a + b)[1..] == a[1..] + b && (m + n)[1..] == m[1..] + n;
      SelectJoins(a[1..], m[1..], b, n);
    }
  }

  lemma {:induction false} ActiveIsSelected(es: seq<Entry>, disabled: bool)
    ensures ActiveOf(es, disabled) == Select(es, Suppressed(es, disabled))
    decreases |es|
  {
    if es != [] {
      ActiveIsSelected(es[1..], disabled);
      assert Suppressed(es, disabled)[1..] == Suppressed(es[1..], disabled);
    }
  }

  lemma {:induction false} CollectedActiveIsSelected(gs: seq<EntryGroup>, disabled: bool)
    ensures |SuppressedGroups(gs, disabled)| == |Collected(gs)|
    ensures CollectedActive(gs, disabled) == Select(Collected(gs), SuppressedGroups(gs, disabled))
    decreases gs
  {
    if gs != [] {
      var g, off := gs[0], disabled || gs[0].disabled;
      ActiveIsSelected(g.entries, off);
      CollectedActiveIsSelected(g.groups, off);
      CollectedActiveIsSelected(gs[1..], disabled);
      var nested, marks := Collected(g.groups), SuppressedGroups(g.groups, off);
      SelectJoins(nested, marks, Collected(gs[1..]), SuppressedGroups(gs[1..], disabled));
      SelectJoins(g.entries, Suppressed(g.entries, off), nested + Collected(gs[1..]), marks + SuppressedGroups(gs[1..], disabled));
    }
  }

  /** The active entries are `entries()` without those that are disabled or stand inside a disabled group. */
  lemma ActiveEntriesAreSelected(t: Tree)
    ensures var marks := Suppressed(t.entries, false) + SuppressedGroups(t.groups, false);
            |marks| == |Entries(t)| && ActiveEntries(t) == Select(Entries(t), marks)
  {
    ActiveIsSelected(t.entries, false);
    CollectedActiveIsSelected(t.groups, false);
    SelectJoins(t.entries, Suppressed(t.entries, false), Collected(t.groups), SuppressedGroups(t.groups, false));
  }
}
