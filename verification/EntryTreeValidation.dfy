/** Validation of the entry tree: what the walk over entries and groups accepts. */
module EntryTreeValidation {
  import opened EntryTree
  import opened Wrappers

  // ----- validation

  /** `Entry::validate`: everything it looks at in one entry. */
  type Check = Entry -> bool

  predicate IsIdentifierStart(c: char) {
    'a' <= c <= 'z' || 'A' <= c <= 'Z' || '0' <= c <= '9'
  }

  predicate IsIdentifierPart(c: char) {
    IsIdentifierStart(c) || c == '.' || c == '-' || c == '_' || c == ':'
  }

  predicate IsIdentifier(s: string) {
    s != "" && IsIdentifierStart(s[0]) && forall k :: 0 <= k < |s| ==> IsIdentifierPart(s[k])
  }

  /** A nested group is known under its parent's name, unless its id already says so. */
  function Qualify(parent: string, id: string): string {
    if parent == "" || parent + "." <= id then id else parent + "." + id
  }

  /** Below a named parent the name begins with the parent's and a dot, put in front exactly if it is not there yet. */
  lemma QualifiesOnce(parent: string, id: string)
    ensures parent == "" ==> Qualify(parent, id) == id
    ensures parent != "" ==> parent + "." <= Qualify(parent, id) && Qualify(parent, id)[|Qualify(parent, id)| - |id|..] == id
    ensures parent != "" ==> (Qualify(parent, id) == id <==> parent + "." <= id)
    ensures Qualify(parent, Qualify(parent, id)) == Qualify(parent, id)
  {
    if parent != "" && !(parent + "." <= id) {
      assert (parent + "." + id)[..|parent| + 1] == parent + ".";
    }
  }

  datatype Seen = Seen(ids: set<Id>, groups: set<string>)

  function ValidateEntries(es: seq<Entry>, ids: set<Id>, check: Check): Option<set<Id>>
    decreases |es|
  {
    if es == [] then Some(ids)
    else if !check(es[0]) || es[0].id in ids then None
    else ValidateEntries(es[1..], ids + {es[0].id}, check)
  }

  function ValidateGroups(gs: seq<EntryGroup>, parent: string, seen: Seen, check: Check): Option<Seen>
    decreases gs
  {
    if gs == [] then Some(seen)
    else
      var g := gs[0];
      var qualified := Qualify(parent, g.id);
      if !IsIdentifier(g.id) || qualified in seen.groups then None
      else
        match ValidateEntries(g.entries, seen.ids, check)
        case None => None
        case Some(ids) =>
          match ValidateGroups(g.groups, qualified, Seen(ids, seen.groups + {qualified}), check)
          case None => None
          case Some(nested) => ValidateGroups(gs[1..], parent, nested, check)
  }

  function Validate(t: Tree, check: Check): bool {
    match ValidateEntries(t.entries, {}, check)
    case None => false
    case Some(ids) => ValidateGroups(t.groups, "", Seen(ids, {}), check).Some?
  }

  method CheckEntries(es: seq<Entry>, ids: set<Id>, check: Check) returns (r: Option<set<Id>>)
    ensures r == ValidateEntries(es, ids, check)
  {
    var seen := ids;
    for k := 0 to |es|
      invariant ValidateEntries(es[k..], seen, check) == ValidateEntries(es, ids, check)
    {
      assert es[k..][1..] == es[k + 1..];
      if !check(es[k]) || es[k].id in seen {
        return None;
      }
      seen := seen + {es[k].id};
    }
    r := Some(seen);
  }

  method CheckGroups(gs: seq<EntryGroup>, parent: string, seen: Seen, check: Check) returns (r: Option<Seen>)
    ensures r == ValidateGroups(gs, parent, seen, check)
    decreases gs
  {
    var sofar := seen;
    assert gs[0..] == gs;
    for k := 0 to |gs|
      invariant ValidateGroups(gs[k..], parent, sofar, check) == ValidateGroups(gs, parent, seen, check)
    {
      var g := gs[k];
      assert gs[k..][0] == g && gs[k..][1..] == gs[k + 1..];
      var qualified := Qualify(parent, g.id);
      if !IsIdentifier(g.id) || qualified in sofar.groups {
        return None;
      }
      var ids := CheckEntries(g.entries, sofar.ids, check);
      if ids.None? {
        return None;
      }
      var nested := CheckGroups(g.groups, qualified, Seen(ids.value, sofar.groups + {qualified}), check);
      if nested.None? {
        return None;
      }
      sofar := nested.value;
    }
    r := Some(sofar);
  }

  method CheckTree(t: Tree, check: Check) returns (ok: bool)
    ensures ok == Validate(t, check)
  {
    var ids := CheckEntries(t.entries, {}, check);
    if ids.None? {
      return false;
    }
    var groups := CheckGroups(t.groups, "", Seen(ids.value, {}), check);
    ok := groups.Some?;
  }

  // ----- what validation means

  function Ids(es: seq<Entry>): (ids: seq<Id>)
    ensures |ids| == |es|
  {
    seq(|es|, k requires 0 <= k < |es| => es[k].id)
  }

  /** The qualified names of all groups, in document order. */
  function QualifiedNames(fs: seq<Frame>, parent: string): seq<string> {
    if fs == [] then []
    else
      var name := Qualify(parent, fs[0].id);
      [name] + QualifiedNames(fs[0].nested, name) + QualifiedNames(fs[1..], parent)
  }

  predicate GroupIdsHold(fs: seq<Frame>) {
    forall f <- fs :: IsIdentifier(f.id) && GroupIdsHold(f.nested)
  }

  predicate Distinct(xs: seq<string>) {
    forall j, k :: 0 <= j < k < |xs| ==> xs[j] != xs[k]
  }

  predicate AllHold(es: seq<Entry>, check: Check) {
    forall e <- es :: check(e)
  }

  /** Inserting one by one, stopping at a repetition. */
  function Collect(xs: seq<string>, seen: set<string>): Option<set<string>>
    decreases |xs|
  {
    if xs == [] then Some(seen) else if xs[0] in seen then None else Collect(xs[1..], seen + {xs[0]})
  }

  lemma {:induction false} CollectIsDistinct(xs: seq<string>, seen: set<string>)
    ensures Collect(xs, seen).Some? <==> Distinct(xs) && forall x <- xs :: x !in seen
    decreases |xs|
  {
    if xs != [] {
      var rest := xs[1..];
      CollectIsDistinct(rest, seen + {xs[0]});
      assert xs == [xs[0]] + rest;
      if Collect(xs, seen).Some? {
        forall j, k | 0 <= j < k < |xs| ensures xs[j] != xs[k] {
          assert xs[k] == rest[k - 1] && rest[k - 1] in rest;
          if j > 0 {
            assert xs[j] == rest[j - 1];
          }
        }
      }
      if Distinct(xs) && forall x <- xs :: x !in seen {
        assert forall k :: 0 <= k < |rest| ==> rest[k] == xs[k + 1];
      }
    }
  }

  lemma {:induction false} CollectJoins(a: seq<string>, b: seq<string>, seen: set<string>)
    ensures Collect(a + b, seen) == if Collect(a, seen).None? then None else Collect(b, Collect(a, seen).value)
    decreases |a|
  {
    if a == [] {
      assert a + b == b;
    } else {
      assert (a + b)[1..] == a[1..] + b;
      if a[0] !in seen {
        CollectJoins(a[1..], b, seen + {a[0]});
      }
    }
  }

  lemma {:induction false} EntriesCollect(es: seq<Entry>, ids: set<Id>, check: Check)
    ensures ValidateEntries(es, ids, check) == if AllHold(es, check) then Collect(Ids(es), ids) else None
    decreases |es|
  {
    if es != [] {
      EntriesCollect(es[1..], ids + {es[0].id}, check);
      assert Ids(es)[0] == es[0].id && Ids(es)[1..] == Ids(es[1..]);
      assert es == [es[0]] + es[1..];
    }
  }

  lemma IdsJoin(a: seq<Entry>, b: seq<Entry>)
    ensures Ids(a + b) == Ids(a) + Ids(b)
  {
  }

  /** What the walk over the groups has seen when it gets through. */
  function Collects(es: seq<Entry>, names: seq<string>, seen: Seen): Option<Seen> {
    var ids, groups := Collect(Ids(es), seen.ids), Collect(names, seen.groups);
    if ids.Some? && groups.Some? then Some(Seen(ids.value, groups.value)) else None
  }

  lemma CollectsJoin(a: seq<Entry>, m: seq<string>, b: seq<Entry>, n: seq<string>, seen: Seen)
    ensures Collects(a + b, m + n, seen) == if Collects(a, m, seen).None? then None else Collects(b, n, Collects(a, m, seen).value)
  {
    IdsJoin(a, b);
    CollectJoins(Ids(a), Ids(b), seen.ids);
    CollectJoins(m, n, seen.groups);
  }

  lemma {:induction false} GroupsCollect(gs: seq<EntryGroup>, parent: string, seen: Seen, check: Check)
    ensures ValidateGroups(gs, parent, seen, check)
         == if AllHold(Collected(gs), check) && GroupIdsHold(Frames(gs)) then
              Collects(Collected(gs), QualifiedNames(Frames(gs), parent), seen)
            else None
    decreases gs
  {
    if gs != [] {
      var g := gs[0];
      var name := Qualify(parent, g.id);
      var nested, rest := Frames(g.groups), Frames(gs[1..]);
      var all := Frames(gs);
      assert all == [all[0]] + rest && all[1..] == rest;
      hide IsIdentifier, Qualify, Collects;
      EntriesCollect(g.entries, seen.ids, check);
      GroupStep(g, name, seen, check);
      CollectsJoin(g.entries, [name], Collected(g.groups), QualifiedNames(nested, name), seen);
      CollectsJoin(g.entries + Collected(g.groups), [name] + QualifiedNames(nested, name),
                   Collected(gs[1..]), QualifiedNames(rest, parent), seen);
      assert g.entries + (Collected(g.groups) + Collected(gs[1..])) == (g.entries + Collected(g.groups)) + Collected(gs[1..]);
      var one := Collects(g.entries, [name], seen);
      if one.Some? {
        GroupsCollect(g.groups, name, one.value, check);
        var inside := Collects(Collected(g.groups), QualifiedNames(nested, name), one.value);
        if inside.Some? {
          GroupsCollect(gs[1..], parent, inside.value, check);
        }
      }
    }
  }

  lemma GroupStep(g: EntryGroup, name: string, seen: Seen, check: Check)
    ensures Collects(g.entries, [name], seen)
         == if Collect(Ids(g.entries), seen.ids).Some? && name !in seen.groups then
              Some(Seen(Collect(Ids(g.entries), seen.ids).value, seen.groups + {name}))
            else None
  {
    assert [name][1..] == [];
    assert Collect([], seen.groups + {name}) == Some(seen.groups + {name});
  }

  /** A tree passes exactly when its entries do, and ids and qualified group names are distinct over the whole tree. */
  lemma ValidTrees(t: Tree, check: Check)
    ensures Validate(t, check) <==>
            && AllHold(Entries(t), check) && Distinct(Ids(Entries(t)))
            && GroupIdsHold(Frames(t.groups)) && Distinct(QualifiedNames(Frames(t.groups), ""))
  {
    var names := QualifiedNames(Frames(t.groups), "");
    EntriesCollect(t.entries, {}, check);
    var root := Collect(Ids(t.entries), {});
    if root.Some? {
      GroupsCollect(t.groups, "", Seen(root.value, {}), check);
    }
    IdsJoin(t.entries, Collected(t.groups));
    CollectJoins(Ids(t.entries), Ids(Collected(t.groups)), {});
    CollectIsDistinct(Ids(Entries(t)), {});
    CollectIsDistinct(names, {});
  }
}
