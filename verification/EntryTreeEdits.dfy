/** Patches on the tree are edits of the flat list, and validation means distinct ids everywhere. */
module EntryTreeEdits {
  import opened EntryTree
  import opened Wrappers

  // ----- one edit, seen from the vectors and from the flat list

  /** The edit in the first vector that holds the id; the other vectors stay as they are. */
  function SpliceVectors(vs: seq<seq<Entry>>, id: Id, edit: Edit): Option<seq<seq<Entry>>> {
    if vs == [] then None
    else if Has(vs[0], id) then Some([Splice(vs[0], id, edit)] + vs[1..])
    else
      match SpliceVectors(vs[1..], id, edit)
      case Some(rest) => Some([vs[0]] + rest)
      case None => None
  }

  function Then(a: Option<seq<seq<Entry>>>, b: seq<seq<Entry>>): Option<seq<seq<Entry>>> {
    if a.None? then None else Some(a.value + b)
  }

  function Behind(a: seq<seq<Entry>>, b: Option<seq<seq<Entry>>>): Option<seq<seq<Entry>>> {
    if b.None? then None else Some(a + b.value)
  }

  lemma {:induction false} SpliceJoins(a: seq<seq<Entry>>, b: seq<seq<Entry>>, id: Id, edit: Edit)
    ensures SpliceVectors(a, id, edit).Some? ==> SpliceVectors(a + b, id, edit) == Then(SpliceVectors(a, id, edit), b)
    ensures SpliceVectors(a, id, edit).None? ==> SpliceVectors(a + b, id, edit) == Behind(a, SpliceVectors(b, id, edit))
    decreases |a|
  {
    hide Has, Splice;
    if a == [] {
      assert a + b == b;
      forall vs: seq<seq<Entry>> ensures a + vs == vs {
      }
    } else {
      assert (a + b)[0] == a[0] && (a + b)[1..] == a[1..] + b;
      SpliceJoins(a[1..], b, id, edit);
      var front, back := SpliceVectors(a[1..], id, edit), SpliceVectors(b, id, edit);
      if Has(a[0], id) {
        assert ([Splice(a[0], id, edit)] + a[1..]) + b == [Splice(a[0], id, edit)] + (a[1..] + b);
      } else if front.Some? {
        assert ([a[0]] + front.value) + b == [a[0]] + (front.value + b);
      } else if back.Some? {
        assert a + back.value == [a[0]] + (a[1..] + back.value);
      }
    }
  }

  /** Walking the groups edits one vector, keeps the frame of groups, and hands back the entry found. */
  lemma {:induction false} GroupsAreEdited(gs: seq<EntryGroup>, id: Id, edit: Edit)
    ensures SpliceGroups(gs, id, edit).Some? <==> SpliceVectors(GroupVectors(gs), id, edit).Some?
    ensures SpliceGroups(gs, id, edit).Some? ==>
              var after := SpliceGroups(gs, id, edit).value.after;
              GroupVectors(after) == SpliceVectors(GroupVectors(gs), id, edit).value && Frames(after) == Frames(gs)
    decreases gs
  {
    hide Splice, Has;
    if gs != [] {
      var g := gs[0];
      GroupsAreEdited(g.groups, id, edit);
      GroupsAreEdited(gs[1..], id, edit);
      SpliceJoins([g.entries] + GroupVectors(g.groups), GroupVectors(gs[1..]), id, edit);
      SpliceJoins([g.entries], GroupVectors(g.groups), id, edit);
    }
  }

  lemma TreeIsEdited(t: Tree, id: Id, edit: Edit)
    ensures SpliceTree(t, id, edit).Some? <==> SpliceVectors(Vectors(t), id, edit).Some?
    ensures SpliceTree(t, id, edit).Some? ==>
              var after := SpliceTree(t, id, edit).value.after;
              Vectors(after) == SpliceVectors(Vectors(t), id, edit).value && Frames(after.groups) == Frames(t.groups)
  {
    hide Splice, Has;
    GroupsAreEdited(t.groups, id, edit);
    SpliceJoins([t.entries], GroupVectors(t.groups), id, edit);
  }

  lemma {:induction false} FindJoins(a: seq<Entry>, b: seq<Entry>, id: Id)
    ensures Find(a + b, id) == if Has(a, id) then Find(a, id) else |a| + Find(b, id)
    decreases |a|
  {
    if a == [] {
      assert a + b == b;
    } else {
      assert (a + b)[1..] == a[1..] + b;
      FindJoins(a[1..], b, id);
    }
  }

  lemma SlicesOfFront(a: seq<Entry>, b: seq<Entry>, k: nat)
    requires k < |a|
    ensures (a + b)[..k] == a[..k] && (a + b)[k + 1..] == a[k + 1..] + b && (a + b)[k] == a[k]
  {
  }

  lemma SlicesOfBack(a: seq<Entry>, b: seq<Entry>, k: nat)
    requires k < |b|
    ensures (a + b)[..|a| + k] == a + b[..k] && (a + b)[|a| + k + 1..] == b[k + 1..] && (a + b)[|a| + k] == b[k]
  {
  }

  lemma Regroups(a: seq<Entry>, x: seq<Entry>, e: seq<Entry>, y: seq<Entry>)
    ensures a + (x + e + y) == (a + x) + e + y
    ensures (x + e + y) + a == x + e + (y + a)
  {
  }

  lemma SpliceFront(a: seq<Entry>, b: seq<Entry>, id: Id, edit: Edit)
    requires Has(a, id)
    ensures Has(a + b, id) && Splice(a + b, id, edit) == Splice(a, id, edit) + b && (a + b)[Find(a + b, id)] == a[Find(a, id)]
  {
    FindJoins(a, b, id);
    hide Find;
    var k := Find(a, id);
    SlicesOfFront(a, b, k);
    Regroups(b, a[..k], edit(a[k]), a[k + 1..]);
  }

  lemma SpliceBack(a: seq<Entry>, b: seq<Entry>, id: Id, edit: Edit)
    requires !Has(a, id) && Has(b, id)
    ensures Has(a + b, id) && Splice(a + b, id, edit) == a + Splice(b, id, edit) && (a + b)[Find(a + b, id)] == b[Find(b, id)]
  {
    FindJoins(a, b, id);
    hide Find;
    var k := Find(b, id);
    SlicesOfBack(a, b, k);
    Regroups(a, b[..k], edit(b[k]), b[k + 1..]);
  }

  /** Editing the first vector that holds the id edits the flat list at its first entry. */
  lemma {:induction false} VectorsConcat(vs: seq<seq<Entry>>, id: Id, edit: Edit)
    ensures SpliceVectors(vs, id, edit).Some? <==> Has(Concat(vs), id)
    ensures Has(Concat(vs), id) ==> Concat(SpliceVectors(vs, id, edit).value) == Splice(Concat(vs), id, edit)
    decreases |vs|
  {
    if vs != [] {
      var rest := Concat(vs[1..]);
      hide Splice;
      VectorsConcat(vs[1..], id, edit);
      FindJoins(vs[0], rest, id);
      if Has(vs[0], id) {
        SpliceFront(vs[0], rest, id, edit);
      } else if Has(rest, id) {
        SpliceBack(vs[0], rest, id, edit);
      }
    }
  }

  lemma {:induction false} ConcatJoins(a: seq<seq<Entry>>, b: seq<seq<Entry>>)
    ensures Concat(a + b) == Concat(a) + Concat(b)
    decreases |a|
  {
    if a == [] {
      assert a + b == b;
    } else {
      assert (a + b)[1..] == a[1..] + b;
      ConcatJoins(a[1..], b);
    }
  }

  lemma {:induction false} CollectedIsConcat(gs: seq<EntryGroup>)
    ensures Collected(gs) == Concat(GroupVectors(gs))
    decreases gs
  {
    if gs != [] {
      CollectedIsConcat(gs[0].groups);
      CollectedIsConcat(gs[1..]);
      ConcatJoins([gs[0].entries] + GroupVectors(gs[0].groups), GroupVectors(gs[1..]));
      ConcatJoins([gs[0].entries], GroupVectors(gs[0].groups));
      assert Concat([gs[0].entries]) == gs[0].entries;
    }
  }

  lemma EntriesIsConcat(t: Tree)
    ensures Entries(t) == Concat(Vectors(t))
  {
    CollectedIsConcat(t.groups);
    assert Vectors(t)[1..] == GroupVectors(t.groups);
  }

  /** The entry handed back is the first of that id in the list of entries. */
  lemma {:induction false} FoundInGroups(gs: seq<EntryGroup>, id: Id, edit: Edit)
    ensures SpliceGroups(gs, id, edit).Some? <==> Has(Collected(gs), id)
    ensures Has(Collected(gs), id) ==> SpliceGroups(gs, id, edit).value.entry == Collected(gs)[Find(Collected(gs), id)]
    decreases gs
  {
    if gs != [] {
      var g := gs[0];
      var nested, rest := Collected(g.groups), Collected(gs[1..]);
      FoundInGroups(g.groups, id, edit);
      FoundInGroups(gs[1..], id, edit);
      FindJoins(g.entries, nested + rest, id);
      FindJoins(nested, rest, id);
    }
  }

  /** The whole of an edit: where it happens, what it does to the list, and what it leaves alone. */
  lemma EditActsOnTheList(t: Tree, id: Id, edit: Edit)
    ensures SpliceTree(t, id, edit).Some? <==> Has(Entries(t), id)
    ensures Has(Entries(t), id) ==>
              var found := SpliceTree(t, id, edit).value;
              && Entries(found.after) == Splice(Entries(t), id, edit)
              && found.entry == Entries(t)[Find(Entries(t), id)]
              && Frames(found.after.groups) == Frames(t.groups)
  {
    hide Splice, SpliceVectors;
    TreeIsEdited(t, id, edit);
    VectorsConcat(Vectors(t), id, edit);
    EntriesIsConcat(t);
    if SpliceTree(t, id, edit).Some? {
      EntriesIsConcat(SpliceTree(t, id, edit).value.after);
      FoundInGroups(t.groups, id, edit);
      FindJoins(t.entries, Collected(t.groups), id);
    }
  }
}
