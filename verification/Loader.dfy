/** The transaction of crates/tessivum-core/src/loader.rs: one tree replaces another, or the old one is restored. */
module LoaderTransaction {
  import opened EntryTree
  import opened EntryTreePatches
  import opened EntryTreeValidation
  import opened Wrappers

  type Handle = nat

  datatype LiveEntry = LiveEntry(entry: Entry, handle: Handle)

  datatype LoaderError = AlreadyLoaded | InvalidTree | BadPatch(error: PatchError) | ImportFailed | RemovalFailed | StartFailed | UnloadFailed

  /**
   What the resolver, the runtimes and the plugins answer: whether the import of an entry (in a given attempt)
   yields a handle, and whether a handle starts and disposes without an error.
   */
  datatype World = World(imports: (nat, Entry) -> bool, starts: Handle -> bool, disposes: Handle -> bool)

  /** `created` and `disposed` record every handle ever made and every call of `dispose`, in order. */
  datatype State = State(tree: Tree, live: seq<LiveEntry>, created: nat, disposed: seq<Handle>)

  const EMPTY_TREE := Tree([], [])
  const INITIAL := State(EMPTY_TREE, [], 0, [])

  function Handles(live: seq<LiveEntry>): (hs: seq<Handle>)
    ensures |hs| == |live|
  {
    seq(|live|, k requires 0 <= k < |live| => live[k].handle)
  }

  function EntriesOf(live: seq<LiveEntry>): (es: seq<Entry>)
    ensures |es| == |live|
  {
    seq(|live|, k requires 0 <= k < |live| => live[k].entry)
  }

  function Reversed<T>(s: seq<T>): (r: seq<T>)
    ensures |r| == |s|
  {
    seq(|s|, k requires 0 <= k < |s| => s[|s| - 1 - k])
  }

  // ----- steps

  /** `dispose_all`, last entry first. */
  function Dispose(s: State, live: seq<LiveEntry>): State {
    s.(disposed := s.disposed + Reversed(Handles(live)))
  }

  predicate DisposeErrors(live: seq<LiveEntry>, w: World) {
    exists l <- live :: !w.disposes(l.handle)
  }

  predicate StartErrors(live: seq<LiveEntry>, w: World) {
    exists l <- live :: !w.starts(l.handle)
  }

  /** The entries whose import succeeded, each with a new handle. */
  function Imported(es: seq<Entry>, attempt: nat, w: World, created: nat): seq<LiveEntry> {
    if es == [] then []
    else
      var front := Imported(es[..|es| - 1], attempt, w, created);
      var e := es[|es| - 1];
      if w.imports(attempt, e) then front + [LiveEntry(e, created + |front|)] else front
  }

  datatype Import = Import(state: State, candidates: Option<seq<LiveEntry>>)

  /** `import_candidates`: every active entry, or none. */
  function ImportAll(s: State, t: Tree, attempt: nat, w: World): Import {
    var es := ActiveEntries(t);
    var made := Imported(es, attempt, w, s.created);
    var s1 := s.(created := s.created + |made|);
    if |made| == |es| then Import(s1, Some(made)) else Import(Dispose(s1, made), None)
  }

  /** `restore_committed_tree`: the old tree imported and started anew, or nothing live. */
  function Restore(s: State, w: World): State {
    var imported := ImportAll(s.(live := []), s.tree, 1, w);
    match imported.candidates
    case None => imported.state
    case Some(restored) =>
      if StartErrors(restored, w) then Dispose(imported.state, restored) else imported.state.(live := restored)
  }

  datatype Result = Done(state: State, error: Option<LoaderError>)

  function Replaced(s: State, t: Tree, check: Check, w: World): Result {
    if !Validate(t, check) then Done(s, Some(InvalidTree))
    else
      var imported := ImportAll(s, t, 0, w);
      match imported.candidates
      case None => Done(imported.state, Some(ImportFailed))
      case Some(candidate) => Exchange(imported.state, t, candidate, w)
  }

  /** The old entries go; the candidate takes their place if nothing fails. */
  function Exchange(s: State, t: Tree, candidate: seq<LiveEntry>, w: World): Result {
    var removed := Dispose(s, s.live);
    if DisposeErrors(s.live, w) then Done(Restore(Dispose(removed, candidate), w), Some(RemovalFailed))
    else if StartErrors(candidate, w) then Done(Restore(Dispose(removed, candidate), w), Some(StartFailed))
    else Done(removed.(tree := t, live := candidate), None)
  }

  datatype Command = Load(tree: Tree) | Update(patches: seq<Patch>) | Swap(tree: Tree) | Unload

  function Execute(s: State, c: Command, check: Check, w: World): Result {
    match c
    case Load(t) => if s.live != [] then Done(s, Some(AlreadyLoaded)) else Replaced(s, t, check, w)
    case Swap(t) => Replaced(s, t, check, w)
    case Update(ps) =>
      (match ApplyAll(s.tree, ps, check)
       case Err(e) => Done(s, Some(BadPatch(e)))
       case Ok(t) => Replaced(s, t, check, w))
    case Unload =>
      if DisposeErrors(s.live, w) then Done(Dispose(s, s.live), Some(UnloadFailed))
      else Done(Dispose(s, s.live).(live := [], tree := EMPTY_TREE), None)
  }

  // ----- the loader

  class Loader {
    var tree: Tree
    var live: seq<LiveEntry>
    var created: nat
    var disposed: seq<Handle>

    function Current(): State
      reads this
    {
      State(tree, live, created, disposed)
    }

    constructor ()
      ensures Current() == INITIAL
    {
      tree, live, created, disposed := EMPTY_TREE, [], 0, [];
    }

    method DisposeAll(entries: seq<LiveEntry>, w: World) returns (errors: bool)
      modifies this`disposed
      ensures Current() == Dispose(old(Current()), entries) && (errors <==> DisposeErrors(entries, w))
    {
      var k := |entries|;
      errors := false;
      while k > 0
        invariant 0 <= k <= |entries|
        invariant disposed == old(disposed) + Reversed(Handles(entries))[..|entries| - k]
        invariant errors <==> exists l <- entries[k..] :: !w.disposes(l.handle)
      {
        k := k - 1;
        assert entries[k..] == [entries[k]] + entries[k + 1..];
        disposed := disposed + [entries[k].handle];
        errors := errors || !w.disposes(entries[k].handle);
      }
    }

    method ImportCandidates(t: Tree, attempt: nat, w: World) returns (candidates: Option<seq<LiveEntry>>)
      modifies this`created, this`disposed
      ensures Import(Current(), candidates) == ImportAll(old(Current()), t, attempt, w)
    {
      var es := ActiveEntries(t);
      var made: seq<LiveEntry> := [];
      var failed := false;
      for k := 0 to |es|
        invariant made == Imported(es[..k], attempt, w, old(created)) && created == old(created) + |made|
        invariant |made| <= k && (failed <==> |made| < k) && disposed == old(disposed)
      {
        assert es[..k + 1][..k] == es[..k];
        if w.imports(attempt, es[k]) {
          made := made + [LiveEntry(es[k], created)];
          created := created + 1;
        } else {
          failed := true;
        }
      }
      assert es[..|es|] == es;
      if failed {
        var _ := DisposeAll(made, w);
        return None;
      }
      candidates := Some(made);
    }

    method ActivateAll(entries: seq<LiveEntry>, w: World) returns (errors: bool)
      ensures errors <==> StartErrors(entries, w)
    {
      errors := false;
      for k := 0 to |entries|
        invariant errors <==> exists l <- entries[..k] :: !w.starts(l.handle)
      {
        assert entries[..k + 1] == entries[..k] + [entries[k]];
        errors := errors || !w.starts(entries[k].handle);
      }
      assert entries[..|entries|] == entries;
    }

    method RestoreCommittedTree(w: World)
      modifies this
      ensures Current() == Restore(old(Current()), w)
    {
      live := [];
      var restored := ImportCandidates(tree, 1, w);
      if restored.Some? {
        var errors := ActivateAll(restored.value, w);
        if errors {
          var _ := DisposeAll(restored.value, w);
        } else {
          live := restored.value;
        }
      }
    }

    method ReplaceTree(t: Tree, check: Check, w: World) returns (error: Option<LoaderError>)
      modifies this
      ensures Done(Current(), error) == Replaced(old(Current()), t, check, w)
    {
      var ok := CheckTree(t, check);
      if !ok {
        return Some(InvalidTree);
      }
      var candidate := ImportCandidates(t, 0, w);
      if candidate.None? {
        return Some(ImportFailed);
      }
      var removalErrors := DisposeAll(live, w);
      if removalErrors {
        var _ := DisposeAll(candidate.value, w);
        RestoreCommittedTree(w);
        return Some(RemovalFailed);
      }
      live := [];
      var startErrors := ActivateAll(candidate.value, w);
      if startErrors {
        var _ := DisposeAll(candidate.value, w);
        RestoreCommittedTree(w);
        return Some(StartFailed);
      }
      live := candidate.value;
      tree := t;
      error := None;
    }

    method Run(c: Command, check: Check, w: World) returns (error: Option<LoaderError>)
      modifies this
      ensures Done(Current(), error) == Execute(old(Current()), c, check, w)
    {
      match c
      case Load(t) =>
        if live != [] {
          return Some(AlreadyLoaded);
        }
        error := ReplaceTree(t, check, w);
      case Swap(t) =>
        error := ReplaceTree(t, check, w);
      case Update(ps) =>
        var patched := ApplyPatches(tree, ps, check);
        if patched.Err? {
          return Some(BadPatch(patched.error));
        }
        error := ReplaceTree(patched.value, check, w);
      case Unload =>
        var errors := DisposeAll(live, w);
        if errors {
          return Some(UnloadFailed);
        }
        live, tree, error := [], EMPTY_TREE, None;
    }
  }

  // ----- what every command keeps

  ghost predicate DistinctHandles(live: seq<LiveEntry>) {
    forall j, k :: 0 <= j < k < |live| ==> live[j].handle != live[k].handle
  }

  /** Each handle ever created is live and not disposed, or was disposed exactly once. */
  ghost predicate Accounted(s: State) {
    && DistinctHandles(s.live)
    && (forall l <- s.live :: l.handle < s.created)
    && forall h: Handle :: multiset(s.disposed)[h] == if h >= s.created || h in Handles(s.live) then 0 else 1
  }

  /** The live handles belong to the committed tree's active entries, in order; none is live if restoring them has failed. */
  ghost predicate Committed(s: State, lost: bool) {
    if lost then s.live == [] else EntriesOf(s.live) == ActiveEntries(s.tree)
  }

  ghost predicate Valid(s: State, lost: bool) {
    Accounted(s) && Committed(s, lost)
  }

  ghost predicate AllImport(t: Tree, attempt: nat, w: World) {
    forall e <- ActiveEntries(t) :: w.imports(attempt, e)
  }

  /** The handles made for the tree's active entries, the first of them `created`, all start. */
  ghost predicate AllStart(t: Tree, created: nat, w: World) {
    forall h: Handle :: created <= h < created + |ActiveEntries(t)| ==> w.starts(h)
  }

  ghost predicate AllDispose(live: seq<LiveEntry>, w: World) {
    forall l <- live :: w.disposes(l.handle)
  }

  /** Every active entry of the tree can be imported again, and every handle made for it starts. */
  ghost predicate Restorable(t: Tree, created: nat, w: World) {
    AllImport(t, 1, w) && AllStart(t, created, w)
  }

  /** A step in the middle of a transaction: handles outside `live` that are not disposed yet. */
  ghost predicate Holds(s: State, extra: seq<LiveEntry>) {
    Accounted(s.(live := s.live + extra))
  }

  lemma {:induction false} ImportedAreFresh(es: seq<Entry>, attempt: nat, w: World, created: nat)
    ensures var made := Imported(es, attempt, w, created);
            && |made| <= |es|
            && (forall k :: 0 <= k < |made| ==> made[k].handle == created + k)
            && (|made| == |es| ==> EntriesOf(made) == es)
            && (|made| == |es| <==> forall e <- es :: w.imports(attempt, e))
    decreases |es|
  {
    if es != [] {
      var front := es[..|es| - 1];
      ImportedAreFresh(front, attempt, w, created);
      assert es == front + [es[|es| - 1]];
    }
  }

  lemma StartsMean(live: seq<LiveEntry>, first: Handle, w: World)
    requires forall k :: 0 <= k < |live| ==> live[k].handle == first + k
    ensures StartErrors(live, w) <==> exists h: Handle :: first <= h < first + |live| && !w.starts(h)
  {
    if h: Handle :| first <= h < first + |live| && !w.starts(h) {
      assert live[h - first] in live;
    }
  }

  lemma ReversedCounts<T>(s: seq<T>)
    ensures multiset(Reversed(s)) == multiset(s)
    decreases |s|
  {
    if s != [] {
      ReversedCounts(s[1..]);
      assert Reversed(s) == Reversed(s[1..]) + [s[0]];
      assert s == [s[0]] + s[1..];
    }
  }

  lemma DistinctHandlesCount(live: seq<LiveEntry>, h: Handle)
    requires DistinctHandles(live)
    ensures multiset(Handles(live))[h] == if h in Handles(live) then 1 else 0
    decreases |live|
  {
    if live != [] {
      var rest := live[1..];
      DistinctHandlesCount(rest, h);
      assert Handles(live) == [live[0].handle] + Handles(rest);
      assert forall k :: 0 <= k < |rest| ==> rest[k] == live[k + 1];
    }
  }

  lemma HandlesJoin(a: seq<LiveEntry>, b: seq<LiveEntry>)
    ensures Handles(a + b) == Handles(a) + Handles(b)
  {
  }

  /** The parts of distinct entries are distinct, and apart from each other. */
  lemma DistinctParts(a: seq<LiveEntry>, b: seq<LiveEntry>)
    requires DistinctHandles(a + b)
    ensures DistinctHandles(a) && DistinctHandles(b)
    ensures forall h: Handle :: h in Handles(a) ==> h !in Handles(b)
  {
    assert forall k :: 0 <= k < |a| ==> (a + b)[k] == a[k];
    assert forall k :: 0 <= k < |b| ==> (a + b)[|a| + k] == b[k];
    forall h: Handle | h in Handles(a) ensures h !in Handles(b) {
      var j :| 0 <= j < |a| && Handles(a)[j] == h;
      assert (a + b)[j] == a[j];
      forall k | 0 <= k < |b| ensures b[k].handle != h {
        assert (a + b)[|a| + k] == b[k];
      }
    }
  }

  lemma HandleInList(live: seq<LiveEntry>, h: Handle)
    requires h in Handles(live)
    ensures exists l <- live :: l.handle == h
  {
    var k :| 0 <= k < |live| && Handles(live)[k] == h;
    assert live[k] in live;
  }

  /** Disposing entries takes them out of the account. */
  lemma DisposeSettles(s: State, extra: seq<LiveEntry>)
    requires Holds(s, extra)
    ensures Accounted(Dispose(s, extra))
  {
    DistinctParts(s.live, extra);
    HandlesJoin(s.live, extra);
    ReversedCounts(Handles(extra));
    assert forall l <- s.live :: l in s.live + extra;
    assert forall l <- extra :: l in s.live + extra;
    forall h: Handle
      ensures multiset(Dispose(s, extra).disposed)[h] == if h >= s.created || h in Handles(s.live) then 0 else 1
    {
      DistinctHandlesCount(extra, h);
      hide Handles, Reversed, DistinctHandles;
      if h in Handles(extra) {
        HandleInList(extra, h);
      }
      assert multiset(s.disposed + Reversed(Handles(extra))) == multiset(s.disposed) + multiset(Reversed(Handles(extra)));
    }
  }

  lemma ImportHolds(s: State, t: Tree, attempt: nat, w: World)
    requires Accounted(s)
    ensures var r := ImportAll(s, t, attempt, w);
            && r.state.live == s.live && r.state.tree == s.tree
            && (r.candidates.None? ==> Accounted(r.state))
            && (r.candidates.Some? ==> Holds(r.state, r.candidates.value) && EntriesOf(r.candidates.value) == ActiveEntries(t))
            && (r.candidates.Some? <==> AllImport(t, attempt, w))
            && (r.candidates.Some? ==> (StartErrors(r.candidates.value, w) <==> !AllStart(t, s.created, w)))
            && (r.candidates.Some? ==> r.state == s.(created := s.created + |ActiveEntries(t)|))
  {
    hide ActiveEntries;
    var es := ActiveEntries(t);
    var made := Imported(es, attempt, w, s.created);
    ImportedAreFresh(es, attempt, w, s.created);
    var s1 := s.(created := s.created + |made|);
    FreshHold(s, made);
    StartsMean(made, s.created, w);
    if |made| != |es| {
      DisposeSettles(s1, made);
    }
  }

  lemma FreshHold(s: State, made: seq<LiveEntry>)
    requires Accounted(s) && forall k :: 0 <= k < |made| ==> made[k].handle == s.created + k
    ensures Holds(s.(created := s.created + |made|), made)
  {
    var all := s.live + made;
    assert Handles(all) == Handles(s.live) + Handles(made);
    forall h: Handle ensures h in Handles(made) <==> s.created <= h < s.created + |made| {
      if s.created <= h < s.created + |made| {
        assert Handles(made)[h - s.created] == h;
      }
    }
    forall j, k | 0 <= j < k < |all| ensures all[j].handle != all[k].handle {
      if j < |s.live| <= k {
        assert s.live[j] in s.live;
      }
    }
  }

  lemma HoldsNothing(s: State)
    ensures Holds(s, []) <==> Accounted(s)
    ensures Holds(s.(live := []), s.live) <==> Accounted(s)
  {
    assert s.live + [] == s.live && [] + s.live == s.live;
  }

  /** Restoring ends with the committed tree live again exactly if it can be restored, and with nothing live otherwise. */
  lemma RestoreKeeps(s: State, w: World)
    requires Accounted(s.(live := []))
    ensures Valid(Restore(s, w), !Restorable(s.tree, s.created, w)) && Restore(s, w).tree == s.tree
  {
    hide ActiveEntries, Accounted, Imported;
    var s0 := s.(live := []);
    ImportHolds(s0, s.tree, 1, w);
    var imported := ImportAll(s0, s.tree, 1, w);
    if imported.candidates.Some? {
      var restored := imported.candidates.value;
      assert [] + restored == restored;
      if StartErrors(restored, w) {
        DisposeSettles(imported.state, restored);
      }
    }
  }

  /** Old and candidate entries both disposed, in that order. */
  lemma BothSettle(s: State, candidate: seq<LiveEntry>)
    requires Holds(s, candidate)
    ensures Accounted(Dispose(Dispose(s, s.live), candidate).(live := []))
    ensures Accounted(Dispose(s, s.live).(live := candidate))
  {
    hide Accounted;
    Swapped(s, candidate);
    var s0 := s.(live := candidate);
    DisposeSettles(s0, s.live);
    var s1 := Dispose(s0, s.live);
    assert [] + candidate == candidate;
    DisposeSettles(s1.(live := []), candidate);
  }

  lemma Swapped(s: State, candidate: seq<LiveEntry>)
    requires Holds(s, candidate)
    ensures Holds(s.(live := candidate), s.live)
  {
    var a, b := s.live + candidate, candidate + s.live;
    assert Handles(a) == Handles(s.live) + Handles(candidate);
    assert Handles(b) == Handles(candidate) + Handles(s.live);
    var n, m := |s.live|, |candidate|;
    forall j, k | 0 <= j < k < |b| ensures b[j].handle != b[k].handle {
      var j' := if j < m then n + j else j - m;
      var k' := if k < m then n + k else k - m;
      assert a[j'] == b[j] && a[k'] == b[k];
    }
    forall l | l in b ensures l.handle < s.created {
      assert l in a;
    }
  }

  lemma AccountIgnoresTree(s: State, t: Tree)
    ensures Accounted(s.(tree := t)) <==> Accounted(s)
  {
  }

  /** How a replacement by `t` ends, read off the world's answers alone. */
  ghost function Verdict(s: State, t: Tree, check: Check, w: World): Option<LoaderError> {
    if !Validate(t, check) then Some(InvalidTree)
    else if !AllImport(t, 0, w) then Some(ImportFailed)
    else if !AllDispose(s.live, w) then Some(RemovalFailed)
    else if !AllStart(t, s.created, w) then Some(StartFailed)
    else None
  }

  /** Whether the committed tree's handles are gone after a command that asked for `t`, given whether they were before. */
  ghost predicate Lost(s: State, lost: bool, t: Tree, error: Option<LoaderError>, w: World) {
    match error
    case None => false
    case Some(RemovalFailed) => !Restorable(s.tree, s.created + |ActiveEntries(t)|, w)
    case Some(StartFailed) => !Restorable(s.tree, s.created + |ActiveEntries(t)|, w)
    case Some(_) => lost
  }

  /**
   A replacement succeeds exactly if the tree is accepted, its entries are imported, the old handles are disposed and the
   new ones start; otherwise the first of these that fails is the error. It commits the new tree with all its
   active entries live, or keeps the old tree: untouched if the new one is not accepted or not imported, and
   restored as far as it can be if the exchange fails.
   */
  lemma ReplaceIsATransaction(s: State, lost: bool, t: Tree, check: Check, w: World)
    requires Valid(s, lost)
    ensures var r := Replaced(s, t, check, w);
            && r.error == Verdict(s, t, check, w)
            && Valid(r.state, Lost(s, lost, t, r.error, w))
            && (r.error.None? ==> r.state.tree == t && EntriesOf(r.state.live) == ActiveEntries(t) && Validate(t, check))
            && (r.error.Some? ==> r.state.tree == s.tree)
            && (r.error == Some(InvalidTree) || r.error == Some(ImportFailed) ==> r.state.live == s.live)
  {
    hide ActiveEntries, Accounted, Validate, Restore, Restorable;
    if Validate(t, check) {
      ImportHolds(s, t, 0, w);
      var imported := ImportAll(s, t, 0, w);
      if imported.candidates.Some? {
        var s1, candidate := imported.state, imported.candidates.value;
        BothSettle(s1, candidate);
        AccountIgnoresTree(Dispose(s1, s1.live).(live := candidate), t);
        RestoreKeeps(Dispose(Dispose(s1, s1.live), candidate), w);
      }
    }
  }

  // ----- in which order handles are disposed

  /** From `at` on, the log shows the handles of `live`, last first. */
  ghost predicate DisposedFrom(log: seq<Handle>, at: nat, live: seq<LiveEntry>) {
    at + |live| <= |log| && forall k :: 0 <= k < |live| ==> log[at + |live| - 1 - k] == live[k].handle
  }

  /** From `at` on, the log shows the `n` handles created from `first` on, last first. */
  ghost predicate NewDisposedFrom(log: seq<Handle>, at: nat, first: Handle, n: nat) {
    at + n <= |log| && forall k :: 0 <= k < n ==> log[at..][k] == first + (n - 1 - k)
  }

  lemma NewOnesInReverse(s: State, made: seq<LiveEntry>, first: Handle)
    requires forall k :: 0 <= k < |made| ==> made[k].handle == first + k
    ensures NewDisposedFrom(Dispose(s, made).disposed, |s.disposed|, first, |made|)
  {
    assert Dispose(s, made).disposed[|s.disposed|..] == Reversed(Handles(made));
  }

  lemma DisposeAppends(s: State, live: seq<LiveEntry>)
    ensures DisposedFrom(Dispose(s, live).disposed, |s.disposed|, live)
    ensures |Dispose(s, live).disposed| == |s.disposed| + |live| && s.disposed <= Dispose(s, live).disposed
  {
  }

  lemma LogGrows(log: seq<Handle>, more: seq<Handle>, at: nat, live: seq<LiveEntry>, first: Handle, n: nat)
    requires log <= more
    ensures DisposedFrom(log, at, live) ==> DisposedFrom(more, at, live)
    ensures NewDisposedFrom(log, at, first, n) ==> NewDisposedFrom(more, at, first, n)
  {
    if at <= |log| { assert log[at..] <= more[at..]; }
  }

  lemma RestoreAppends(s: State, w: World)
    ensures s.disposed <= Restore(s, w).disposed && s.created <= Restore(s, w).created
  {
    hide ActiveEntries;
  }

  lemma ExchangeDisposesInReverse(s: State, t: Tree, candidate: seq<LiveEntry>, first: Handle, w: World)
    requires forall k :: 0 <= k < |candidate| ==> candidate[k].handle == first + k
    ensures var r := Exchange(s, t, candidate, w);
      && s.disposed <= r.state.disposed && DisposedFrom(r.state.disposed, |s.disposed|, s.live)
      && (r.error.None? ==>
            && r.state.created == s.created && r.state.live == candidate
            && |r.state.disposed| == |s.disposed| + |s.live|)
      && (r.error.Some? ==>
            && r.error != Some(ImportFailed) && r.error != Some(InvalidTree)
            && NewDisposedFrom(r.state.disposed, |s.disposed| + |s.live|, first, |candidate|))
  {
    hide Restore, DisposedFrom, NewDisposedFrom;
    DisposeAppends(s, s.live);
    var removed := Dispose(s, s.live);
    NewOnesInReverse(removed, candidate, first);
    DisposeAppends(removed, candidate);
    var both := Dispose(removed, candidate);
    hide Dispose;
    RestoreAppends(both, w);
    LogGrows(removed.disposed, both.disposed, |s.disposed|, s.live, 0, 0);
    LogGrows(both.disposed, Restore(both, w).disposed, |s.disposed|, s.live, 0, 0);
    LogGrows(both.disposed, Restore(both, w).disposed, |s.disposed| + |s.live|, [], first, |candidate|);
  }

  /**
   A replacement disposes the old handles last first and, if the exchange fails, then the new ones last first; handles made
   by an import that fails as a whole are disposed last first and nothing else is. What came before stays on the log.
   */
  lemma ReplacementDisposesInReverse(s: State, t: Tree, check: Check, w: World)
    ensures var r := Replaced(s, t, check, w);
      var n, old' := |ActiveEntries(t)|, |s.disposed|;
      && s.disposed <= r.state.disposed
      && (r.error == Some(InvalidTree) ==> r.state == s)
      && (r.error == Some(ImportFailed) ==>
            var m := r.state.created - s.created;
            0 <= m < n && NewDisposedFrom(r.state.disposed, old', s.created, m) && |r.state.disposed| == old' + m)
      && (r.error.None? ==>
            && r.state.created == s.created + n
            && DisposedFrom(r.state.disposed, old', s.live) && |r.state.disposed| == old' + |s.live|
            && forall k :: 0 <= k < |r.state.live| ==> r.state.live[k].handle == s.created + k)
      && (r.error == Some(RemovalFailed) || r.error == Some(StartFailed) ==>
            && DisposedFrom(r.state.disposed, old', s.live)
            && NewDisposedFrom(r.state.disposed, old' + |s.live|, s.created, n))
  {
    hide ActiveEntries, Validate, Exchange, Imported, DisposedFrom, NewDisposedFrom;
    if Validate(t, check) {
      var es := ActiveEntries(t);
      var made := Imported(es, 0, w, s.created);
      ImportedAreFresh(es, 0, w, s.created);
      var s1 := s.(created := s.created + |made|);
      NewOnesInReverse(s1, made, s.created);
      DisposeAppends(s1, made);
      if |made| == |es| {
        ExchangeDisposesInReverse(s1, t, made, s.created, w);
      }
    }
  }

  /** An unload disposes every live handle, last first, whether one of them fails or not. */
  lemma UnloadDisposesInReverse(s: State, check: Check, w: World)
    ensures var r := Execute(s, Unload, check, w);
      && s.disposed <= r.state.disposed && |r.state.disposed| == |s.disposed| + |s.live|
      && DisposedFrom(r.state.disposed, |s.disposed|, s.live) && r.state.created == s.created
  {
  }

  /** An unload keeps the account exactly when it succeeds: after a failure the live handles have been disposed. */
  lemma UnloadKeeps(s: State, lost: bool, check: Check, w: World)
    requires Valid(s, lost)
    ensures var r := Execute(s, Unload, check, w);
            && (Accounted(r.state) <==> r.error.None?)
            && (Valid(r.state, false) <==> r.error.None?)
            && (r.error.None? <==> forall l <- s.live :: w.disposes(l.handle))
  {
    hide Accounted, ActiveEntries;
    if DisposeErrors(s.live, w) {
      StillLive(s, w);
    } else {
      HoldsNothing(s);
      DisposeSettles(s.(live := []), s.live);
      AccountIgnoresTree(Dispose(s.(live := []), s.live), EMPTY_TREE);
      NothingIsActive();
    }
  }

  lemma NothingIsActive()
    ensures ActiveEntries(EMPTY_TREE) == [] && EntriesOf([]) == []
  {
  }

  lemma StillLive(s: State, w: World)
    requires DisposeErrors(s.live, w)
    ensures !Accounted(Dispose(s, s.live))
  {
    var l :| l in s.live && !w.disposes(l.handle);
    var k :| 0 <= k < |s.live| && s.live[k] == l;
    assert Handles(s.live)[k] == l.handle;
    ReversedCounts(Handles(s.live));
    assert l.handle in multiset(Handles(s.live));
    assert multiset(Dispose(s, s.live).disposed)[l.handle] > 0;
  }

  // ----- runs

  datatype Event = Event(command: Command, world: World)

  function RunAll(s: State, events: seq<Event>, check: Check): State
    decreases |events|
  {
    if events == [] then s
    else
      var front := RunAll(s, events[..|events| - 1], check);
      var last := events[|events| - 1];
      Execute(front, last.command, check, last.world).state
  }

  /** The tree a command asks for, given the committed one. */
  function Target(t: Tree, c: Command, check: Check): Tree {
    match c
    case Load(t') => t'
    case Swap(t') => t'
    case Update(ps) => (match ApplyAll(t, ps, check) case Ok(t') => t' case Err(_) => t)
    case Unload => EMPTY_TREE
  }

  /** No unload of the run fails. */
  ghost predicate UnloadsSucceed(s: State, events: seq<Event>, check: Check) {
    forall k :: 0 <= k < |events| && events[k].command.Unload? ==>
      Execute(RunAll(s, events[..k], check), events[k].command, check, events[k].world).error.None?
  }

  /** How a command ends; a load is refused while something is live, an update if its patches fail. */
  ghost function CommandVerdict(s: State, c: Command, check: Check, w: World): Option<LoaderError> {
    match c
    case Load(t) => if s.live == [] then Verdict(s, t, check, w) else Some(AlreadyLoaded)
    case Swap(t) => Verdict(s, t, check, w)
    case Update(ps) =>
      (match ApplyAll(s.tree, ps, check)
       case Err(e) => Some(BadPatch(e))
       case Ok(t) => Verdict(s, t, check, w))
    case Unload => if AllDispose(s.live, w) then None else Some(UnloadFailed)
  }

  lemma CommandKeeps(s: State, lost: bool, c: Command, check: Check, w: World)
    requires Valid(s, lost) && (c.Unload? ==> Execute(s, c, check, w).error.None?)
    ensures var r := Execute(s, c, check, w);
            && r.error == CommandVerdict(s, c, check, w)
            && Valid(r.state, Lost(s, lost, Target(s.tree, c, check), r.error, w))
            && r.state.tree == if r.error.None? then Target(s.tree, c, check) else s.tree
  {
    hide Valid, Replaced, Restorable;
    match c
    case Load(t) => ReplaceIsATransaction(s, lost, t, check, w);
    case Swap(t) => ReplaceIsATransaction(s, lost, t, check, w);
    case Unload => UnloadKeeps(s, lost, check, w);
    case Update(ps) =>
      if ApplyAll(s.tree, ps, check).Ok? {
        ReplaceIsATransaction(s, lost, ApplyAll(s.tree, ps, check).value, check, w);
      }
  }

  /** Whether the last restoration of the run, if nothing was committed after it, could not be made. */
  ghost function LastLost(events: seq<Event>, check: Check): bool
    decreases |events|
  {
    events != [] &&
    var front, last := events[..|events| - 1], events[|events| - 1];
    var s := RunAll(INITIAL, front, check);
    Lost(s, LastLost(front, check), Target(s.tree, last.command, check),
         Execute(s, last.command, check, last.world).error, last.world)
  }

  /** What the last successful command of the run asked for. */
  function LastCommitted(events: seq<Event>, check: Check): Tree
    decreases |events|
  {
    if events == [] then EMPTY_TREE
    else
      var front, last := events[..|events| - 1], events[|events| - 1];
      var before := LastCommitted(front, check);
      if Execute(RunAll(INITIAL, front, check), last.command, check, last.world).error.None? then Target(before, last.command, check)
      else before
  }

  /**
   Over whole runs: the tree is the last one committed, every handle is accounted for, and the live handles are those of
   the tree's active entries in order, or none exactly after a restoration that could not be made.
   */
  lemma {:induction false} RunsKeepTheAccount(events: seq<Event>, check: Check)
    requires UnloadsSucceed(INITIAL, events, check)
    ensures var s := RunAll(INITIAL, events, check);
      && Accounted(s) && s.tree == LastCommitted(events, check)
      && (if LastLost(events, check) then s.live == [] else EntriesOf(s.live) == ActiveEntries(s.tree))
    decreases |events|
  {
    hide Execute, Target, Accounted, Lost;
    if events == [] {
      InitiallyValid();
    } else {
      var n := |events| - 1;
      var front := events[..n];
      assert forall k :: 0 <= k < n ==> front[k] == events[k] && front[..k] == events[..k];
      RunsKeepTheAccount(front, check);
      var s := RunAll(INITIAL, front, check);
      CommandKeeps(s, LastLost(front, check), events[n].command, check, events[n].world);
    }
  }

  lemma InitiallyValid()
    ensures Valid(INITIAL, false)
  {
    assert EntriesOf([]) == [];
  }

  /** One live handle that refuses to be disposed, and imports that fail from then on. */
  const STUCK := Entry("a", "p", "", false, "")
  const STUCK_STATE := State(Tree([STUCK], []), [LiveEntry(STUCK, 0)], 1, [])
  const STUCK_WORLD := World((_, _) => false, _ => true, _ => false)

  /** Every import succeeds and every handle starts. */
  const GOOD_WORLD := World((_, _) => true, _ => true, _ => true)

  lemma StuckIsLoaded(check: Check)
    requires check(STUCK)
    ensures Execute(INITIAL, Load(Tree([STUCK], [])), check, GOOD_WORLD).state == STUCK_STATE
  {
    assert [STUCK][1..] == [] && [STUCK][..0] == [];
    assert ValidateEntries([], {} + {STUCK.id}, check) == Some({} + {STUCK.id});
    assert Validate(Tree([STUCK], []), check);
    assert ActiveOf([STUCK], false) == [STUCK];
    assert ActiveEntries(Tree([STUCK], [])) == [STUCK] + CollectedActive([], false) == [STUCK];
    assert Imported([], 0, GOOD_WORLD, 0) == [];
    assert Imported([STUCK], 0, GOOD_WORLD, 0) == [LiveEntry(STUCK, 0)];
    assert Reversed(Handles([])) == [];
  }

  lemma StuckUnloads(check: Check)
    ensures Execute(STUCK_STATE, Unload, check, STUCK_WORLD) == Done(STUCK_STATE.(disposed := [0]), Some(UnloadFailed))
  {
    assert Reversed(Handles(STUCK_STATE.live)) == [0];
    assert STUCK_STATE.live[0] in STUCK_STATE.live;
  }

  lemma StuckRestores(s: State)
    requires s.tree == STUCK_STATE.tree
    ensures Restore(s, STUCK_WORLD).disposed == s.disposed
  {
    assert [STUCK][1..] == [] && [STUCK][..0] == [];
    assert ActiveOf([STUCK], false) == [STUCK];
    assert ActiveEntries(s.tree) == [STUCK] + CollectedActive([], false) == [STUCK];
    assert Imported([STUCK], 1, STUCK_WORLD, s.created) == [];
    assert Reversed(Handles([])) == [];
  }

  lemma StuckReplaces(check: Check)
    ensures Replaced(STUCK_STATE.(disposed := [0]), EMPTY_TREE, check, STUCK_WORLD).state.disposed == [0, 0]
  {
    hide Restore;
    var s1 := STUCK_STATE.(disposed := [0]);
    assert ActiveEntries(EMPTY_TREE) == [];
    assert ImportAll(s1, EMPTY_TREE, 0, STUCK_WORLD) == Import(s1, Some([]));
    assert Reversed(Handles(s1.live)) == [0] && Reversed(Handles([])) == [];
    assert s1.live[0] in s1.live;
    StuckRestores(Dispose(Dispose(s1, s1.live), []));
  }

  /** After a failed unload a replacement disposes the same handle a second time. */
  lemma FailedUnloadDisposesTwice(check: Check)
    requires check(STUCK)
    ensures exists load: Event, unload: Event, swap: Event ::
      && unload.command == Unload && Execute(RunAll(INITIAL, [load], check), Unload, check, unload.world).error.Some?
      && multiset(RunAll(INITIAL, [load, unload, swap], check).disposed)[0] == 2
  {
    hide Replaced;
    var load := Event(Load(Tree([STUCK], [])), GOOD_WORLD);
    var unload, swap := Event(Unload, STUCK_WORLD), Event(Swap(EMPTY_TREE), STUCK_WORLD);
    StuckIsLoaded(check);
    StuckUnloads(check);
    StuckReplaces(check);
    assert [load, unload, swap][..2] == [load, unload] && [load, unload][..1] == [load] && [load][..0] == [];
    assert RunAll(INITIAL, [], check) == INITIAL;
    assert RunAll(INITIAL, [load], check) == STUCK_STATE;
    assert RunAll(INITIAL, [load, unload], check) == STUCK_STATE.(disposed := [0]);
    assert RunAll(INITIAL, [load, unload, swap], check).disposed == [0, 0];
    assert unload.command == Unload;
    assert multiset([0, 0])[0] == 2;
  }
}
