/**
 The service registry (crates/tessivum-core/src/service.rs): one host registry and any
 number of staging overlays on top of it. A lock-protected method of the source is one
 method here; the functions above the class say what each of them does to the state.
 */
module ServiceRegistry {
  import opened Wrappers

  type Generation = nat

  /** `Realm` and `ResolvedService`: the address of one provider. */
  datatype Realm = Root | Shared(name: string) | Private(generation: Generation)
  datatype Slot = Slot(key: string, realm: Realm)

  /** `ServiceEntry`; the value is opaque to the registry. */
  datatype Entry = Entry(generation: Generation, value: int)

  type Providers = map<Slot, Entry>

  datatype ServiceError = ServiceAlreadyProvided | ServiceNotProvided | ServiceChanged

  /** The part of `RegistryState` that service operations touch. */
  datatype Staging = Staging(providers: Providers, expected: map<Slot, Option<Generation>>, committed: bool)

  const EMPTY_STAGING := Staging(map[], map[], false)

  /** The generation a registry currently holds in `slot`. */
  function GenerationAt(providers: Providers, slot: Slot): Option<Generation> {
    if slot in providers then Some(providers[slot].generation) else None
  }

  /** What a lookup through the overlay `o` on top of `host` answers. */
  function Lookup(host: Providers, o: Staging, slot: Slot): Option<Entry> {
    if !o.committed && slot in o.providers then Some(o.providers[slot])
    else if slot in host then Some(host[slot])
    else None
  }

  /** Staged providers and recorded expectations cover the same slots; a committed overlay is drained. */
  ghost predicate WellFormed(o: Staging) {
    && o.providers.Keys == o.expected.Keys
    && (o.committed ==> o.providers == map[])
  }

  /** The registration check of `provide`: replacing needs a visible provider, providing forbids one. */
  function Admit(visible: bool, replace: bool): (r: Option<ServiceError>)
    ensures r == None <==> visible == replace
  {
    if !replace && visible then Some(ServiceAlreadyProvided)
    else if replace && !visible then Some(ServiceNotProvided)
    else None
  }

  /** The overlay after staging `entry`: the first write of a slot records what the host held. */
  function Stage(host: Providers, o: Staging, slot: Slot, entry: Entry): Staging {
    Staging(o.providers[slot := entry],
            if slot in o.expected then o.expected else o.expected[slot := GenerationAt(host, slot)],
            o.committed)
  }

  /** The overlay after a cleanup of `slot` ran against it. */
  function Unstage(o: Staging, slot: Slot, generation: Generation): Staging {
    if GenerationAt(o.providers, slot) == Some(generation)
    then o.(providers := o.providers - {slot}, expected := o.expected - {slot})
    else o
  }

  /** The host after a cleanup of `slot` ran against it. */
  function Retract(host: Providers, slot: Slot, generation: Generation): Providers {
    if GenerationAt(host, slot) == Some(generation) then host - {slot} else host
  }

  /** Every recorded slot still holds the generation it was recorded with. */
  ghost predicate Unchanged(host: Providers, o: Staging) {
    forall slot :: slot in o.expected ==> GenerationAt(host, slot) == o.expected[slot]
  }

  /** `next_generation`: a counter shared by the whole process. */
  class Generations {
    var next: Generation

    constructor ()
      ensures next == 1
    {
      next := 1;
    }

    method Take() returns (generation: Generation)
      modifies this
      ensures generation == old(next) && next == old(next) + 1
    {
      generation := next;
      next := next + 1;
    }
  }

  class Registry {
    var providers: Providers
    var expected: map<Slot, Option<Generation>>
    var committed: bool
    const parent: Registry?

    /** `Registry::staged` is only ever given a host, so overlays do not nest. */
    ghost predicate Valid()
      reads this, parent
    {
      if parent == null then
        !committed && expected == map[]
      else
        WellFormed(State()) && parent.parent == null && !parent.committed && parent.expected == map[]
    }

    function State(): Staging
      reads this
    {
      Staging(providers, expected, committed)
    }

    constructor Host()
      ensures Valid() && parent == null && providers == map[]
    {
      providers, expected, committed := map[], map[], false;
      parent := null;
    }

    constructor Staged(host: Registry)
      requires host.Valid() && host.parent == null
      ensures Valid() && parent == host && State() == EMPTY_STAGING
    {
      providers, expected, committed := map[], map[], false;
      parent := host;
    }

    /** `entry`: the provider visible through this registry. */
    function Find(slot: Slot): (r: Option<Entry>)
      requires Valid()
      reads this, parent
      ensures r == Lookup(if parent == null then map[] else parent.providers, State(), slot)
      decreases parent != null
    {
      if !committed && slot in providers then Some(providers[slot])
      else if parent != null then parent.Find(slot)
      else None
    }

    /** `ServiceHandle::is_current` for a handle obtained through this registry. */
    predicate IsCurrent(slot: Slot, generation: Generation)
      requires Valid()
      reads this, parent
    {
      Find(slot).Some? && Find(slot).value.generation == generation
    }

    /** Publishes a provider in the registry this one currently writes to. */
    method Provide(slot: Slot, value: int, replace: bool, ids: Generations)
      returns (r: Result<Generation, ServiceError>)
      requires Valid()
      modifies this, parent, ids
      ensures Valid() && committed == old(committed)
      ensures r.Ok? <==> old(Find(slot)).Some? == replace
      ensures r.Err? ==> r.error == (if replace then ServiceNotProvided else ServiceAlreadyProvided)
      ensures r.Err? ==> unchanged(this, ids) && (parent != null ==> unchanged(parent))
      ensures r.Ok? ==> r.value == old(ids.next) && ids.next == old(ids.next) + 1
      ensures r.Ok? && parent == null ==>
        providers == old(providers)[slot := Entry(r.value, value)]
      ensures r.Ok? && parent != null && !committed ==>
        unchanged(parent) && State() == Stage(parent.providers, old(State()), slot, Entry(r.value, value))
      ensures r.Ok? && parent != null && committed ==>
        unchanged(this) && parent.providers == old(parent.providers)[slot := Entry(r.value, value)]
      decreases parent != null
    {
      if committed {
        r := parent.Provide(slot, value, replace, ids);
        return;
      }
      var parentGeneration := if parent == null then None else GenerationAt(parent.providers, slot);
      var visible := slot in providers || parentGeneration.Some?;
      var refusal := Admit(visible, replace);
      if refusal.Some? {
        return Err(refusal.value);
      }
      var generation := ids.Take();
      if parent != null && slot !in expected {
        expected := expected[slot := parentGeneration];
      }
      providers := providers[slot := Entry(generation, value)];
      r := Ok(generation);
    }

    /** `remove_if_current`: the body of a provider's scope-owned cleanup. */
    method RemoveIfCurrent(slot: Slot, generation: Generation) returns (removed: bool)
      requires Valid()
      modifies this, parent
      ensures Valid() && committed == old(committed)
      ensures parent == null ==> providers == Retract(old(providers), slot, generation)
      ensures parent != null && !committed ==>
        unchanged(parent) && State() == Unstage(old(State()), slot, generation)
      ensures parent != null && committed ==>
        unchanged(this) && parent.providers == Retract(old(parent.providers), slot, generation)
      ensures removed == old(GenerationAt(if committed then parent.providers else providers, slot) == Some(generation))
      decreases parent != null
    {
      if committed {
        removed := parent.RemoveIfCurrent(slot, generation);
        return;
      }
      removed := slot in providers && providers[slot].generation == generation;
      if removed {
        providers := providers - {slot};
        expected := expected - {slot};
      }
    }

    /**
     Moves every staged provider into the host, or nothing at all. `notified` are the
     slots whose host listeners are called once the locks are released.
     */
    method Commit() returns (r: Result<set<Slot>, ServiceError>)
      requires Valid()
      modifies this, parent
      ensures Valid()
      ensures r.Ok? <==> parent == null || old(committed) || old(Unchanged(parent.providers, State()))
      ensures r.Err? ==> r.error == ServiceChanged
      ensures r.Err? || parent == null || old(committed) ==>
        unchanged(this) && (parent != null ==> unchanged(parent))
      ensures r.Ok? && parent != null && !old(committed) ==>
        && parent.providers == old(parent.providers) + old(providers)
        && State() == Staging(map[], map[], true)
        && r.value == old(providers).Keys
    {
      if parent == null || committed {
        return Ok({});
      }
      var unchecked := expected.Keys;
      while unchecked != {}
        invariant unchecked <= expected.Keys
        invariant forall slot :: slot in expected.Keys - unchecked ==>
          GenerationAt(parent.providers, slot) == expected[slot]
        decreases unchecked
      {
        var slot :| slot in unchecked;
        if GenerationAt(parent.providers, slot) != expected[slot] {
          return Err(ServiceChanged);
        }
        unchecked := unchecked - {slot};
      }
      var staged, left := providers, providers.Keys;
      providers := map[];
      while left != {}
        invariant left <= staged.Keys && providers == map[]
        invariant parent.parent == null && !parent.committed && parent.expected == map[]
        invariant parent.providers.Keys == old(parent.providers).Keys + (staged.Keys - left)
        invariant forall slot :: slot in parent.providers ==>
          parent.providers[slot] == if slot in staged.Keys - left then staged[slot] else old(parent.providers)[slot]
        decreases left
      {
        var slot :| slot in left;
        parent.providers := parent.providers[slot := staged[slot]];
        left := left - {slot};
      }
      expected, committed := map[], true;
      assert parent.providers == old(parent.providers) + staged;
      r := Ok(staged.Keys);
    }
  }

  /**
   A successful commit is invisible through the overlay that made it: every lookup answers
   what it answered before, and the host has become the old host overridden by the overlay.
   */
  lemma CommitPreservesLookups(host: Providers, o: Staging, slot: Slot)
    requires WellFormed(o) && !o.committed
    ensures Lookup(host + o.providers, Staging(map[], map[], true), slot) == Lookup(host, o, slot)
  {
    if slot in o.providers {
      assert (host + o.providers)[slot] == o.providers[slot];
    }
  }
}
