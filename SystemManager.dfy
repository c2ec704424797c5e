/**
  The entity-component-system registry of systems: at most one system per system type,
  stored under a key derived from the type.
*/
module Ecs {
  import opened Wrappers

  /** Stand-in for `typeid(T).hash_code()`, the key a system type `T` is stored under. */
  type TypeKey = nat

  /** The registry after `system` is inserted under a key not yet present. */
  function Registered<S>(systems: map<TypeKey, S>, key: TypeKey, system: S): (r: map<TypeKey, S>)
    requires key !in systems
    ensures key in r && r[key] == system
    ensures r.Keys == systems.Keys + {key} && |r| == |systems| + 1
    ensures forall k :: k in systems ==> r[k] == systems[k]
  {
    systems[key := system]
  }

  /** The registry after the entry under `key`, if any, is erased. */
  function Removed<S>(systems: map<TypeKey, S>, key: TypeKey): (r: map<TypeKey, S>)
    ensures key !in r
    ensures r.Keys == systems.Keys - {key}
    ensures forall k :: k in r ==> r[k] == systems[k]
    ensures key !in systems ==> r == systems
  {
    systems - {key}
  }

  /** Registering a system type and then removing it gives back the registry it started from. */
  lemma RegisterThenRemoveRestores<S>(systems: map<TypeKey, S>, key: TypeKey, system: S)
    requires key !in systems
    ensures Removed(Registered(systems, key, system), key) == systems
  {
  }

  /** Removing a system type twice is the same as removing it once. */
  lemma RemoveIdempotent<S>(systems: map<TypeKey, S>, key: TypeKey)
    ensures Removed(Removed(systems, key), key) == Removed(systems, key)
  {
  }

  class SystemManager<S> {
    /** Map from system type key to the system registered for that type. */
    var systems: map<TypeKey, S>

    constructor ()
      ensures systems == map[]
    {
      systems := map[];
    }

    /**
      `RegisterSystem<T>()` and `RegisterSystem<T>(T* t)`: they differ only in where the
      handle comes from (a newly created system, or a wrapped pointer); here it is `system`.
      Registering a type twice is an assertion failure in the source.
    */
    method RegisterSystem(key: TypeKey, system: S)
      requires key !in systems
      modifies this
      ensures systems == Registered(old(systems), key, system)
    {
      systems := systems[key := system];
    }

    method RemoveSystem(key: TypeKey)
      modifies this
      ensures systems == Removed(old(systems), key)
    {
      if key in systems {
        systems := systems - {key};
      }
    }

    /** The system registered for the type, or None (the null pointer) when there is none. */
    method GetSystem(key: TypeKey) returns (system: Option<S>)
      ensures system.None? <==> key !in systems
      ensures system.Some? ==> system.value == systems[key]
    {
      if key in systems {
        return Some(systems[key]);
      }
      return None;
    }

    method HasSystem(key: TypeKey) returns (has: bool)
      ensures has <==> key in systems
    {
      has := key in systems;
    }

    /**
      Forwards the update to every registered system. `updated` lists the keys whose
      system was updated, in the order of the calls; that order is the map's own
      iteration order, which nothing fixes, so the loop picks any remaining key.
    */
    method OnUpdate() returns (updated: seq<TypeKey>)
      ensures forall k :: k in updated <==> k in systems
      ensures forall i, j :: 0 <= i < j < |updated| ==> updated[i] != updated[j]
      ensures |updated| == |systems|
    {
      updated := [];
      var pending := systems.Keys;
      while pending != {}
        invariant pending <= systems.Keys
        invariant forall k :: k in updated <==> k in systems && k !in pending
        invariant forall i, j :: 0 <= i < j < |updated| ==> updated[i] != updated[j]
        invariant |updated| + |pending| == |systems|
        decreases pending
      {
        var key :| key in pending;
        updated := updated + [key];
        pending := pending - {key};
      }
    }
  }
}
