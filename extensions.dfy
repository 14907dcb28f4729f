/**
 * Request extensions (src/extensions.rs): a map from a type to the one value
 * of that type, used to hand data down the middleware chain.
 */
module TypeMap {
  import opened Wrappers
  import H = ErrorHandlers

  /** `TypeId`: a type the application names, or the error-handler pointer type the dispatcher stores. */
  datatype TypeTag = Named(name: string) | ErrorHandlerType

  /** A boxed `dyn Any` value: its concrete type and contents. */
  datatype AnyValue = Opaque(ty: string, data: seq<int>) | HandlerValue(handler: H.ErrorHandler)

  /** `TypeId::of` the value's type. */
  function TypeOf(v: AnyValue): TypeTag
  {
    match v
    case Opaque(ty, _) => Named(ty)
    case HandlerValue(_) => ErrorHandlerType
  }

  type Entries = map<TypeTag, AnyValue>

  /** Every value is stored under its own type, so every downcast succeeds. */
  predicate WellTyped(m: Entries) {
    forall t | t in m :: TypeOf(m[t]) == t
  }

  /** The value stored for type `t`, when it downcasts to `t`. */
  function Lookup(m: Entries, t: TypeTag): (r: Option<AnyValue>)
    ensures r.Some? ==> t in m && TypeOf(r.value) == t
  {
    if t in m && TypeOf(m[t]) == t then Some(m[t]) else None
  }

  /** The map after inserting `v` under its type. */
  function Inserted(m: Entries, v: AnyValue): Entries
  {
    m[TypeOf(v) := v]
  }

  /** The map after removing type `t`. */
  function Removed(m: Entries, t: TypeTag): Entries
  {
    m - {t}
  }

  // ---------------------------------------------------------------------------
  // Properties of the map operations

  /** Inserting keeps every value under its own type. */
  lemma InsertedWellTyped(m: Entries, v: AnyValue)
    requires WellTyped(m)
    ensures WellTyped(Inserted(m, v))
  {
  }

  /** Looking a type up right after inserting a value of it gives that value. */
  lemma LookupAfterInsert(m: Entries, v: AnyValue)
    ensures Lookup(Inserted(m, v), TypeOf(v)) == Some(v)
  {
  }

  /**
   * Inserting, removing or overwriting the value of one type leaves the value
   * of every other type as it was.
   */
  lemma OtherTypesUnchanged(m: Entries, v: AnyValue, t: TypeTag, u: TypeTag)
    requires u != TypeOf(v) && u != t
    ensures Lookup(Inserted(m, v), u) == Lookup(m, u)
    ensures Lookup(Removed(m, t), u) == Lookup(m, u)
  {
  }

  /** After a removal the type is absent and nothing is found for it. */
  lemma RemovedAbsent(m: Entries, t: TypeTag)
    ensures t !in Removed(m, t) && Lookup(Removed(m, t), t) == None
    ensures |Removed(m, t)| == if t in m then |m| - 1 else |m|
  {
  }

  /** In a well-typed map, a type is found exactly when it is present. */
  lemma LookupPresent(m: Entries, t: TypeTag)
    requires WellTyped(m)
    ensures Lookup(m, t).Some? <==> t in m
    ensures t in m ==> Lookup(m, t) == Some(m[t])
  {
  }

  // ---------------------------------------------------------------------------

  /** `Extensions`: the type-keyed map, updated in place. */
  class Extensions {
    var entries: Entries

    ghost predicate Valid()
      reads this
    {
      WellTyped(entries)
    }

    /** `Extensions::new`: no entries. */
    constructor ()
      ensures entries == map[] && Valid()
    {
      entries := map[];
    }

    /**
     * `insert`: stores `v` under its type, replacing and returning the value
     * that type held before, if any.
     */
    method Insert(v: AnyValue) returns (prev: Option<AnyValue>)
      requires Valid()
      modifies this
      ensures Valid()
      ensures entries == Inserted(old(entries), v)
      ensures prev == Lookup(old(entries), TypeOf(v))
      ensures prev.Some? <==> TypeOf(v) in old(entries)
    {
      var t := TypeOf(v);
      prev := Lookup(entries, t);
      entries := entries[t := v];
      InsertedWellTyped(old(entries), v);
    }

    /** `get`. */
    function Get(t: TypeTag): (r: Option<AnyValue>)
      reads this
      ensures r == Lookup(entries, t)
    {
      if t in entries && TypeOf(entries[t]) == t then Some(entries[t]) else None
    }

    /**
     * `get_mut` followed by a write through the returned reference: when a
     * value of type `t` is present it is replaced by `update`, a value of the
     * same type; otherwise nothing changes.
     */
    method GetMut(t: TypeTag, update: AnyValue) returns (found: bool)
      requires Valid() && TypeOf(update) == t
      modifies this
      ensures Valid()
      ensures found <==> t in old(entries)
      ensures entries == if found then old(entries)[t := update] else old(entries)
    {
      found := t in entries;
      if found {
        entries := entries[t := update];
      }
    }

    /** `remove`: takes the value of type `t` out, returning it. */
    method Remove(t: TypeTag) returns (prev: Option<AnyValue>)
      requires Valid()
      modifies this
      ensures Valid()
      ensures prev == Lookup(old(entries), t)
      ensures entries == Removed(old(entries), t)
    {
      prev := Lookup(entries, t);
      entries := entries - {t};
    }

    /** `contains`. */
    function Contains(t: TypeTag): (r: bool)
      reads this
      ensures r <==> t in entries
    {
      t in entries
    }

    /** `clear`. */
    method Clear()
      modifies this
      ensures entries == map[] && Valid()
    {
      entries := map[];
    }

    /** The `count` field of the `Debug` output. */
    function Count(): (n: nat)
      reads this
      ensures n == |entries.Keys|
    {
      |entries|
    }
  }
}
