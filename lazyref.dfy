/** The two lazy reference shapes of an order, as values: the scalar reference
    to its customer (stored key, invalid flag, cached object) and the key-array
    reference to its keywords (stored keys, resolved flag, object list). The
    order class keeps these parts in separate fields and is specified by the
    transitions below. */
module LazyRefs {
  import opened Qt

  /** The stored key of a scalar reference that points nowhere. */
  const NoKey := -1

  datatype RefState = Unset | Pending | Resolved | MarkedInvalid

  datatype ScalarRef<T> = ScalarRef(key: int, invalid: bool, cached: Option<T>)
  {
    /** hasAuftraggeber: a key is stored and resolution has not failed. */
    predicate Has()
    {
      !invalid && key != NoKey
    }

    /** isAuftraggeberResolvedAsDataObject: an object is cached and resolution has not failed. */
    predicate IsResolved()
    {
      !invalid && cached.Some?
    }

    /** The named states of the reference. */
    function State(): RefState
    {
      if invalid then MarkedInvalid
      else if cached.Some? then Resolved
      else if key == NoKey then Unset
      else Pending
    }

    /** A cached object always belongs to a stored key; every transition of the
        store keeps this (Resolve is only ever called for a found key). */
    predicate Consistent()
    {
      cached.Some? ==> key != NoKey
    }

    /** setAuftraggeber: a different key drops the cached object and the
        invalid flag; the same key changes nothing. */
    function Set(v: int): (r: ScalarRef<T>)
      ensures v != key ==> r.key == v && r.State() == (if v == NoKey then Unset else Pending)
      ensures v == key ==> r == this
      ensures Consistent() ==> r.Consistent()
    {
      if v != key then ScalarRef(v, false, None) else this
    }

    /** removeAuftraggeber: afterwards no key is stored. */
    function Remove(): (r: ScalarRef<T>)
      ensures r.key == NoKey && !r.Has()
      ensures key != NoKey ==> r.State() == Unset
      ensures key == NoKey ==> r == this
    {
      if key != NoKey then Set(NoKey) else this
    }

    /** resolveAuftraggeberAsDataObject(k): the key becomes k's number, k is cached, the reference is valid. */
    function Resolve(obj: T, objKey: int): (r: ScalarRef<T>)
      ensures r.key == objKey && r.cached == Some(obj) && !r.invalid
      ensures r.IsResolved() && r.State() == Resolved
      ensures objKey != NoKey ==> r.Has() && r.Consistent()
    {
      var keyed := if objKey != key then Set(objKey) else this;
      keyed.(cached := Some(obj), invalid := false)
    }

    /** markAuftraggeberAsInvalid: the key stays, but the reference neither has nor resolves a target. */
    function MarkInvalid(): (r: ScalarRef<T>)
      ensures r.key == key && r.cached == cached
      ensures !r.Has() && !r.IsResolved() && r.State() == MarkedInvalid
    {
      this.(invalid := true)
    }
  }

  /** For a consistent reference, Has and IsResolved are exactly the states
      Pending/Resolved and Resolved. */
  lemma StateClasses<T>(r: ScalarRef<T>)
    requires r.Consistent()
    ensures r.Has() <==> r.State() in {Pending, Resolved}
    ensures r.IsResolved() <==> r.State() == Resolved
  {
  }

  /** Resolving an already resolved reference with the same object changes nothing. */
  lemma ResolveIdempotent<T>(r: ScalarRef<T>, obj: T, objKey: int)
    ensures r.Resolve(obj, objKey).Resolve(obj, objKey) == r.Resolve(obj, objKey)
  {
  }

  /** A reference that failed to resolve and is re-pointed at another key is
      pending again and resolves on the next pass. */
  lemma InvalidThenRepointed<T>(r: ScalarRef<T>, v: int, obj: T)
    requires r.State() == MarkedInvalid && v != r.key && v != NoKey
    ensures r.Set(v).Has() && !r.Set(v).IsResolved()
    ensures r.Set(v).Resolve(obj, v).IsResolved()
  {
  }

  /** The key-array reference of an order to its keywords. */
  datatype KeyArray<T> = KeyArray(keys: seq<string>, resolved: bool, objects: seq<T>)
  {
    /** resolveTagsKeys(found): once resolved, a no-op whatever the argument;
        otherwise the object list becomes found, in order. */
    function Resolve(found: seq<T>): (r: KeyArray<T>)
      ensures r.resolved && r.keys == keys
      ensures resolved ==> r == this
      ensures !resolved ==> r.objects == found
    {
      if resolved then this else KeyArray(keys, true, found)
    }

    /** The keys toMap exports (and writes back): the live objects' keys once
        resolved, or when objects exist but no keys are stored; else the stored keys. */
    function ExportedKeys(objectKeys: seq<string>): (ks: seq<string>)
      requires |objectKeys| == |objects|
      ensures resolved ==> ks == objectKeys
      ensures |keys| == 0 && |objects| != 0 ==> ks == objectKeys
      ensures !resolved && |keys| != 0 ==> ks == keys
      ensures !resolved && |objects| == 0 ==> ks == keys
    {
      if resolved || (|keys| == 0 && |objects| != 0) then objectKeys else keys
    }
  }

  /** Exporting twice writes the same keys as exporting once, so an order
      exported again (or listed twice) exports the same map. */
  lemma ExportIdempotent<T>(t: KeyArray<T>, objectKeys: seq<string>)
    requires |objectKeys| == |t.objects|
    ensures t.(keys := t.ExportedKeys(objectKeys)).ExportedKeys(objectKeys) == t.ExportedKeys(objectKeys)
  {
  }

  /** The key array as a fill leaves it: the stored keys, no objects, and
      resolved exactly when there is nothing to resolve. */
  function Loaded<T>(keys: seq<string>): (a: KeyArray<T>)
    ensures a.keys == keys && a.objects == []
    ensures a.resolved <==> |keys| == 0
  {
    KeyArray(keys, |keys| == 0, [])
  }

  /** isAllResolved: the customer reference is absent or resolved, and the keywords are resolved. */
  predicate AllResolved<T, U>(customer: ScalarRef<T>, tags: KeyArray<U>)
  {
    (!customer.Has() || customer.IsResolved()) && tags.resolved
  }

  /** After a resolution pass, whatever the lookups found, the order is fully resolved. */
  lemma ResolutionPassCompletes<T, U>(customer: ScalarRef<T>, tags: KeyArray<U>,
                                       found: Option<(T, int)>, objects: seq<U>)
    requires found.Some? ==> found.value.1 == customer.key
    ensures
      var c := if customer.Has() && !customer.IsResolved() then
                 (if found.Some? then customer.Resolve(found.value.0, found.value.1)
                  else customer.MarkInvalid())
               else customer;
      AllResolved(c, tags.Resolve(objects))
  {
  }
}
