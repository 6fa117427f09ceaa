/**
 * `CDIAmountProvider` of the CDI bundle: queries over the injected
 * amount factories, walked in the container's iteration order. Type tokens
 * are values of the type parameter `C`; `isAssignableFrom(a, b)` says that
 * type `a` is assignable from type `b`, and like Java's `Class.isAssignableFrom`
 * it holds of every type with itself.
 */
module CdiAmountProvider {
  import opened Wrappers

  /** An injected amount factory, seen through the type of amounts it creates. */
  datatype AmountFactory<C> = AmountFactory(amountType: C)

  ghost predicate Reflexive<C(!new)>(isAssignableFrom: (C, C) -> bool)
  {
    forall c :: isAssignableFrom(c, c)
  }

  /** The amount types of all factories. */
  ghost function AmountTypesOf<C>(factories: seq<AmountFactory<C>>): set<C>
  {
    set i | 0 <= i < |factories| :: factories[i].amountType
  }

  /**
   * `getAmountFactory`: the first factory whose amount type is assignable
   * from the requested type, or `None` (null) when there is none.
   * `index` is the position of the returned factory (`|factories|` when none).
   */
  method GetAmountFactory<C(!new)>(factories: seq<AmountFactory<C>>, isAssignableFrom: (C, C) -> bool, amountType: C)
    returns (f: Option<AmountFactory<C>>, ghost index: nat)
    requires Reflexive(isAssignableFrom)
    ensures index <= |factories|
    ensures forall j :: 0 <= j < index ==> !isAssignableFrom(factories[j].amountType, amountType)
    ensures f.Some? ==> index < |factories| && f.value == factories[index]
    ensures f.Some? ==> isAssignableFrom(f.value.amountType, amountType)
    ensures f.None? <==> forall j :: 0 <= j < |factories| ==> !isAssignableFrom(factories[j].amountType, amountType)
    ensures amountType in AmountTypesOf(factories) ==> f.Some?
  {
    index := 0;
    for i := 0 to |factories|
      invariant index == i
      invariant forall j :: 0 <= j < i ==> !isAssignableFrom(factories[j].amountType, amountType)
    {
      if isAssignableFrom(factories[i].amountType, amountType) {
        return Some(factories[i]), index;
      }
      index := index + 1;
    }
    return None, index;
  }

  /** `getAmountTypes`: the set of every factory's amount type, built in a fresh set. */
  method GetAmountTypes<C>(factories: seq<AmountFactory<C>>) returns (types: set<C>)
    ensures types == AmountTypesOf(factories)
    ensures forall t :: t in types <==> exists i :: 0 <= i < |factories| && factories[i].amountType == t
  {
    types := {};
    for i := 0 to |factories|
      invariant types == AmountTypesOf(factories[..i])
    {
      assert factories[..i + 1][..i] == factories[..i];
      types := types + {factories[i].amountType};
    }
    assert factories[..|factories|] == factories;
  }

  /**
   * `getDefaultAmountType`: the loop returns in its first round, so the
   * answer is the first factory's type, or `None` (null) with no factories.
   */
  method GetDefaultAmountType<C>(factories: seq<AmountFactory<C>>) returns (t: Option<C>)
    ensures t.Some? <==> |factories| > 0
    ensures t.Some? ==> t.value == factories[0].amountType
    ensures t.Some? ==> t.value in AmountTypesOf(factories)
  {
    for i := 0 to |factories| {
      return Some(factories[i].amountType);
    }
    return None;
  }

  /** `queryAmountType`: the required context is ignored; the default type is answered. */
  method QueryAmountType<C, Context>(factories: seq<AmountFactory<C>>, requiredContext: Context)
    returns (t: Option<C>)
    ensures t.Some? <==> |factories| > 0
    ensures t.Some? ==> t.value == factories[0].amountType
  {
    t := GetDefaultAmountType(factories);
  }
}
