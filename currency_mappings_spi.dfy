/**
 * `DefaultMonetaryCurrenciesSingletonSpi` of the currencies module: every
 * query walks the registered providers in registration order. Availability
 * is an "any" that stops at the first provider saying yes; the namespace
 * and currency queries are unions of what every provider answers; `map`
 * answers with the first mapper whose result is not null.
 */
module CurrencyMappingSpi {
  import opened Wrappers

  /*
   * Currency units are values of the type parameter `Unit`: the facade
   * never looks inside them, and sets of them merge by the unit's own
   * equality, as a `HashSet` does with `equals`.
   */

  /** What the facade asks of one registered namespace provider. */
  datatype NamespaceProvider<Unit> = NamespaceProvider(
    isNamespaceAvailable: string -> bool,
    namespaces: set<string>,
    namespacesOf: string -> set<string>,
    currenciesOf: string -> set<Unit>)

  /**
   * One registered currency-unit mapper: (unit, target namespace, timestamp)
   * to a mapped unit or `None` (null). A `None` timestamp is a null `Long`.
   */
  datatype UnitMapper<!Unit> = UnitMapper(mapUnit: (Unit, string, Option<int>) -> Option<Unit>)

  /** The union of `f` over `ps`, accumulated in order. */
  function UnionOf<P, X>(ps: seq<P>, f: P -> set<X>): set<X>
  {
    if ps == [] then {} else UnionOf(ps[..|ps| - 1], f) + f(ps[|ps| - 1])
  }

  /** An element is in the union exactly when some provider contributes it. */
  lemma {:induction false} UnionOfMembers<P, X>(ps: seq<P>, f: P -> set<X>, x: X)
    ensures x in UnionOf(ps, f) <==> exists i :: 0 <= i < |ps| && x in f(ps[i])
  {
    if ps != [] {
      var init := ps[..|ps| - 1];
      UnionOfMembers(init, f, x);
      if x in UnionOf(init, f) {
        var i :| 0 <= i < |init| && x in f(init[i]);
        assert init[i] == ps[i];
      }
      if exists i :: 0 <= i < |ps| && x in f(ps[i]) {
        var i :| 0 <= i < |ps| && x in f(ps[i]);
        if i < |init| {
          assert init[i] == ps[i];
        }
      }
    }
  }

  /** Each provider's own namespaces. */
  function ProviderNamespaces<Unit>(p: NamespaceProvider<Unit>): set<string>
  {
    p.namespaces
  }

  /** Each provider's namespaces for one currency code. */
  function NamespacesForCode<Unit>(code: string): NamespaceProvider<Unit> -> set<string>
  {
    (p: NamespaceProvider<Unit>) => p.namespacesOf(code)
  }

  /** Each provider's currencies for one namespace. */
  function CurrenciesInNamespace<Unit>(namespace: string): NamespaceProvider<Unit> -> set<Unit>
  {
    (p: NamespaceProvider<Unit>) => p.currenciesOf(namespace)
  }

  /** The fresh-set-and-`addAll` loop shared by the three union queries. */
  method CollectUnion<P, X>(ps: seq<P>, f: P -> set<X>) returns (acc: set<X>)
    ensures acc == UnionOf(ps, f)
    ensures forall x :: x in acc <==> exists i :: 0 <= i < |ps| && x in f(ps[i])
  {
    acc := {};
    for i := 0 to |ps|
      invariant acc == UnionOf(ps[..i], f)
    {
      assert ps[..i + 1][..i] == ps[..i];
      acc := acc + f(ps[i]);
    }
    assert ps[..|ps|] == ps;
    forall x
      ensures x in acc <==> exists i :: 0 <= i < |ps| && x in f(ps[i])
    {
      UnionOfMembers(ps, f, x);
    }
  }

  /**
   * `isNamespaceAvailable`: true when some provider reports the namespace.
   * `consulted` is how many providers were asked: the search stops at the
   * first one that answers yes.
   */
  method IsNamespaceAvailable<Unit>(ps: seq<NamespaceProvider<Unit>>, namespace: string)
    returns (available: bool, ghost consulted: nat)
    ensures available <==> exists i :: 0 <= i < |ps| && ps[i].isNamespaceAvailable(namespace)
    ensures consulted <= |ps|
    ensures forall j :: 0 <= j < consulted - 1 ==> !ps[j].isNamespaceAvailable(namespace)
    ensures available ==> 0 < consulted && ps[consulted - 1].isNamespaceAvailable(namespace)
    ensures !available ==> consulted == |ps|
  {
    consulted := 0;
    for i := 0 to |ps|
      invariant consulted == i
      invariant forall j :: 0 <= j < i ==> !ps[j].isNamespaceAvailable(namespace)
    {
      consulted := consulted + 1;
      if ps[i].isNamespaceAvailable(namespace) {
        return true, consulted;
      }
    }
    return false, consulted;
  }

  /** `getNamespaces()`: every namespace some provider defines. */
  method GetNamespaces<Unit>(ps: seq<NamespaceProvider<Unit>>) returns (ns: set<string>)
    ensures ns == UnionOf(ps, ProviderNamespaces)
    ensures forall n :: n in ns <==> exists i :: 0 <= i < |ps| && n in ps[i].namespaces
  {
    ns := CollectUnion(ps, ProviderNamespaces);
  }

  /** `getNamespaces(String code)`: every namespace some provider gives the code. */
  method GetNamespacesOfCode<Unit>(ps: seq<NamespaceProvider<Unit>>, code: string) returns (ns: set<string>)
    ensures ns == UnionOf(ps, NamespacesForCode(code))
    ensures forall n :: n in ns <==> exists i :: 0 <= i < |ps| && n in ps[i].namespacesOf(code)
  {
    ns := CollectUnion(ps, NamespacesForCode(code));
  }

  /**
   * `getNamespaces(CurrencyUnit)`: the namespaces of the unit's currency
   * code; `currencyCode` is the unit's `getCurrencyCode`.
   */
  method GetNamespacesOfUnit<Unit>(ps: seq<NamespaceProvider<Unit>>, currencyCode: Unit -> string, unit: Unit)
    returns (ns: set<string>)
    ensures ns == UnionOf(ps, NamespacesForCode(currencyCode(unit)))
    ensures forall n :: n in ns <==> exists i :: 0 <= i < |ps| && n in ps[i].namespacesOf(currencyCode(unit))
  {
    ns := GetNamespacesOfCode(ps, currencyCode(unit));
  }

  /** `getCurrencies(namespace)`: every currency some provider lists in the namespace. */
  method GetCurrencies<Unit>(ps: seq<NamespaceProvider<Unit>>, namespace: string) returns (units: set<Unit>)
    ensures units == UnionOf(ps, CurrenciesInNamespace(namespace))
    ensures forall u :: u in units <==> exists i :: 0 <= i < |ps| && u in ps[i].currenciesOf(namespace)
  {
    units := CollectUnion(ps, CurrenciesInNamespace(namespace));
  }

  /** The answer of the first mapper, in order, that does not answer `None`. */
  function FirstMapped<Unit>(ms: seq<UnitMapper<Unit>>, unit: Unit, target: string, timestamp: Option<int>)
    : Option<Unit>
  {
    if ms == [] then None
    else
      var mapped := ms[0].mapUnit(unit, target, timestamp);
      if mapped.Some? then mapped else FirstMapped(ms[1..], unit, target, timestamp)
  }

  /**
   * `FirstMapped` is `None` exactly when every mapper answers `None`, and
   * otherwise is the answer of some mapper all of whose predecessors answer `None`.
   */
  lemma {:induction false} FirstMappedIsFirst<Unit>(ms: seq<UnitMapper<Unit>>, unit: Unit, target: string,
                                                    timestamp: Option<int>)
    ensures var r := FirstMapped(ms, unit, target, timestamp);
      (r.None? <==> forall j :: 0 <= j < |ms| ==> ms[j].mapUnit(unit, target, timestamp).None?) &&
      (r.Some? ==> exists k :: 0 <= k < |ms| && ms[k].mapUnit(unit, target, timestamp) == r &&
                     forall j :: 0 <= j < k ==> ms[j].mapUnit(unit, target, timestamp).None?)
  {
    if ms != [] && ms[0].mapUnit(unit, target, timestamp).None? {
      var rest := ms[1..];
      FirstMappedIsFirst(rest, unit, target, timestamp);
      assert forall j :: 0 <= j < |rest| ==> rest[j] == ms[j + 1];
      var r := FirstMapped(ms, unit, target, timestamp);
      if r.Some? {
        var k :| 0 <= k < |rest| && rest[k].mapUnit(unit, target, timestamp) == r &&
                 forall j :: 0 <= j < k ==> rest[j].mapUnit(unit, target, timestamp).None?;
        assert ms[k + 1].mapUnit(unit, target, timestamp) == r;
      } else {
        forall j | 0 <= j < |ms|
          ensures ms[j].mapUnit(unit, target, timestamp).None?
        {
          if j > 0 {
            assert ms[j] == rest[j - 1];
          }
        }
      }
    } else if ms != [] {
      assert ms[0].mapUnit(unit, target, timestamp) == FirstMapped(ms, unit, target, timestamp);
    }
  }

  /** The early-return search shared by both `map` overloads. */
  method MapWith<Unit>(ms: seq<UnitMapper<Unit>>, unit: Unit, target: string, timestamp: Option<int>)
    returns (mapped: Option<Unit>)
    ensures mapped == FirstMapped(ms, unit, target, timestamp)
  {
    for i := 0 to |ms|
      invariant FirstMapped(ms[i..], unit, target, timestamp) == FirstMapped(ms, unit, target, timestamp)
    {
      assert ms[i..][1..] == ms[i + 1..];
      var m := ms[i].mapUnit(unit, target, timestamp);
      if m.Some? {
        return m;
      }
    }
    return None;
  }

  /** `map(unit, targetNamespace)`: each mapper is asked with a null timestamp. */
  method Map<Unit>(ms: seq<UnitMapper<Unit>>, unit: Unit, target: string) returns (mapped: Option<Unit>)
    ensures mapped == FirstMapped(ms, unit, target, None)
    ensures mapped.None? <==> forall j :: 0 <= j < |ms| ==> ms[j].mapUnit(unit, target, None).None?
  {
    mapped := MapWith(ms, unit, target, None);
    FirstMappedIsFirst(ms, unit, target, None);
  }

  /** `map(unit, targetNamespace, timestamp)`: each mapper is asked with the given timestamp. */
  method MapAt<Unit>(ms: seq<UnitMapper<Unit>>, unit: Unit, target: string, timestamp: int)
    returns (mapped: Option<Unit>)
    ensures mapped == FirstMapped(ms, unit, target, Some(timestamp))
    ensures mapped.None? <==> forall j :: 0 <= j < |ms| ==> ms[j].mapUnit(unit, target, Some(timestamp)).None?
  {
    mapped := MapWith(ms, unit, target, Some(timestamp));
    FirstMappedIsFirst(ms, unit, target, Some(timestamp));
  }
}
