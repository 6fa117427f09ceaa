# javamoney-lib core, modelled in Dafny

This project models four small components of the javamoney-lib extensions to the
Java money API (JSR 354):

- **`Minimum.calculate`** (calc module): a single left-to-right pass over a sequence of
  monetary amounts that keeps the running minimum. `null` is the "nothing seen yet"
  sentinel, and the two invalid-argument errors ("amounts required." for a null
  argument, "amounts is empty." for no elements) stay distinct.
- **`MaxCountPredicate`** (calc module): a stateful predicate with a fixed `max`, a fixed
  optional inner predicate and a match counter `currentNum` that is never reset.
- **`DefaultMonetaryCurrenciesSingletonSpi`** (currencies module): namespace and
  currency queries over the registered namespace providers, and `map` over the
  registered unit mappers, each walked in registration order.
- **`CDIAmountProvider`** (java-se-cdi bundle): lookups over the injected amount
  factories, walked in the container's iteration order.

One module per source file: `Minimum` (minimum.dfy), `MaxCount`
(max_count_predicate.dfy), `CurrencyMappingSpi` (currency_mappings_spi.dfy),
`CdiAmountProvider` (cdi_amount_provider.dfy). `Wrappers` (wrappers.dfy) holds the
`Option` type that stands for Java's nullable references.

Modelling choices:

- A currency unit is a value of a type parameter `Unit` that the currency-mapping
  queries never look inside. Sets of units merge by the unit's own equality, as a
  `HashSet` merges with `equals`, and mappers receive the whole unit.
  `getNamespaces(CurrencyUnit)` takes the unit's `getCurrencyCode` as a function
  parameter.
- An amount is `Amount(number: real, currency: string)`. `real` is exact, as
  `BigDecimal.compareTo` is. The scan compares only numbers, like the source, and
  does not check that the currencies agree.
- A null argument or result is `None`. The `Iterable` argument of `calculate` is a
  `seq`, so its iteration order is the sequence order.
- `MaxCountPredicate` is a class. `max` and the inner predicate are `const`, because
  nothing assigns them after construction. `currentNum` is a `var` that `Test` updates.
  The inner predicate is a total function `T -> bool`.
- Provider, mapper and factory registries (`Bootstrap.getServices`, CDI
  `Instance<...>`) are input sequences. Each provider is a record of the answers it
  gives. A mapper is a function of (unit, target namespace, timestamp). The timestamp
  is `Option<int>`, where `None` is the null `Long` that the two-argument `map` passes.
- `Class.isAssignableFrom` is a relation passed in. The model requires it to be
  reflexive, as it is in Java.
- Loops that return early or fill a fresh `HashSet` are methods with loop invariants.
  Each method is proved against a specification function (`MinIndex`, `MatchCount`,
  `UnionOf`, `FirstMapped`, `AmountTypesOf`). Lemmas state what the source promises
  about those functions.

The Javadoc of `MaxCountPredicate` (MaxCountPredicate.java lines 30, 38-44 and 52-58)
talks about a "minimal number" of matching items. The code (`test`, lines 77-85) does
something else. It answers `false` for every value the inner predicate matches. For
every other value it answers `currentNum > max`. The model follows the code. So an
always-matching inner predicate makes every answer `false` (`AllMatchingAlwaysFalse`),
and a `true` answer means the limit was passed before the call.

## Model

| member | source | states |
|---|---|---|
| `Minimum.MinIndex` | calc/src/main/java/org/javamoney/calc/function/Minimum.java:52-60 | the element the scan keeps is at a valid index of the non-empty input |
| `Minimum.MinIndexIsFirstMinimum` | calc/src/main/java/org/javamoney/calc/function/Minimum.java:53-60 | the kept element's number is at most every element's number, and every earlier element's number is strictly greater, so on a tie the first one wins |
| `Minimum.MinIndexIgnoresCurrency` | calc/src/main/java/org/javamoney/calc/function/Minimum.java:56-57 | only numbers are compared: two inputs with equal numbers position by position give the same result index, whatever their currencies |
| `Minimum.Calculate` | calc/src/main/java/org/javamoney/calc/function/Minimum.java:48-65 | null input gives the "amounts required." error; empty input gives the distinct "amounts is empty." error; otherwise the result is the element at `MinIndex`, a member of the input whose number is least; a one-element input gives that element |
| `MaxCount.MaxCountPredicate.constructor` | calc/src/main/java/org/javamoney/calc/function/MaxCountPredicate.java:46-50 | stores `max` and the inner predicate; `currentNum` starts at 0 |
| `MaxCount.MaxCountPredicate.CheckMaxFailed` | calc/src/main/java/org/javamoney/calc/function/MaxCountPredicate.java:59-64 | true exactly when `currentNum > max` |
| `MaxCount.MaxCountPredicate.Test` | calc/src/main/java/org/javamoney/calc/function/MaxCountPredicate.java:77-85 | `currentNum` grows by exactly 1 when the inner predicate is present and matches, otherwise stays the same; a match always answers false; a non-match answers `currentNum > max`; a true answer means `currentNum > max` before and after the call; with a null predicate the count is unchanged |
| `MaxCount.MatchCount` | calc/src/main/java/org/javamoney/calc/function/MaxCountPredicate.java:78-79 | the number of values counted never exceeds the number of values tested |
| `MaxCount.TestEach` | calc/src/main/java/org/javamoney/calc/function/MaxCountPredicate.java:77-85 | applying one fresh instance to a sequence without a reset gives, for the i-th value, false on a match and otherwise whether the matches among the first i+1 values exceed `max` |
| `MaxCount.MatchCountMonotone` | calc/src/main/java/org/javamoney/calc/function/MaxCountPredicate.java:78-79 | the count over a longer prefix is never smaller: `currentNum` never decreases |
| `MaxCount.VerdictLatches` | calc/src/main/java/org/javamoney/calc/function/MaxCountPredicate.java:77-85 | once a non-matching value is answered true, every later non-matching value is answered true as well |
| `MaxCount.MatchCountWithoutPredicate` | calc/src/main/java/org/javamoney/calc/function/MaxCountPredicate.java:78-79 | with a null inner predicate the count stays 0 |
| `MaxCount.VerdictWithoutPredicate` | calc/src/main/java/org/javamoney/calc/function/MaxCountPredicate.java:78-84 | with a null inner predicate every answer is `0 > max` |
| `MaxCount.MatchCountAllMatching` | calc/src/main/java/org/javamoney/calc/function/MaxCountPredicate.java:78-79 | when the inner predicate matches every value, the count equals the number of values tested |
| `MaxCount.AllMatchingAlwaysFalse` | calc/src/main/java/org/javamoney/calc/function/MaxCountPredicate.java:78-84 | when the inner predicate matches every value, every answer is false, although the count passes `max` |
| `CurrencyMappingSpi.UnionOfMembers` | currencies/src/main/java/org/javamoney/currencies/internal/DefaultMonetaryCurrenciesSingletonSpi.java:54-58 | an element is in the accumulated union exactly when some provider's answer contains it |
| `CurrencyMappingSpi.CollectUnion` | currencies/src/main/java/org/javamoney/currencies/internal/DefaultMonetaryCurrenciesSingletonSpi.java:114-118 | filling a fresh set with every provider's answer gives the union, and an element is in it exactly when some provider contributes it |
| `CurrencyMappingSpi.IsNamespaceAvailable` | currencies/src/main/java/org/javamoney/currencies/internal/DefaultMonetaryCurrenciesSingletonSpi.java:36-43 | true exactly when some provider reports the namespace, so false with no providers; the search stops at the first provider that reports it, and every provider before that one reports false |
| `CurrencyMappingSpi.GetNamespaces` | currencies/src/main/java/org/javamoney/currencies/internal/DefaultMonetaryCurrenciesSingletonSpi.java:53-59 | the union of every provider's namespaces, so empty with no providers |
| `CurrencyMappingSpi.GetNamespacesOfCode` | currencies/src/main/java/org/javamoney/currencies/internal/DefaultMonetaryCurrenciesSingletonSpi.java:129-135 | the union of every provider's namespaces for the currency code |
| `CurrencyMappingSpi.GetNamespacesOfUnit` | currencies/src/main/java/org/javamoney/currencies/internal/DefaultMonetaryCurrenciesSingletonSpi.java:145-147 | equal to the namespaces of the unit's currency code, as given by the unit's `getCurrencyCode` |
| `CurrencyMappingSpi.GetCurrencies` | currencies/src/main/java/org/javamoney/currencies/internal/DefaultMonetaryCurrenciesSingletonSpi.java:113-119 | the union of every provider's currencies in the namespace |
| `CurrencyMappingSpi.FirstMappedIsFirst` | currencies/src/main/java/org/javamoney/currencies/internal/DefaultMonetaryCurrenciesSingletonSpi.java:74-80 | the search result is the answer of a mapper whose predecessors all answer null; it is null exactly when every mapper answers null |
| `CurrencyMappingSpi.MapWith` | currencies/src/main/java/org/javamoney/currencies/internal/DefaultMonetaryCurrenciesSingletonSpi.java:96-102 | the early-return loop answers the first non-null mapping, in mapper order |
| `CurrencyMappingSpi.Map` | currencies/src/main/java/org/javamoney/currencies/internal/DefaultMonetaryCurrenciesSingletonSpi.java:72-81 | the first non-null mapping with a null timestamp passed to every mapper; null exactly when every mapper answers null |
| `CurrencyMappingSpi.MapAt` | currencies/src/main/java/org/javamoney/currencies/internal/DefaultMonetaryCurrenciesSingletonSpi.java:94-103 | the first non-null mapping with the given timestamp passed unchanged to every mapper; null exactly when every mapper answers null |
| `CdiAmountProvider.GetAmountFactory` | bundles/java-se-cdi/src/main/java/org/javamoney/cdi/impl/CDIAmountProvider.java:23-31 | the first factory whose amount type is assignable from the requested type; a returned factory's type is assignable from the request; null exactly when no factory's type is; never null when some factory has exactly the requested type |
| `CdiAmountProvider.GetAmountTypes` | bundles/java-se-cdi/src/main/java/org/javamoney/cdi/impl/CDIAmountProvider.java:34-40 | exactly the set of the factories' amount types |
| `CdiAmountProvider.GetDefaultAmountType` | bundles/java-se-cdi/src/main/java/org/javamoney/cdi/impl/CDIAmountProvider.java:43-49 | the first factory's amount type, which is one of the amount types; null exactly when there are no factories |
| `CdiAmountProvider.QueryAmountType` | bundles/java-se-cdi/src/main/java/org/javamoney/cdi/impl/CDIAmountProvider.java:52-56 | the default amount type, whatever the required context |

## Left out

- MaxCount.MaxCountPredicate.Test: `currentNum` is an unbounded integer, so the Java `int` wrap-around of `currentNum++` after 2^31-1 matches is not modelled.
- Minimum.Calculate: null elements inside the input are not modelled. In the source they behave in three ways. A null that comes before any non-null element is skipped, because `result` is still null and is set to null again. An input whose elements are all null reaches the post-loop check and fails with the "amounts is empty." error. A null after a non-null element makes the comparison fail with a `NullPointerException`.
- Mixed currencies in one `calculate` call are not validated, by the source or by the model. Only numbers are compared.
- Service discovery (`Bootstrap.getServices`, CDI injection of `Instance<MonetaryAmountFactory<?>>`) is external. The registries are input sequences in a fixed order.
- `CurrencyMappings` only forwards each call to one bootstrapped SPI. It is not part of this model. The SPI it forwards to is modelled.
- `AverageMean`, `Maximum` and `MonetaryCalculations` are not part of this model. Their sources are not available.
- Providers, mappers and inner predicates are modelled as pure functions. Side effects, exceptions and `null` sets returned by providers are not modelled.
- `BigDecimal` precision and `MonetaryAmount` arithmetic are not modelled. Numbers are exact rationals.
- `toString` labels, the `@Singleton`/`@Inject` annotations and thread safety are not modelled.
