/**
 * `MaxCountPredicate` of the calc module: a stateful predicate that counts
 * how many values its inner predicate has matched. The count is never
 * reset. `test` answers `false` for every value the inner predicate
 * matches, and `currentNum > max` for every other value.
 */
module MaxCount {
  import opened Wrappers

  /** True when the inner predicate is present (not null) and accepts `value`. */
  predicate Matches<T>(inner: Option<T -> bool>, value: T)
  {
    inner.Some? && inner.value(value)
  }

  class MaxCountPredicate<T> {
    /** The configured limit; never reassigned after construction. */
    const max: int
    /** The inner predicate (`None` is null); never reassigned after construction. */
    const inner: Option<T -> bool>
    /** How many values the inner predicate has matched so far. */
    var currentNum: int

    constructor (max: int, inner: Option<T -> bool>)
      ensures this.max == max && this.inner == inner && currentNum == 0
    {
      this.max := max;
      this.inner := inner;
      currentNum := 0;
    }

    /** `checkMaxFailed`: the count has gone past the limit. */
    method CheckMaxFailed() returns (failed: bool)
      ensures failed <==> currentNum > max
    {
      if currentNum > max {
        return true;
      }
      return false;
    }

    /**
     * `test`: counts a match, then answers. A match always yields `false`;
     * a non-match yields whether the count is past the limit. A `true`
     * answer therefore means the limit was already passed before the call.
     */
    method Test(value: T) returns (r: bool)
      modifies this
      ensures currentNum == old(currentNum) + (if Matches(inner, value) then 1 else 0)
      ensures Matches(inner, value) ==> !r
      ensures !Matches(inner, value) ==> r == (currentNum > max)
      ensures r ==> old(currentNum) > max && currentNum > max
      ensures inner.None? ==> currentNum == old(currentNum) && r == (currentNum > max)
    {
      if inner.Some? && inner.value(value) {
        currentNum := currentNum + 1;
        var failed := CheckMaxFailed();
        if failed {
          return false;
        }
      }
      r := CheckMaxFailed();
    }
  }

  /** How many of `values` the inner predicate matches. */
  function MatchCount<T>(inner: Option<T -> bool>, values: seq<T>): (n: nat)
    ensures n <= |values|
  {
    if values == [] then 0
    else MatchCount(inner, values[..|values| - 1]) + (if Matches(inner, values[|values| - 1]) then 1 else 0)
  }

  /** The answer of the `i`-th call when one fresh instance is applied to `values` in order. */
  ghost predicate Verdict<T>(max: int, inner: Option<T -> bool>, values: seq<T>, i: nat)
    requires i < |values|
  {
    !Matches(inner, values[i]) && MatchCount(inner, values[..i + 1]) > max
  }

  /**
   * A caller that applies one fresh instance to `values` in order, with no
   * reset in between, and collects the answers.
   */
  method TestEach<T>(max: int, inner: Option<T -> bool>, values: seq<T>) returns (results: seq<bool>)
    ensures |results| == |values|
    ensures forall i :: 0 <= i < |values| ==> results[i] == Verdict(max, inner, values, i)
  {
    var p := new MaxCountPredicate(max, inner);
    results := [];
    for i := 0 to |values|
      invariant p.currentNum == MatchCount(inner, values[..i])
      invariant |results| == i
      invariant forall j :: 0 <= j < i ==> results[j] == Verdict(max, inner, values, j)
    {
      assert values[..i + 1][..i] == values[..i];
      var r := p.Test(values[i]);
      results := results + [r];
    }
  }

  /** The count only grows along the sequence. */
  lemma {:induction false} MatchCountMonotone<T>(inner: Option<T -> bool>, values: seq<T>, i: nat, j: nat)
    requires i <= j <= |values|
    ensures MatchCount(inner, values[..i]) <= MatchCount(inner, values[..j])
  {
    if i < j {
      assert values[..j][..j - 1] == values[..j - 1];
      MatchCountMonotone(inner, values, i, j - 1);
    }
  }

  /** Once a non-matching value is answered `true`, every later non-matching value is too. */
  lemma VerdictLatches<T>(max: int, inner: Option<T -> bool>, values: seq<T>, i: nat, j: nat)
    requires i < j < |values|
    requires Verdict(max, inner, values, i)
    requires !Matches(inner, values[j])
    ensures Verdict(max, inner, values, j)
  {
    MatchCountMonotone(inner, values, i + 1, j + 1);
  }

  /** With a null inner predicate nothing is ever counted. */
  lemma {:induction false} MatchCountWithoutPredicate<T>(values: seq<T>)
    ensures MatchCount(None, values) == 0
  {
    if values != [] {
      MatchCountWithoutPredicate(values[..|values| - 1]);
    }
  }

  /** With a null inner predicate every answer is `0 > max`. */
  lemma VerdictWithoutPredicate<T>(max: int, values: seq<T>, i: nat)
    requires i < |values|
    ensures Verdict(max, None, values, i) == (0 > max)
  {
    MatchCountWithoutPredicate(values[..i + 1]);
  }

  /** When the inner predicate matches everything, the count is the number of values seen. */
  lemma {:induction false} MatchCountAllMatching<T>(inner: Option<T -> bool>, values: seq<T>)
    requires forall i :: 0 <= i < |values| ==> Matches(inner, values[i])
    ensures MatchCount(inner, values) == |values|
  {
    if values != [] {
      MatchCountAllMatching(inner, values[..|values| - 1]);
    }
  }

  /**
   * When the inner predicate matches everything, every answer is `false`,
   * whatever `max` is, even though the count climbs past it.
   */
  lemma AllMatchingAlwaysFalse<T>(max: int, inner: Option<T -> bool>, values: seq<T>, i: nat)
    requires forall k :: 0 <= k < |values| ==> Matches(inner, values[k])
    requires i < |values|
    ensures !Verdict(max, inner, values, i)
    ensures MatchCount(inner, values[..i + 1]) == i + 1
  {
    MatchCountAllMatching(inner, values[..i + 1]);
  }
}
