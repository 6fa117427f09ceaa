/**
 * The minimum aggregation of the calc module (`Minimum.calculate`): one
 * left-to-right pass over a sequence of monetary amounts that keeps the
 * running minimum, with a null sentinel for "nothing seen yet" and two
 * distinct invalid-argument errors.
 */
module Minimum {
  import opened Wrappers

  /** A monetary amount: its exact numeric value and its currency code. */
  datatype Amount = Amount(number: real, currency: string)

  /** The two invalid-argument errors: "amounts required." and "amounts is empty.". */
  datatype MinimumError = AmountsRequired | AmountsEmpty

  datatype Result = Ok(value: Amount) | Err(error: MinimumError)

  /**
   * Index of the amount a left-to-right scan keeps when it replaces its
   * candidate only on a strictly smaller number.
   */
  function MinIndex(s: seq<Amount>): (k: nat)
    requires |s| > 0
    ensures k < |s|
  {
    if |s| == 1 then 0
    else
      var k := MinIndex(s[..|s| - 1]);
      if s[k].number > s[|s| - 1].number then |s| - 1 else k
  }

  /** `s[k]` has the least number in `s`, and no earlier element has that number. */
  ghost predicate IsFirstMinimum(s: seq<Amount>, k: int)
  {
    0 <= k < |s| &&
    (forall j :: 0 <= j < |s| ==> s[k].number <= s[j].number) &&
    (forall j :: 0 <= j < k ==> s[j].number > s[k].number)
  }

  /** The scan keeps the first element that attains the least number. */
  lemma {:induction false} MinIndexIsFirstMinimum(s: seq<Amount>)
    requires |s| > 0
    ensures IsFirstMinimum(s, MinIndex(s))
  {
    if |s| > 1 {
      var init := s[..|s| - 1];
      MinIndexIsFirstMinimum(init);
      assert forall j :: 0 <= j < |init| ==> init[j] == s[j];
    }
  }

  /** Only the numbers are compared: amounts that differ only in currency give the same index. */
  lemma {:induction false} MinIndexIgnoresCurrency(s: seq<Amount>, t: seq<Amount>)
    requires |s| == |t| > 0
    requires forall i :: 0 <= i < |s| ==> s[i].number == t[i].number
    ensures MinIndex(s) == MinIndex(t)
  {
    if |s| > 1 {
      MinIndexIgnoresCurrency(s[..|s| - 1], t[..|t| - 1]);
    }
  }

  /**
   * `calculate`: `None` stands for a null argument. The result is the
   * element the scan keeps: a member of the input whose number is least.
   */
  method Calculate(amounts: Option<seq<Amount>>) returns (r: Result)
    ensures amounts.None? ==> r == Err(AmountsRequired)
    ensures amounts == Some([]) ==> r == Err(AmountsEmpty)
    ensures amounts.Some? && |amounts.value| > 0 ==> r == Ok(amounts.value[MinIndex(amounts.value)])
    ensures amounts.Some? && |amounts.value| == 1 ==> r == Ok(amounts.value[0])
    ensures r.Ok? ==> amounts.Some? && r.value in amounts.value
    ensures r.Ok? ==> forall a :: a in amounts.value ==> r.value.number <= a.number
  {
    if amounts.None? {
      return Err(AmountsRequired);
    }
    var s := amounts.value;
    var result: Option<Amount> := None;
    for i := 0 to |s|
      invariant result.None? <==> i == 0
      invariant i > 0 ==> result == Some(s[MinIndex(s[..i])])
    {
      var amount := s[i];
      assert s[..i + 1][..i] == s[..i];
      if result.None? {
        result := Some(amount);
      } else if result.value.number > amount.number {
        result := Some(amount);
      }
    }
    if result.None? {
      return Err(AmountsEmpty);
    }
    assert s[..|s|] == s;
    MinIndexIsFirstMinimum(s);
    return Ok(result.value);
  }
}
