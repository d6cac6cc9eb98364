/** The rule `find_best_patch` implements: the first strictly greatest price wins. */
module FieldSelect {

  /**
   * `k` is where a scan that replaces its candidate only on a strictly higher
   * price ends: no price exceeds `prices[k]`, and every earlier one is lower.
   */
  predicate IsFirstArgmax(prices: seq<real>, k: int) {
    && 0 <= k < |prices|
    && (forall j :: 0 <= j < |prices| ==> prices[j] <= prices[k])
    && (forall j :: 0 <= j < k ==> prices[j] < prices[k])
  }

  /** The rule picks one index. */
  lemma FirstArgmaxUnique(prices: seq<real>, k1: int, k2: int)
    requires IsFirstArgmax(prices, k1) && IsFirstArgmax(prices, k2)
    ensures k1 == k2
  {
    assert prices[k1] == prices[k2];
  }

  /** On an all-equal field the first entry is chosen. */
  lemma AllEqualPicksFirst(prices: seq<real>, k: int)
    requires forall j :: 0 <= j < |prices| ==> prices[j] == prices[0]
    requires IsFirstArgmax(prices, k)
    ensures k == 0
  {
    assert prices[k] == prices[0];
  }

  /** The index the rule picks, found from the left. */
  function FirstArgmax(prices: seq<real>): (k: nat)
    requires prices != []
    ensures k < |prices|
    decreases |prices|
  {
    if |prices| == 1 then 0
    else
      var k := FirstArgmax(prices[..|prices| - 1]);
      if prices[|prices| - 1] > prices[k] then |prices| - 1 else k
  }

  /** `FirstArgmax` follows the rule. */
  lemma {:induction false} FirstArgmaxIsFirst(prices: seq<real>)
    requires prices != []
    ensures IsFirstArgmax(prices, FirstArgmax(prices))
    decreases |prices|
  {
    if |prices| > 1 {
      FirstArgmaxIsFirst(prices[..|prices| - 1]);
    }
  }
}
