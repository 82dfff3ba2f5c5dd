/**
 * Per-employee pricing of the invoice generator (`calculateTieredFee` in
 * src/GenerateInvoice.js). A partner's per-employee line either carries a
 * flat rate or a list of tiers (min, max, rate). With tiers the fee is
 * BRACKET SELECTION: the tiers are sorted by their minimum, the first tier
 * whose closed range holds the head count supplies one rate, and that rate
 * is charged for every employee. A head count that no tier holds is charged
 * at the rate of the last tier in that order.
 *
 * Money is in integer cents, so the source's `toFixed(2)` is exact here.
 */
module TieredFee {
  import opened Common

  /** One pricing tier: the employee range [min, max] and the rate in cents. */
  datatype Tier = Tier(min: int, max: int, rate: int)

  /** The partner's per-employee billing line. A partner-level line has no
      per-employee amount (the query yields null for it), which parses to
      NaN and so is `None` here. */
  datatype PerEmployeeLine = PerEmployeeLine(amount: Option<int>, perEmployeeAmount: Option<int>)

  predicate InTier(t: Tier, count: int) { t.min <= count <= t.max }

  /** The guard `!perEmployeeFee || (parseFloat(amount) === 0 &&
      parseFloat(per_employee_amount) === 0)`: NaN is never `=== 0`. */
  predicate Unpriced(line: Option<PerEmployeeLine>)
  {
    line.None? || (line.value.amount == Some(0) && line.value.perEmployeeAmount == Some(0))
  }

  /** `parseFloat(per_employee_amount) || parseFloat(amount) || 0`. */
  function FlatRate(line: PerEmployeeLine): (rate: int)
    ensures line.perEmployeeAmount.Some? && line.perEmployeeAmount.value != 0 ==>
              rate == line.perEmployeeAmount.value
    ensures (line.perEmployeeAmount.None? || line.perEmployeeAmount == Some(0)) ==>
              rate == OrZero(line.amount)
  {
    if line.perEmployeeAmount.Some? && line.perEmployeeAmount.value != 0 then line.perEmployeeAmount.value
    else OrZero(line.amount)
  }

  /** The sort key of `[...tiers].sort((a, b) => a.tier_min - b.tier_min)`. */
  function MinOf(t: Tier): int { t.min }

  /** `sortedTiers.find(...)`: the first tier holding `count`. */
  function FirstMatch(ts: seq<Tier>, count: int): (k: Option<nat>)
    ensures k.Some? ==> k.value < |ts| && InTier(ts[k.value], count)
    ensures k.Some? ==> forall j :: 0 <= j < k.value ==> !InTier(ts[j], count)
    ensures k.None? ==> forall j :: 0 <= j < |ts| ==> !InTier(ts[j], count)
  {
    if ts == [] then None
    else if InTier(ts[0], count) then Some(0)
    else
      var k := FirstMatch(ts[1..], count);
      if k.Some? then Some(k.value + 1) else None
  }

  /** The per-employee rate that bracket selection picks from non-empty tiers. */
  function BracketRate(tiers: seq<Tier>, count: int): (rate: int)
    requires tiers != []
    // the rate is always one of the configured tier rates
    ensures exists t :: t in tiers && rate == t.rate
    // a held count takes the rate of the first holding tier in minimum order
    ensures (exists t :: t in tiers && InTier(t, count)) ==>
              exists k :: 0 <= k < |SortBy(tiers, MinOf)| && InTier(SortBy(tiers, MinOf)[k], count) &&
                (forall j :: 0 <= j < k ==> !InTier(SortBy(tiers, MinOf)[j], count)) &&
                rate == SortBy(tiers, MinOf)[k].rate
    // a count no tier holds takes the rate of the last tier in list order
    // among those with the largest minimum (the stable sort keeps ties in order)
    ensures (forall t :: t in tiers ==> !InTier(t, count)) ==>
              exists m :: LastMaximal(tiers, MinOf, m) && rate == tiers[m].rate
  {
    var sorted := SortBy(tiers, MinOf);
    assert forall t :: t in sorted <==> t in tiers by {
      forall t ensures t in sorted <==> t in tiers {
        assert t in sorted <==> t in multiset(sorted);
        assert t in tiers <==> t in multiset(tiers);
      }
    }
    var k := FirstMatch(sorted, count);
    if k.Some? then
      assert sorted[k.value] in tiers;
      sorted[k.value].rate
    else
      SortByLast(tiers, MinOf);
      sorted[|sorted| - 1].rate
  }

  /** Out of every range, tiers with the same minimum resolve to the one
      listed last. */
  lemma TiedMinimumTakesLastListed()
    ensures BracketRate([Tier(10, 20, 100), Tier(10, 15, 200)], 30) == 200
  {
    var ts := [Tier(10, 20, 100), Tier(10, 15, 200)];
    assert !LastMaximal(ts, MinOf, 0) by {
      assert MinOf(ts[1]) == MinOf(ts[0]);
    }
  }

  /** `calculateTieredFee(employeeCount)` for a partner's configuration. */
  function CalculateTieredFee(line: Option<PerEmployeeLine>, tiers: seq<Tier>, count: nat): (fee: int)
    ensures Unpriced(line) ==> fee == 0
    ensures !Unpriced(line) && tiers == [] ==> fee == count * FlatRate(line.value)
    ensures !Unpriced(line) && tiers != [] ==> exists t :: t in tiers && fee == count * t.rate
    // with tiers, every employee is charged the bracket rate `BracketRate` characterises
    ensures !Unpriced(line) && tiers != [] ==> fee == count * BracketRate(tiers, count)
  {
    if Unpriced(line) then 0
    else if tiers == [] then count * FlatRate(line.value)
    else count * BracketRate(tiers, count)
  }

  /** Tiers in strictly ascending, non-overlapping order: what a tier list
      accepted by the tier editor's validation looks like. */
  ghost predicate Ascending(ts: seq<Tier>)
  {
    (forall i :: 0 <= i < |ts| ==> ts[i].min <= ts[i].max) &&
    (forall i, j :: 0 <= i < j < |ts| ==> ts[i].max < ts[j].min)
  }

  /** With ascending tiers the bracket is unambiguous: a count inside tier k
      is charged at tier k's rate, for every employee. */
  lemma AscendingTierPricesItsRange(line: Option<PerEmployeeLine>, tiers: seq<Tier>, count: nat, k: nat)
    requires !Unpriced(line) && Ascending(tiers)
    requires k < |tiers| && InTier(tiers[k], count)
    ensures CalculateTieredFee(line, tiers, count) == count * tiers[k].rate
  {
    assert SortedBy(tiers, MinOf) by {
      forall i, j | 0 <= i < j < |tiers| ensures MinOf(tiers[i]) <= MinOf(tiers[j]) {
        assert tiers[i].min <= tiers[i].max < tiers[j].min;
      }
    }
    SortSortedIsIdentity(tiers, MinOf);
    var m := FirstMatch(tiers, count);
    assert m.Some?;
    assert m.value == k;
  }

  /** Bracket selection is not graduated banding: one more employee can move
      the whole head count into a cheaper bracket and lower the fee. */
  lemma BracketNotGraduated()
    ensures CalculateTieredFee(Some(PerEmployeeLine(Some(0), None)), [Tier(1, 5, 300), Tier(6, 20, 200)], 5) == 1500
    ensures CalculateTieredFee(Some(PerEmployeeLine(Some(0), None)), [Tier(1, 5, 300), Tier(6, 20, 200)], 6) == 1200
  {
    var line := Some(PerEmployeeLine(Some(0), None));
    var ts := [Tier(1, 5, 300), Tier(6, 20, 200)];
    assert Ascending(ts);
    AscendingTierPricesItsRange(line, ts, 5, 0);
    AscendingTierPricesItsRange(line, ts, 6, 1);
  }
}
