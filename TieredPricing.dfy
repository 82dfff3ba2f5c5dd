/**
 * The tier editor (src/TieredPricing.js): the list of tiers of a
 * per-employee billing line, the check of that list for overlapping or
 * inverted ranges, adding a tier from the form, and removing one.
 *
 * The editor holds tier bounds as form text and compares them with
 * `parseInt`. Each field is kept together with the number `parseInt` reads
 * from it (`Field`, built by `FieldOf`); a bound that does not parse is
 * NaN, and every comparison with NaN is false.
 */
module TieredPricing {
  import opened Common
  import opened JsText
  import TieredFee

  /** A form field: its text and `parseInt` of that text. */
  datatype Field = Field(text: string, value: ParsedInt)

  function FieldOf(text: string): (f: Field)
    ensures f.text == text
  {
    Field(text, ParseInt(text))
  }

  /** A tier of the editor's list: persisted tiers carry their row id. */
  datatype EditTier = EditTier(id: Option<int>, tierMin: Field, tierMax: Field, rate: Field)

  /** `parseInt(a) <= parseInt(b)`: false as soon as either side is NaN. */
  predicate AtMost(x: ParsedInt, y: ParsedInt)
  {
    x.Num? && y.Num? && x.n <= y.n
  }

  /** An error names its tier by 1-based position. */
  datatype TierError = Overlaps(tier: nat) | InvalidRange(tier: nat)

  /** The errors the check records for the tier at index `i`: an overlap
      with the tier before it, then an inverted or empty range. */
  function ErrorsAt(ts: seq<EditTier>, i: nat): seq<TierError>
    requires i < |ts|
  {
    (if i > 0 && AtMost(ts[i].tierMin.value, ts[i - 1].tierMax.value) then [Overlaps(i + 1)] else []) +
    (if AtMost(ts[i].tierMax.value, ts[i].tierMin.value) then [InvalidRange(i + 1)] else [])
  }

  /** What `ErrorsAt` reports: at most one error of each kind, both naming
      tier i+1. */
  lemma ErrorsAtMeaning(ts: seq<EditTier>, i: nat)
    requires i < |ts|
    ensures |ErrorsAt(ts, i)| <= 2
    ensures Overlaps(i + 1) in ErrorsAt(ts, i) <==> i > 0 && AtMost(ts[i].tierMin.value, ts[i - 1].tierMax.value)
    ensures InvalidRange(i + 1) in ErrorsAt(ts, i) <==> AtMost(ts[i].tierMax.value, ts[i].tierMin.value)
    ensures forall e :: e in ErrorsAt(ts, i) ==> e.tier == i + 1
  {
  }

  /** All errors of a tier list, tier by tier. */
  function TierErrors(ts: seq<EditTier>): seq<TierError>
  {
    if ts == [] then [] else TierErrors(ts[..|ts| - 1]) + ErrorsAt(ts, |ts| - 1)
  }

  /** `validateTiers`: the `forEach` that pushes each tier's errors. */
  method ValidateTiers(ts: seq<EditTier>) returns (errors: seq<TierError>)
    ensures errors == TierErrors(ts)
  {
    errors := [];
    var index := 0;
    while index < |ts|
      invariant 0 <= index <= |ts|
      invariant errors == TierErrors(ts[..index])
    {
      var tier := ts[index];
      ghost var before := errors;
      ghost var overlap: seq<TierError> := if index > 0 && AtMost(tier.tierMin.value, ts[index - 1].tierMax.value) then [Overlaps(index + 1)] else [];
      ghost var inverted: seq<TierError> := if AtMost(tier.tierMax.value, tier.tierMin.value) then [InvalidRange(index + 1)] else [];
      if index > 0 {
        var prevTier := ts[index - 1];
        if AtMost(tier.tierMin.value, prevTier.tierMax.value) {
          errors := errors + [Overlaps(index + 1)];
        }
      }
      assert errors == before + overlap;
      ghost var middle := errors;
      if AtMost(tier.tierMax.value, tier.tierMin.value) {
        errors := errors + [InvalidRange(index + 1)];
      }
      assert errors == middle + inverted;
      TierErrorsStep(ts, index);
      assert errors == TierErrors(ts[..index + 1]);
      index := index + 1;
    }
    assert ts[..index] == ts;
  }

  lemma TierErrorsStep(ts: seq<EditTier>, i: nat)
    requires i < |ts|
    ensures TierErrors(ts[..i + 1]) ==
            TierErrors(ts[..i]) +
            (if i > 0 && AtMost(ts[i].tierMin.value, ts[i - 1].tierMax.value) then [Overlaps(i + 1)] else []) +
            (if AtMost(ts[i].tierMax.value, ts[i].tierMin.value) then [InvalidRange(i + 1)] else [])
  {
    assert ts[..i + 1][..i] == ts[..i];
    assert ErrorsAt(ts[..i + 1], i) == ErrorsAt(ts, i);
  }

  /** The tier at index `i` passes: its range is not inverted and it does
      not start at or below the end of the tier before it. */
  predicate TierOk(ts: seq<EditTier>, i: nat)
    requires i < |ts|
  {
    !AtMost(ts[i].tierMax.value, ts[i].tierMin.value) &&
    !(i > 0 && AtMost(ts[i].tierMin.value, ts[i - 1].tierMax.value))
  }

  /** The check reports nothing exactly when every tier passes. */
  lemma {:induction false} TierErrorsEmptyIff(ts: seq<EditTier>)
    ensures TierErrors(ts) == [] <==> forall i :: 0 <= i < |ts| ==> TierOk(ts, i)
  {
    if ts != [] {
      var init := ts[..|ts| - 1];
      TierErrorsEmptyIff(init);
      assert forall i :: 0 <= i < |init| ==> (TierOk(init, i) <==> TierOk(ts, i));
      var last := ErrorsAt(ts, |ts| - 1);
      assert last == [] <==> TierOk(ts, |ts| - 1) by {
        if last != [] {
          assert last[0] in last;
        }
      }
    }
  }

  /** Every error names a tier of the list, and the first tier can never
      overlap. */
  lemma {:induction false} TierErrorsNumbering(ts: seq<EditTier>)
    ensures forall e :: e in TierErrors(ts) ==> 1 <= e.tier <= |ts|
    ensures Overlaps(1) !in TierErrors(ts)
  {
    if ts != [] {
      TierErrorsNumbering(ts[..|ts| - 1]);
      if |ts| == 1 {
        assert ts[..0] == [];
      }
    }
  }

  /** Each field of the tier holds a number. */
  predicate Numeric(t: EditTier)
  {
    t.tierMin.value.Num? && t.tierMax.value.Num? && t.rate.value.Num?
  }

  function Priced(t: EditTier): TieredFee.Tier
    requires Numeric(t)
  {
    TieredFee.Tier(t.tierMin.value.n, t.tierMax.value.n, t.rate.value.n)
  }

  function PricedTiers(ts: seq<EditTier>): (r: seq<TieredFee.Tier>)
    requires forall i :: 0 <= i < |ts| ==> Numeric(ts[i])
    ensures |r| == |ts| && forall i :: 0 <= i < |ts| ==> r[i] == Priced(ts[i])
  {
    seq(|ts|, i requires 0 <= i < |ts| && Numeric(ts[i]) => Priced(ts[i]))
  }

  /** A numeric tier list the check accepts is ascending and
      non-overlapping, so the fee engine's bracket selection prices each
      head count by the one tier that holds it. */
  lemma NumericAcceptedIsAscending(ts: seq<EditTier>)
    requires forall i :: 0 <= i < |ts| ==> Numeric(ts[i])
    requires TierErrors(ts) == []
    ensures TieredFee.Ascending(PricedTiers(ts))
  {
    TierErrorsEmptyIff(ts);
    var ps := PricedTiers(ts);
    forall i | 0 <= i < |ps| ensures ps[i].min < ps[i].max {
      assert TierOk(ts, i);
    }
    forall i, j | 0 <= i < j < |ps| ensures ps[i].max < ps[j].min {
      AscendingStep(ts, ps, i, j);
    }
  }

  lemma {:induction false} AscendingStep(ts: seq<EditTier>, ps: seq<TieredFee.Tier>, i: nat, j: nat)
    requires forall k :: 0 <= k < |ts| ==> Numeric(ts[k])
    requires ps == PricedTiers(ts)
    requires forall k :: 0 <= k < |ts| ==> TierOk(ts, k)
    requires i < j < |ps|
    ensures ps[i].max < ps[j].min
    decreases j - i
  {
    assert TierOk(ts, j);
    if i < j - 1 {
      AscendingStep(ts, ps, i, j - 1);
      assert TierOk(ts, j - 1);
    }
  }

  /** A bound that is not a number slips through: no comparison with NaN
      is true, so no error is recorded, whatever the other bound. */
  lemma NaNBoundPasses(t: EditTier)
    requires t.tierMin.value.NaN?
    ensures TierErrors([t]) == []
  {
    assert [t][..0] == [];
  }

  // ---- adding and removing ----

  datatype TierForm = TierForm(tierMin: string, tierMax: string, rate: string)

  const EmptyForm := TierForm("", "", "")

  function NewTier(form: TierForm): EditTier
  {
    EditTier(None, FieldOf(form.tierMin), FieldOf(form.tierMax), FieldOf(form.rate))
  }

  /** `!tierToRemove.id`: an unsaved tier has no id (an id of 0 is falsy). */
  predicate Persisted(t: EditTier)
  {
    t.id.Some? && t.id.value != 0
  }

  /** `handleSubmitTier`: any empty field is refused; otherwise the form
      becomes a new unsaved tier at the end and the form is cleared. */
  function SubmitTier(tiers: seq<EditTier>, form: TierForm): (r: Result<(seq<EditTier>, TierForm), string>)
    ensures r.Err? <==> form.tierMin == "" || form.tierMax == "" || form.rate == ""
    ensures r.Ok? ==> |r.value.0| == |tiers| + 1 && r.value.0[..|tiers|] == tiers
    ensures r.Ok? ==> r.value.0[|tiers|] == NewTier(form) && !Persisted(r.value.0[|tiers|])
    ensures r.Ok? ==> r.value.1 == EmptyForm
  {
    if form.tierMin == "" || form.tierMax == "" || form.rate == "" then Err("Please fill in all fields")
    else Ok((tiers + [NewTier(form)], EmptyForm))
  }

  /** `handleRemoveTier`: an unsaved tier is dropped at once; a persisted
      one only after its DELETE succeeded, and the list stays as it was
      when the DELETE fails. */
  function RemoveTier(tiers: seq<EditTier>, index: nat, deleteOk: bool): (r: seq<EditTier>)
    requires index < |tiers|
    ensures (!Persisted(tiers[index]) || deleteOk) ==> r == RemoveAt(tiers, index)
    ensures Persisted(tiers[index]) && !deleteOk ==> r == tiers
  {
    if !Persisted(tiers[index]) || deleteOk then RemoveAt(tiers, index) else tiers
  }

  /** Removing a tier just added gives back the list it was added to,
      whatever happens to a DELETE request (none is sent for it). */
  lemma SubmitThenRemove(tiers: seq<EditTier>, form: TierForm, deleteOk: bool)
    requires SubmitTier(tiers, form).Ok?
    ensures RemoveTier(SubmitTier(tiers, form).value.0, |tiers|, deleteOk) == tiers
  {
    var added := SubmitTier(tiers, form).value.0;
    assert RemoveAt(added, |tiers|) == added[..|tiers|];
  }

  /** Removing the tier at `index` and putting it back where it was gives
      the list before the removal. */
  lemma RemoveTierInverse(tiers: seq<EditTier>, index: nat, deleteOk: bool)
    requires index < |tiers| && (!Persisted(tiers[index]) || deleteOk)
    ensures var r := RemoveTier(tiers, index, deleteOk); r[..index] + [tiers[index]] + r[index..] == tiers
  {
    RemoveAtInverse(tiers, index);
  }
}
