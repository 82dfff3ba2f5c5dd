/**
 * The invoice generator page (src/GenerateInvoice.js) apart from the tier
 * pricing and the aggregation it calls: the selection toggles, the
 * warnings of `validateRecurringBilling`, the monthly-minimum line, the
 * recurring and one-time lines with their manual overrides, and the
 * request that `handleGenerateInvoice` posts to the server.
 *
 * Amounts are integer cents. An amount the page sends may be NaN (an
 * override that does not parse); JSON turns NaN into null, so such an
 * amount is `None` here. An override entry is the text typed into the box
 * together with the number `parseFloat` reads from it.
 */
module InvoiceDraft {
  import opened Common
  import opened TieredFee
  import opened MonthlyAggregation
  import OneTimeCharges

  // ---- selection toggles ----

  /** `prev.includes(x) ? prev.filter(y => y !== x) : [...prev, x]`. */
  function Toggle<T(==,!new)>(sel: seq<T>, x: T): (r: seq<T>)
    ensures x in r <==> x !in sel
    ensures forall y :: y != x ==> (y in r <==> y in sel)
  {
    if x in sel then Without(sel, x) else sel + [x]
  }

  /** Ticking a box twice restores the selection: exactly when the item was
      not selected before, and as a set in every case. */
  lemma ToggleTwice<T(!new)>(sel: seq<T>, x: T)
    ensures forall y :: y in Toggle(Toggle(sel, x), x) <==> y in sel
    ensures x !in sel ==> Toggle(Toggle(sel, x), x) == sel
  {
    if x !in sel {
      WithoutAbsent(sel, x);
      assert Without(sel + [x], x) == sel by {
        WithoutAppend(sel, x);
      }
    }
  }

  lemma {:induction false} WithoutAppend<T(!new)>(s: seq<T>, x: T)
    requires x !in s
    ensures Without(s + [x], x) == s
  {
    if s == [] {
      assert [x][1..] == [];
    } else {
      assert (s + [x])[1..] == s[1..] + [x];
      WithoutAppend(s[1..], x);
      assert [s[0]] + s[1..] == s;
    }
  }

  /** The key under which a recurring row's checkbox is recorded:
      `id || \`client-billing-${index}\``. */
  datatype RecurringKey = ById(id: int) | ByPosition(index: nat)

  function RecurringKeyOf(id: Option<int>, index: nat): RecurringKey
  {
    if id.Some? && id.value != 0 then ById(id.value) else ByPosition(index)
  }

  // ---- partner configuration ----

  /** A `partner_billing` configuration line (base, per-employee, minimum). */
  datatype ConfigLine = ConfigLine(id: int, itemName: string, itemCode: Option<string>, amount: Option<int>)

  datatype Source = PartnerBilling | ClientBilling

  /** One row of the recurring list: a partner-level line or a client-level
      line (the server's UNION of both tables). */
  datatype RecurringLine = RecurringLine(
    id: Option<int>,
    billingItemId: int,
    source: Source,
    itemName: string,
    itemCode: Option<string>,
    amount: Option<int>,
    baseAmount: Option<int>,
    perEmployeeAmount: Option<int>,
    clientId: Option<string>,
    clientName: Option<string>,
    billingFrequency: Option<string>)

  /** `item.billing_source === 'client_billing' && item.per_employee_amount`.
      The numeric column arrives as text, so any non-null value is truthy,
      "0.00" included. */
  predicate PerEmployeeClientLine(item: RecurringLine)
  {
    item.source == ClientBilling && item.perEmployeeAmount.Some?
  }

  /** `monthlyData.find(m => m.client_code === item.client_id)`. */
  function MatchingRow(rows: seq<UsageRow>, clientId: Option<string>): (m: Option<nat>)
    ensures m.Some? ==> clientId.Some? && m.value < |rows| && rows[m.value].clientCode == clientId.value
    ensures m.None? <==> clientId.None? || forall k :: 0 <= k < |rows| ==> rows[k].clientCode != clientId.value
  {
    if clientId.None? then None else IndexOf(rows, clientId.value)
  }

  // ---- validateRecurringBilling ----

  datatype Warning = ClientNotFound | PayGroupInactive

  function Warnings(item: RecurringLine, rows: seq<UsageRow>): (w: seq<Warning>)
    ensures |w| <= 1
    ensures w == [ClientNotFound] <==> PerEmployeeClientLine(item) && MatchingRow(rows, item.clientId).None?
    ensures w == [PayGroupInactive] <==>
              PerEmployeeClientLine(item) && MatchingRow(rows, item.clientId).Some? &&
              !rows[MatchingRow(rows, item.clientId).value].isPayGroupActive
    ensures !PerEmployeeClientLine(item) ==> w == []
  {
    if !PerEmployeeClientLine(item) then []
    else
      var m := MatchingRow(rows, item.clientId);
      if m.None? then [ClientNotFound]
      else if !rows[m.value].isPayGroupActive then [PayGroupInactive]
      else []
  }

  /** The warnings the page shows before submitting: one entry per recurring
      line that has any, checked against the aggregated rows. */
  function WarningLines(lines: seq<RecurringLine>, aggregated: seq<UsageRow>): (r: seq<(string, seq<Warning>)>)
    ensures r == [] <==> forall i :: 0 <= i < |lines| ==> Warnings(lines[i], aggregated) == []
  {
    if lines == [] then []
    else
      var w := Warnings(lines[|lines| - 1], aggregated);
      var rest := WarningLines(lines[..|lines| - 1], aggregated);
      assert forall i :: 0 <= i < |lines| - 1 ==> lines[..|lines| - 1][i] == lines[i];
      rest + (if w == [] then [] else [(lines[|lines| - 1].itemName, w)])
  }

  /** Checked against aggregated rows, "client not found" means no usage row
      at all carries the client's code, and "inactive" means every row of
      that client is inactive. */
  lemma WarningsOnAggregated(item: RecurringLine, rows: seq<UsageRow>)
    requires PerEmployeeClientLine(item) && item.clientId.Some?
    ensures Warnings(item, Aggregate(rows)) == [ClientNotFound] <==> item.clientId.value !in Codes(rows)
    ensures Warnings(item, Aggregate(rows)) == [PayGroupInactive] <==>
              item.clientId.value in Codes(rows) && !AnyActive(rows, item.clientId.value)
  {
    var agg := Aggregate(rows);
    var c := item.clientId.value;
    AggregateDistinct(rows);
    var m := MatchingRow(agg, item.clientId);
    if m.Some? {
      AggregateCombines(rows, m.value);
      assert c in Codes(agg) by { assert Codes(agg)[m.value] == c; }
    } else {
      assert c !in Codes(agg);
    }
  }

  // ---- amounts ----

  /** What the page computes for a recurring line before any override. */
  function CalculatedAmount(item: RecurringLine, rows: seq<UsageRow>): (amount: int)
    ensures PerEmployeeClientLine(item) && MatchingRow(rows, item.clientId).Some? ==>
              amount == OrZero(item.baseAmount) +
                        rows[MatchingRow(rows, item.clientId).value].totalActiveEmployees * item.perEmployeeAmount.value
    ensures !(PerEmployeeClientLine(item) && MatchingRow(rows, item.clientId).Some?) ==>
              amount == OrZero(item.amount)
  {
    var m := MatchingRow(rows, item.clientId);
    if PerEmployeeClientLine(item) && m.Some? then
      OrZero(item.baseAmount) + rows[m.value].totalActiveEmployees * item.perEmployeeAmount.value
    else OrZero(item.amount)
  }

  /** A per-employee client line is priced from its client's usage exactly
      when the client check raises no "not found" warning on the same rows. */
  lemma CalculatedIffFound(item: RecurringLine, rows: seq<UsageRow>)
    requires PerEmployeeClientLine(item)
    ensures Warnings(item, rows) != [ClientNotFound] <==>
              exists k :: 0 <= k < |rows| && Some(rows[k].clientCode) == item.clientId &&
                CalculatedAmount(item, rows) == OrZero(item.baseAmount) + rows[k].totalActiveEmployees * item.perEmployeeAmount.value
  {
    var m := MatchingRow(rows, item.clientId);
    if m.Some? {
      assert 0 <= m.value < |rows| && Some(rows[m.value].clientCode) == item.clientId;
    }
  }

  /** The recurring amount reads the FIRST raw row of the client: with two
      rows for one client only the first one's head count is billed. */
  lemma CalculatedReadsFirstRawRow()
    ensures CalculatedAmount(
              RecurringLine(Some(1), 7, ClientBilling, "Payroll", None, Some(0), Some(0), Some(100), Some("C1"), None, None),
              [UsageRow("C1", "Acme", true, 3, 3), UsageRow("C1", "Acme", true, 4, 4)]) == 300
  {
    var rows := [UsageRow("C1", "Acme", true, 3, 3), UsageRow("C1", "Acme", true, 4, 4)];
    assert IndexOf(rows, "C1") == Some(0);
  }

  /** A manual override: the text in the box and the number `parseFloat`
      reads from it (`None` for NaN). */
  datatype Entry = Entry(text: string, value: Option<int>)

  /** `parseFloat(overrides[id] || computed)`. */
  function Invoiced(overrides: map<int, Entry>, id: int, computed: int): (r: Option<int>)
    ensures (id !in overrides || overrides[id].text == "") ==> r == Some(computed)
    ensures (id in overrides && overrides[id].text != "") ==> r == overrides[id].value
  {
    if id in overrides && overrides[id].text != "" then overrides[id].value else Some(computed)
  }

  /** Clearing the box brings back the computed amount, and typing into the
      box of one line never changes another line's amount. */
  lemma ClearingOverrideRestores(overrides: map<int, Entry>, id: int, other: int, computed: int, v: Option<int>)
    requires other != id
    ensures Invoiced(overrides[id := Entry("", v)], id, computed) == Some(computed)
    ensures Invoiced(overrides[id := Entry("", v)], other, computed) == Invoiced(overrides, other, computed)
  {
  }

  /** `reasons[id] || null`. */
  function Reason(reasons: map<int, string>, id: int): (r: Option<string>)
    ensures r.Some? <==> id in reasons && reasons[id] != ""
    ensures r.Some? ==> r.value == reasons[id]
  {
    if id in reasons && reasons[id] != "" then Some(reasons[id]) else None
  }

  // ---- the request posted to /api/generate-invoice ----

  datatype Partner = Partner(id: int, code: string, name: string)

  datatype MonthlyFee = MonthlyFee(
    clientCode: string, clientName: string, isPayGroupActive: bool, totalActiveEmployees: nat,
    baseFeeAmount: int, perEmployeeFeeAmount: int, totalMonthlyFee: int, partnerId: int, partnerCode: string)

  datatype RecurringFee = RecurringFee(
    partnerBillingId: Option<int>, partnerId: int, partnerCode: string, clientName: string,
    itemName: string, itemCode: string, billingItemId: int,
    originalAmount: Option<int>, invoicedAmount: Option<int>, overrideReason: Option<string>,
    billingFrequency: Option<string>)

  datatype OneTimeFee = OneTimeFee(
    addlBillingId: int, partnerId: int, partnerCode: string, clientName: Option<string>,
    itemName: string, itemCode: string, billingItemId: int, billingDate: int,
    originalAmount: Option<int>, invoicedAmount: Option<int>, overrideReason: Option<string>)

  datatype InvoiceRequest = InvoiceRequest(
    partnerId: int, partnerCode: string, partnerName: string, invoiceMonth: string, invoiceDate: string,
    monthlyFees: seq<MonthlyFee>, recurringFees: seq<RecurringFee>, oneTimeFees: seq<OneTimeFee>)

  /** `parseFloat(baseFee?.amount || 0)`. */
  function BaseAmount(base: Option<ConfigLine>): int
  {
    if base.Some? then OrZero(base.value.amount) else 0
  }

  /** The aggregated clients whose codes are ticked, in list order. */
  function SelectedClients(aggregated: seq<UsageRow>, selected: seq<string>): seq<UsageRow>
  {
    Filter(aggregated, (u: UsageRow) => u.clientCode in selected)
  }

  /** The monthly lines: one per selected aggregated client, in list order.
      The base fee is put on every line, active or not, and the line total
      is the per-employee fee alone. */
  function MonthlyFees(aggregated: seq<UsageRow>, selected: seq<string>, base: int,
                       perEmployee: Option<PerEmployeeLine>, tiers: seq<Tier>, partner: Partner): (r: seq<MonthlyFee>)
    ensures |r| == |SelectedClients(aggregated, selected)|
    ensures forall i :: 0 <= i < |r| ==>
              var u := SelectedClients(aggregated, selected)[i];
              var fee := CalculateTieredFee(perEmployee, tiers, u.totalActiveEmployees);
              r[i] == MonthlyFee(u.clientCode, u.clientName, u.isPayGroupActive, u.totalActiveEmployees,
                                 base, fee, fee, partner.id, partner.code)
  {
    if aggregated == [] then []
    else
      var u := aggregated[|aggregated| - 1];
      var rest := MonthlyFees(aggregated[..|aggregated| - 1], selected, base, perEmployee, tiers, partner);
      assert SelectedClients(aggregated, selected) ==
             SelectedClients(aggregated[..|aggregated| - 1], selected) + (if u.clientCode in selected then [u] else []);
      if u.clientCode in selected then
        var fee := CalculateTieredFee(perEmployee, tiers, u.totalActiveEmployees);
        rest + [MonthlyFee(u.clientCode, u.clientName, u.isPayGroupActive, u.totalActiveEmployees,
                           base, fee, fee, partner.id, partner.code)]
      else rest
  }

  /** The client code of each monthly line. */
  function LineCodes(r: seq<MonthlyFee>): (cs: seq<string>)
    ensures |cs| == |r| && forall j :: 0 <= j < |r| ==> cs[j] == r[j].clientCode
  {
    seq(|r|, j requires 0 <= j < |r| => r[j].clientCode)
  }

  /** `c` occurs in `cs` at position `i` and nowhere else. */
  ghost predicate SoleIndex(cs: seq<string>, c: string, i: int)
  {
    0 <= i < |cs| && forall j :: 0 <= j < |cs| ==> (cs[j] == c <==> j == i)
  }

  /** Each selected client of the aggregated rows gets exactly one monthly
      line, which bills that client's head count. */
  lemma SelectedClientBilledOnce(rows: seq<UsageRow>, selected: seq<string>, base: int,
                                 perEmployee: Option<PerEmployeeLine>, tiers: seq<Tier>, partner: Partner, k: nat)
    requires k < |Aggregate(rows)| && Aggregate(rows)[k].clientCode in selected
    ensures var r := MonthlyFees(Aggregate(rows), selected, base, perEmployee, tiers, partner);
            exists i :: SoleIndex(LineCodes(r), Aggregate(rows)[k].clientCode, i) &&
              r[i].totalActiveEmployees == Aggregate(rows)[k].totalActiveEmployees
  {
    var agg := Aggregate(rows);
    AggregateDistinct(rows);
    var i := SelectedSole(agg, selected, k);
    var r := MonthlyFees(agg, selected, base, perEmployee, tiers, partner);
    var sel := SelectedClients(agg, selected);
    assert LineCodes(r) == Codes(sel);
    assert r[i].totalActiveEmployees == sel[i].totalActiveEmployees;
    assert SoleIndex(LineCodes(r), agg[k].clientCode, i) && r[i].totalActiveEmployees == agg[k].totalActiveEmployees;
    assert exists i :: SoleIndex(LineCodes(r), Aggregate(rows)[k].clientCode, i) &&
              r[i].totalActiveEmployees == Aggregate(rows)[k].totalActiveEmployees;
    assert r == MonthlyFees(Aggregate(rows), selected, base, perEmployee, tiers, partner);
  }

  /** With distinct codes, a selected client sits at exactly one position
      of the selected list. */
  lemma SelectedSole(agg: seq<UsageRow>, selected: seq<string>, k: nat) returns (i: nat)
    requires k < |agg| && agg[k].clientCode in selected && Distinct(Codes(agg))
    ensures i < |SelectedClients(agg, selected)| && SelectedClients(agg, selected)[i] == agg[k]
    ensures SoleIndex(Codes(SelectedClients(agg, selected)), agg[k].clientCode, i)
  {
    var u := agg[k];
    var p := (v: UsageRow) => v.clientCode in selected;
    FilterSplit(agg, p, k);
    var s1, s2 := Filter(agg[..k], p), Filter(agg[k + 1..], p);
    var sel := SelectedClients(agg, selected);
    assert sel == s1 + [u] + s2;
    i := |s1|;
    forall j | 0 <= j < |sel| ensures sel[j].clientCode == u.clientCode <==> j == i {
      if j < i {
        assert sel[j] == s1[j];
        OtherCodeBefore(agg, p, k, s1[j]);
      } else if j > i {
        assert sel[j] == s2[j - i - 1];
        OtherCodeAfter(agg, p, k, s2[j - i - 1]);
      }
    }
  }

  /** With distinct codes, a row kept from before position `k` has another code. */
  lemma OtherCodeBefore(agg: seq<UsageRow>, p: UsageRow -> bool, k: nat, v: UsageRow)
    requires k < |agg| && Distinct(Codes(agg)) && v in Filter(agg[..k], p)
    ensures v.clientCode != agg[k].clientCode
  {
    FilterMember(agg[..k], p, v);
    var m :| 0 <= m < k && agg[..k][m] == v;
    assert Codes(agg)[m] != Codes(agg)[k];
  }

  /** With distinct codes, a row kept from after position `k` has another code. */
  lemma OtherCodeAfter(agg: seq<UsageRow>, p: UsageRow -> bool, k: nat, v: UsageRow)
    requires k < |agg| && Distinct(Codes(agg)) && v in Filter(agg[k + 1..], p)
    ensures v.clientCode != agg[k].clientCode
  {
    FilterMember(agg[k + 1..], p, v);
    var m :| 0 <= m < |agg| - k - 1 && agg[k + 1..][m] == v;
    assert Codes(agg)[k + 1 + m] != Codes(agg)[k];
  }

  // ---- the monthly minimum ----

  /** Number of raw usage rows that are selected and active. */
  function ActiveSelected(rows: seq<UsageRow>, selected: seq<string>): nat
  {
    if rows == [] then 0
    else
      var u := rows[|rows| - 1];
      ActiveSelected(rows[..|rows| - 1], selected) + (if u.clientCode in selected && u.isPayGroupActive then 1 else 0)
  }

  /** The reduce over the selected raw rows: the base fee for each active
      row, nothing for an inactive one. */
  function BaseFeesBilled(rows: seq<UsageRow>, selected: seq<string>, base: int): (total: int)
    ensures total == base * ActiveSelected(rows, selected)
  {
    if rows == [] then 0
    else
      var u := rows[|rows| - 1];
      BaseFeesBilled(rows[..|rows| - 1], selected, base) + (if u.clientCode in selected && u.isPayGroupActive then base else 0)
  }

  /** `minFeeAmount > total ? minFeeAmount - total : 0`. */
  function Shortfall(minimum: int, billed: int): (s: int)
    ensures s >= 0
    ensures billed + s >= minimum
    ensures s > 0 ==> billed + s == minimum
  {
    if minimum > billed then minimum - billed else 0
  }

  /** The shortfall tops the base fees up to exactly the minimum, or is 0
      when they already reach it. */
  lemma ShortfallTopsUp(minimum: int, billed: int)
    ensures billed + Shortfall(minimum, billed) == if billed >= minimum then billed else minimum
  {
  }

  /** Aggregation merges duplicate rows of a client into one, so the raw
      rows never count fewer active selected clients than the aggregated
      ones. */
  lemma {:induction false} AggregateActiveSelected(rows: seq<UsageRow>, selected: seq<string>)
    ensures ActiveSelected(Aggregate(rows), selected) <= ActiveSelected(rows, selected)
  {
    if rows != [] {
      var init, r := rows[..|rows| - 1], rows[|rows| - 1];
      AggregateActiveSelected(init, selected);
      var acc := Aggregate(init);
      var j := IndexOf(acc, r.clientCode);
      if j.Some? {
        ActiveSelectedUpdate(acc, j.value, Merge(acc[j.value], r), selected);
      } else {
        assert (acc + [r])[..|acc|] == acc;
      }
    }
  }

  lemma {:induction false} ActiveSelectedUpdate(s: seq<UsageRow>, j: nat, x: UsageRow, selected: seq<string>)
    requires j < |s| && x.clientCode == s[j].clientCode
    ensures ActiveSelected(s[j := x], selected) <= ActiveSelected(s, selected) + (if x.clientCode in selected && x.isPayGroupActive then 1 else 0)
    ensures ActiveSelected(s[j := x], selected) + (if s[j].clientCode in selected && s[j].isPayGroupActive then 1 else 0) ==
            ActiveSelected(s, selected) + (if x.clientCode in selected && x.isPayGroupActive then 1 else 0)
  {
    if j < |s| - 1 {
      assert s[j := x][..|s| - 1] == s[..|s| - 1][j := x];
      ActiveSelectedUpdate(s[..|s| - 1], j, x, selected);
    } else {
      assert s[j := x][..|s| - 1] == s[..|s| - 1];
    }
  }

  /** Because the shortfall reads the raw rows, a client with several
      active rows lowers it by more than the one base fee its single
      monthly line carries: the minimum line computed from the raw rows is
      never larger than one computed from the aggregated rows. */
  lemma RawShortfallAtMostAggregated(rows: seq<UsageRow>, selected: seq<string>, base: int, minimum: int)
    requires base >= 0
    ensures Shortfall(minimum, BaseFeesBilled(rows, selected, base)) <=
            Shortfall(minimum, BaseFeesBilled(Aggregate(rows), selected, base))
  {
    AggregateActiveSelected(rows, selected);
    var a, b := ActiveSelected(Aggregate(rows), selected), ActiveSelected(rows, selected);
    assert base * a <= base * b by {
      MultiplyMonotone(base, a, b);
    }
  }

  lemma MultiplyMonotone(k: int, a: int, b: int)
    requires k >= 0 && a <= b
    ensures k * a <= k * b
  {
  }

  /** The minimum-fee line: present whenever a minimum is configured, even
      when the shortfall is 0. */
  function MinimumLines(minimum: Option<ConfigLine>, base: Option<ConfigLine>, rows: seq<UsageRow>,
                        selected: seq<string>, partner: Partner): (r: seq<RecurringFee>)
    ensures |r| == if minimum.Some? then 1 else 0
    ensures minimum.Some? ==>
              r[0].clientName == "Monthly Minimum Fee" &&
              r[0].overrideReason == Some("Monthly minimum fee adjustment") &&
              r[0].billingFrequency == Some("monthly") &&
              r[0].originalAmount == minimum.value.amount &&
              r[0].partnerBillingId == Some(minimum.value.id) &&
              r[0].invoicedAmount == Some(Shortfall(OrZero(minimum.value.amount),
                                                    BaseAmount(base) * ActiveSelected(rows, selected)))
  {
    if minimum.None? then []
    else
      var m := minimum.value;
      var shortfall := Shortfall(OrZero(m.amount), BaseFeesBilled(rows, selected, BaseAmount(base)));
      [RecurringFee(Some(m.id), partner.id, partner.code, "Monthly Minimum Fee", m.itemName,
                    OrText(m.itemCode, ""), m.id, m.amount, Some(shortfall),
                    Some("Monthly minimum fee adjustment"), Some("monthly"))]
  }

  // ---- recurring and one-time lines ----

  /** `recurringPartnerBilling.find(pb => pb.billing_source === 'partner_billing'
      && pb.billing_item_id === item.billing_item_id)?.id`. */
  /** A partner-level recurring line for the billing item. */
  predicate IsPartnerLineFor(l: RecurringLine, billingItemId: int)
  {
    l.source == PartnerBilling && l.billingItemId == billingItemId
  }

  function PartnerBillingIdFor(all: seq<RecurringLine>, billingItemId: int): (r: Option<int>)
    // `find` stops at the first partner-level line for the item and yields its id
    ensures (exists k :: 0 <= k < |all| && IsPartnerLineFor(all[k], billingItemId)) ==>
              exists k :: 0 <= k < |all| && IsPartnerLineFor(all[k], billingItemId) &&
                (forall j :: 0 <= j < k ==> !IsPartnerLineFor(all[j], billingItemId)) &&
                r == all[k].id
    // no such line: `undefined?.id` is undefined
    ensures (forall l :: l in all ==> !IsPartnerLineFor(l, billingItemId)) ==> r.None?
  {
    if all == [] then None
    else if IsPartnerLineFor(all[0], billingItemId) then
      all[0].id
    else
      var rest := PartnerBillingIdFor(all[1..], billingItemId);
      assert (exists k :: 0 <= k < |all| && IsPartnerLineFor(all[k], billingItemId)) ==>
               exists k :: 0 <= k < |all[1..]| && IsPartnerLineFor(all[1..][k], billingItemId) by {
        if exists k :: 0 <= k < |all| && IsPartnerLineFor(all[k], billingItemId) {
          var k :| 0 <= k < |all| && IsPartnerLineFor(all[k], billingItemId);
          assert all[1..][k - 1] == all[k];
        }
      }
      assert (exists k :: 0 <= k < |all[1..]| && IsPartnerLineFor(all[1..][k], billingItemId)) ==>
               exists k :: 0 <= k < |all| && IsPartnerLineFor(all[k], billingItemId) &&
                 (forall j :: 0 <= j < k ==> !IsPartnerLineFor(all[j], billingItemId)) &&
                 rest == all[k].id by {
        if exists k :: 0 <= k < |all[1..]| && IsPartnerLineFor(all[1..][k], billingItemId) {
          var k :| 0 <= k < |all[1..]| && IsPartnerLineFor(all[1..][k], billingItemId) &&
                   (forall j :: 0 <= j < k ==> !IsPartnerLineFor(all[1..][j], billingItemId)) &&
                   rest == all[1..][k].id;
          assert forall j :: 0 <= j < k + 1 ==> !IsPartnerLineFor(all[j], billingItemId) by {
            forall j | 0 <= j < k + 1 ensures !IsPartnerLineFor(all[j], billingItemId) {
              if j > 0 { assert all[j] == all[1..][j - 1]; }
            }
          }
          assert all[k + 1] == all[1..][k];
        }
      }
      rest
  }

  /** `selectedRecurringItems.includes(item.id)`: the filter compares with
      the line's own id, not with the checkbox key. */
  predicate RecurringSelected(sel: seq<RecurringKey>, item: RecurringLine)
  {
    item.id.Some? && ById(item.id.value) in sel
  }

  /** A line without a truthy id is recorded under its position, which the
      submit filter never looks for: ticking it puts nothing on the invoice. */
  lemma PositionKeyNeverSubmitted(item: RecurringLine, index: nat)
    requires item.id.None? || item.id == Some(0)
    ensures RecurringKeyOf(item.id, index) == ByPosition(index)
    ensures !RecurringSelected(Toggle([], RecurringKeyOf(item.id, index)), item)
  {
  }

  datatype Overrides = Overrides(
    recurring: map<int, Entry>, recurringReasons: map<int, string>,
    oneTime: map<int, Entry>, oneTimeReasons: map<int, string>)

  function RecurringFeeOf(item: RecurringLine, all: seq<RecurringLine>, rows: seq<UsageRow>,
                          partner: Partner, ov: Overrides): (f: RecurringFee)
    requires item.id.Some?
    ensures f.originalAmount == Some(CalculatedAmount(item, rows))
    ensures f.invoicedAmount == Invoiced(ov.recurring, item.id.value, CalculatedAmount(item, rows))
    ensures f.overrideReason == Reason(ov.recurringReasons, item.id.value)
    ensures f.clientName == OrText(item.clientName, "N/A")
  {
    var calculated := CalculatedAmount(item, rows);
    RecurringFee(PartnerBillingIdFor(all, item.billingItemId), partner.id, partner.code,
                 OrText(item.clientName, "N/A"), item.itemName, OrText(item.itemCode, ""), item.billingItemId,
                 Some(calculated), Invoiced(ov.recurring, item.id.value, calculated),
                 Reason(ov.recurringReasons, item.id.value), item.billingFrequency)
  }

  /** The recurring lines whose id is ticked, in list order. */
  function SelectedLines(lines: seq<RecurringLine>, sel: seq<RecurringKey>): seq<RecurringLine>
  {
    Filter(lines, (item: RecurringLine) => RecurringSelected(sel, item))
  }

  /** The recurring fee lines: each selected line mapped once, in list order. */
  function RecurringFees(lines: seq<RecurringLine>, all: seq<RecurringLine>, sel: seq<RecurringKey>,
                         rows: seq<UsageRow>, partner: Partner, ov: Overrides): (r: seq<RecurringFee>)
    ensures |r| == |SelectedLines(lines, sel)|
    ensures forall i :: 0 <= i < |r| ==>
              RecurringSelected(sel, SelectedLines(lines, sel)[i]) &&
              r[i] == RecurringFeeOf(SelectedLines(lines, sel)[i], all, rows, partner, ov)
  {
    if lines == [] then []
    else
      var item := lines[|lines| - 1];
      var rest := RecurringFees(lines[..|lines| - 1], all, sel, rows, partner, ov);
      assert SelectedLines(lines, sel) ==
             SelectedLines(lines[..|lines| - 1], sel) + (if RecurringSelected(sel, item) then [item] else []);
      if RecurringSelected(sel, item) then rest + [RecurringFeeOf(item, all, rows, partner, ov)] else rest
  }

  /** A row of the one-time list: the charge joined with its billing item. */
  datatype OfferedCharge = OfferedCharge(charge: OneTimeCharges.Charge, itemName: string, itemCode: Option<string>)

  function OneTimeFeeOf(o: OfferedCharge, partner: Partner, ov: Overrides): (f: OneTimeFee)
    ensures f.addlBillingId == o.charge.id
    ensures f.originalAmount == Some(o.charge.amount)
    ensures f.invoicedAmount == Invoiced(ov.oneTime, o.charge.id, o.charge.amount)
    ensures f.overrideReason == Reason(ov.oneTimeReasons, o.charge.id)
  {
    var c := o.charge;
    OneTimeFee(c.id, partner.id, partner.code, c.clientName, o.itemName, OrText(o.itemCode, ""),
               c.billingItemId, c.billingDate, Some(c.amount), Invoiced(ov.oneTime, c.id, c.amount),
               Reason(ov.oneTimeReasons, c.id))
  }

  /** The offered charges whose id is ticked, in list order. */
  function SelectedCharges(offered: seq<OfferedCharge>, sel: seq<int>): seq<OfferedCharge>
  {
    Filter(offered, (o: OfferedCharge) => o.charge.id in sel)
  }

  /** The one-time fee lines: each selected charge mapped once, in list order. */
  function OneTimeFees(offered: seq<OfferedCharge>, sel: seq<int>, partner: Partner, ov: Overrides): (r: seq<OneTimeFee>)
    ensures |r| == |SelectedCharges(offered, sel)|
    ensures forall i :: 0 <= i < |r| ==> r[i] == OneTimeFeeOf(SelectedCharges(offered, sel)[i], partner, ov)
  {
    if offered == [] then []
    else
      var o := offered[|offered| - 1];
      var rest := OneTimeFees(offered[..|offered| - 1], sel, partner, ov);
      assert SelectedCharges(offered, sel) ==
             SelectedCharges(offered[..|offered| - 1], sel) + (if o.charge.id in sel then [o] else []);
      if o.charge.id in sel then rest + [OneTimeFeeOf(o, partner, ov)] else rest
  }

  /** An overridden amount goes through without any reason: the reason is
      only ever what was typed, or null. */
  lemma OverrideNeedsNoReason(o: OfferedCharge, partner: Partner, t: string, v: Option<int>)
    requires t != ""
    ensures OneTimeFeeOf(o, partner, Overrides(map[], map[], map[o.charge.id := Entry(t, v)], map[])).invoicedAmount == v
    ensures OneTimeFeeOf(o, partner, Overrides(map[], map[], map[o.charge.id := Entry(t, v)], map[])).overrideReason.None?
  {
  }

  // ---- the one-time list the page loads ----

  /** As written: the page asks for the partner's one-time charges without
      passing its start and end dates, so the server compares with NULL. */
  function FetchedChargesAsWritten(db: OneTimeCharges.Db, partnerId: int, startDate: int, endDate: int): (r: seq<OneTimeCharges.Charge>)
    ensures r == []
  {
    OneTimeCharges.NoPeriodOffersNothing(db, partnerId, None, None);
    OneTimeCharges.Eligible(db, partnerId, None, None)
  }

  /** The fetch with the page's dates as `start_date` and `end_date`: the
      partner's charges dated in the period that no live invoice lists. */
  function FetchedCharges(db: OneTimeCharges.Db, partnerId: int, startDate: int, endDate: int): (r: seq<OneTimeCharges.Charge>)
    ensures forall c :: c in r <==>
              c in db.charges && c.partnerId == partnerId && startDate <= c.billingDate <= endDate &&
              !OneTimeCharges.OnLiveInvoice(db, c.id)
  {
    OneTimeCharges.Eligible(db, partnerId, Some(startDate), Some(endDate))
  }

  /** The fetch as written offers nothing even when a billable charge lies
      in the period. */
  lemma FetchAsWrittenMissesBillableCharge(db: OneTimeCharges.Db, c: OneTimeCharges.Charge, startDate: int, endDate: int)
    requires c in db.charges && startDate <= c.billingDate <= endDate && !OneTimeCharges.OnLiveInvoice(db, c.id)
    ensures c in FetchedCharges(db, c.partnerId, startDate, endDate)
    ensures c !in FetchedChargesAsWritten(db, c.partnerId, startDate, endDate)
  {
  }

  // ---- handleGenerateInvoice ----

  datatype Config = Config(
    base: Option<ConfigLine>, perEmployee: Option<PerEmployeeLine>, tiers: seq<Tier>,
    minimum: Option<ConfigLine>, recurring: seq<RecurringLine>)

  datatype Selections = Selections(monthly: seq<string>, recurring: seq<RecurringKey>, oneTime: seq<int>)

  /** Cancelled at the warning prompt, failed (the partner lookup throws),
      or the request that is posted. */
  datatype Outcome = Cancelled | Failed | Submitted(request: InvoiceRequest)

  function FindPartner(partners: seq<Partner>, id: Option<int>): (r: Option<Partner>)
    ensures r.Some? ==> r.value in partners && Some(r.value.id) == id
    ensures r.None? ==> id.None? || forall p :: p in partners ==> p.id != id.value
  {
    if id.None? || partners == [] then None
    else if partners[0].id == id.value then Some(partners[0])
    else FindPartner(partners[1..], id)
  }

  function GenerateInvoice(partners: seq<Partner>, selectedPartner: Option<int>, month: string, today: string,
                           rows: seq<UsageRow>, config: Config, offered: seq<OfferedCharge>,
                           sel: Selections, ov: Overrides, confirmed: bool): (out: Outcome)
    ensures out == Cancelled <==>
              WarningLines(config.recurring, Aggregate(rows)) != [] && !confirmed
    ensures out == Failed <==>
              (WarningLines(config.recurring, Aggregate(rows)) == [] || confirmed) &&
              FindPartner(partners, selectedPartner).None?
    ensures out.Submitted? ==>
              var p := FindPartner(partners, selectedPartner).value;
              var req := out.request;
              req.partnerId == p.id && req.partnerCode == p.code && req.partnerName == p.name &&
              req.invoiceMonth == month && req.invoiceDate == today &&
              req.monthlyFees == MonthlyFees(Aggregate(rows), sel.monthly, BaseAmount(config.base),
                                             config.perEmployee, config.tiers, p) &&
              req.recurringFees == MinimumLines(config.minimum, config.base, rows, sel.monthly, p) +
                                   RecurringFees(config.recurring, config.recurring, sel.recurring, rows, p, ov) &&
              req.oneTimeFees == OneTimeFees(offered, sel.oneTime, p, ov)
  {
    var aggregated := Aggregate(rows);
    if WarningLines(config.recurring, aggregated) != [] && !confirmed then Cancelled
    else
      var found := FindPartner(partners, selectedPartner);
      if found.None? then Failed
      else
        var p := found.value;
        Submitted(InvoiceRequest(
          p.id, p.code, p.name, month, today,
          MonthlyFees(aggregated, sel.monthly, BaseAmount(config.base), config.perEmployee, config.tiers, p),
          MinimumLines(config.minimum, config.base, rows, sel.monthly, p) +
            RecurringFees(config.recurring, config.recurring, sel.recurring, rows, p, ov),
          OneTimeFees(offered, sel.oneTime, p, ov)))
  }

  /** The minimum line leads the recurring lines of every submitted
      invoice, followed by exactly the selected recurring lines, in order. */
  lemma SubmittedRecurringLines(partners: seq<Partner>, selectedPartner: Option<int>, month: string, today: string,
                                rows: seq<UsageRow>, config: Config, offered: seq<OfferedCharge>,
                                sel: Selections, ov: Overrides, confirmed: bool)
    requires GenerateInvoice(partners, selectedPartner, month, today, rows, config, offered, sel, ov, confirmed).Submitted?
    ensures var req := GenerateInvoice(partners, selectedPartner, month, today, rows, config, offered, sel, ov, confirmed).request;
            config.minimum.Some? ==> |req.recurringFees| >= 1 && req.recurringFees[0].clientName == "Monthly Minimum Fee"
    ensures var req := GenerateInvoice(partners, selectedPartner, month, today, rows, config, offered, sel, ov, confirmed).request;
            var k := if config.minimum.Some? then 1 else 0;
            var chosen := SelectedLines(config.recurring, sel.recurring);
            |req.recurringFees| == k + |chosen| &&
            forall i :: 0 <= i < |chosen| ==>
              RecurringSelected(sel.recurring, chosen[i]) &&
              req.recurringFees[k + i] ==
                RecurringFeeOf(chosen[i], config.recurring, rows, FindPartner(partners, selectedPartner).value, ov)
  {
    var p := FindPartner(partners, selectedPartner).value;
    var mins := MinimumLines(config.minimum, config.base, rows, sel.monthly, p);
    var recs := RecurringFees(config.recurring, config.recurring, sel.recurring, rows, p, ov);
    var req := GenerateInvoice(partners, selectedPartner, month, today, rows, config, offered, sel, ov, confirmed).request;
    assert req.recurringFees == mins + recs;
    assert req.recurringFees[|mins|..] == recs;
    LinesAfter(req.recurringFees, |mins|, config.recurring, config.recurring, sel.recurring, rows, p, ov);
  }

  /** Lines that end in the recurring fee lines hold, from position `k` on,
      exactly the selected lines mapped in order. */
  lemma LinesAfter(fees: seq<RecurringFee>, k: nat, lines: seq<RecurringLine>, all: seq<RecurringLine>,
                   sel: seq<RecurringKey>, rows: seq<UsageRow>, partner: Partner, ov: Overrides)
    requires k <= |fees| && fees[k..] == RecurringFees(lines, all, sel, rows, partner, ov)
    ensures var chosen := SelectedLines(lines, sel);
            |fees| == k + |chosen| &&
            forall i :: 0 <= i < |chosen| ==>
              RecurringSelected(sel, chosen[i]) && fees[k + i] == RecurringFeeOf(chosen[i], all, rows, partner, ov)
  {
    var chosen := SelectedLines(lines, sel);
    forall i | 0 <= i < |chosen|
      ensures RecurringSelected(sel, chosen[i]) && fees[k + i] == RecurringFeeOf(chosen[i], all, rows, partner, ov)
    {
      assert fees[k + i] == fees[k..][i];
    }
  }
}
