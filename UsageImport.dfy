/**
 * The server side of the monthly usage import (`/upload-billing` in
 * billing-backend/server.js). The posted rows are staged as they are, the
 * main table loses every row of the month of the first staged row, and the
 * staged rows are inserted grouped by (month, client code): counts and
 * amounts summed with null as 0, the active flag OR-ed with null as false,
 * and each text column replaced by its greatest value.
 *
 * Rows are values with a nullable field per column. The main table keeps
 * the unique key (month_year, client_code) that the staging table is
 * stripped of; as in SQL, a key holding a null never collides.
 */
module UsageImport {
  import opened Common

  datatype UsageRecord = UsageRecord(
    monthYear: Option<string>,
    clientCode: Option<string>,
    clientName: Option<string>,
    legalCompanyCode: Option<string>,
    legalName: Option<string>,
    fein: Option<string>,
    stateCode: Option<string>,
    totalEmployeesPaid: Option<int>,
    totalBilling: Option<int>,
    totalOneTimeBilling: Option<int>,
    payGroupName: Option<string>,
    isPayGroupActive: Option<bool>,
    newPayGroupCount: Option<int>,
    livePayrollCount: Option<int>,
    totalActiveEmployees: Option<int>,
    totalChecksAndVouchers: Option<int>)

  /** The GROUP BY key. */
  datatype Key = Key(month: Option<string>, code: Option<string>)

  function KeyOf(r: UsageRecord): Key { Key(r.monthYear, r.clientCode) }

  // ---- text order, as MAX compares text (byte order) ----

  predicate LexLeq(a: string, b: string)
  {
    a == [] || (b != [] && (a[0] < b[0] || (a[0] == b[0] && LexLeq(a[1..], b[1..]))))
  }

  lemma {:induction false} LexTotal(a: string, b: string)
    ensures LexLeq(a, b) || LexLeq(b, a)
  {
    if a != [] && b != [] && a[0] == b[0] {
      LexTotal(a[1..], b[1..]);
    }
  }

  lemma {:induction false} LexTrans(a: string, b: string, c: string)
    requires LexLeq(a, b) && LexLeq(b, c)
    ensures LexLeq(a, c)
  {
    if a != [] && a[0] == b[0] && b[0] == c[0] {
      LexTrans(a[1..], b[1..], c[1..]);
    }
  }

  // ---- the aggregates of one group ----

  /** `SUM(COALESCE(col, 0))` over the rows of group `k`. */
  function SumOf(rows: seq<UsageRecord>, k: Key, col: UsageRecord -> Option<int>): int
  {
    if rows == [] then 0
    else
      var r := rows[|rows| - 1];
      SumOf(rows[..|rows| - 1], k, col) + (if KeyOf(r) == k then OrZero(col(r)) else 0)
  }

  /** `bool_or(COALESCE(is_pay_group_active, false))` over group `k`. */
  function AnyActive(rows: seq<UsageRecord>, k: Key): (b: bool)
    ensures b <==> exists i :: 0 <= i < |rows| && KeyOf(rows[i]) == k && rows[i].isPayGroupActive == Some(true)
  {
    if rows == [] then false
    else
      var r := rows[|rows| - 1];
      var before := AnyActive(rows[..|rows| - 1], k);
      assert forall i :: 0 <= i < |rows| - 1 ==> rows[..|rows| - 1][i] == rows[i];
      before || (KeyOf(r) == k && r.isPayGroupActive == Some(true))
  }

  function MaxText(a: Option<string>, b: Option<string>): Option<string>
  {
    if a.None? then b
    else if b.None? then a
    else if LexLeq(a.value, b.value) then b else a
  }

  /** `MAX(col)` over group `k`, nulls ignored. */
  function MaxOf(rows: seq<UsageRecord>, k: Key, col: UsageRecord -> Option<string>): Option<string>
  {
    if rows == [] then None
    else
      var r := rows[|rows| - 1];
      var before := MaxOf(rows[..|rows| - 1], k, col);
      if KeyOf(r) == k then MaxText(before, col(r)) else before
  }

  /** The maximum is null exactly when every value of the group is null;
      otherwise it is one of the group's values and no value exceeds it. */
  lemma {:induction false} MaxOfMeaning(rows: seq<UsageRecord>, k: Key, col: UsageRecord -> Option<string>)
    ensures var m := MaxOf(rows, k, col);
      && (m.None? <==> forall i :: 0 <= i < |rows| && KeyOf(rows[i]) == k ==> col(rows[i]).None?)
      && (m.Some? ==> exists i :: 0 <= i < |rows| && KeyOf(rows[i]) == k && col(rows[i]) == m)
      && (m.Some? ==> forall i :: 0 <= i < |rows| && KeyOf(rows[i]) == k && col(rows[i]).Some? ==>
            LexLeq(col(rows[i]).value, m.value))
  {
    if rows != [] {
      var init, r := rows[..|rows| - 1], rows[|rows| - 1];
      MaxOfMeaning(init, k, col);
      var before := MaxOf(init, k, col);
      var m := MaxOf(rows, k, col);
      assert forall i :: 0 <= i < |init| ==> init[i] == rows[i];
      if KeyOf(r) == k && col(r).Some? {
        LexReflexive(col(r).value);
        if before.Some? {
          LexTotal(before.value, col(r).value);
          forall i | 0 <= i < |init| && KeyOf(rows[i]) == k && col(rows[i]).Some?
            ensures LexLeq(col(rows[i]).value, m.value)
          {
            if LexLeq(before.value, col(r).value) {
              LexTrans(col(rows[i]).value, before.value, col(r).value);
            }
          }
        }
        assert col(rows[|rows| - 1]) == col(r);
      }
    }
  }

  lemma {:induction false} LexReflexive(a: string)
    ensures LexLeq(a, a)
  {
    if a != [] {
      LexReflexive(a[1..]);
    }
  }

  // column accessors for the aggregates
  function ClientName(r: UsageRecord): Option<string> { r.clientName }
  function LegalCompanyCode(r: UsageRecord): Option<string> { r.legalCompanyCode }
  function LegalName(r: UsageRecord): Option<string> { r.legalName }
  function Fein(r: UsageRecord): Option<string> { r.fein }
  function StateCode(r: UsageRecord): Option<string> { r.stateCode }
  function PayGroupName(r: UsageRecord): Option<string> { r.payGroupName }
  function EmployeesPaid(r: UsageRecord): Option<int> { r.totalEmployeesPaid }
  function Billing(r: UsageRecord): Option<int> { r.totalBilling }
  function OneTimeBilling(r: UsageRecord): Option<int> { r.totalOneTimeBilling }
  function NewPayGroups(r: UsageRecord): Option<int> { r.newPayGroupCount }
  function LivePayrolls(r: UsageRecord): Option<int> { r.livePayrollCount }
  function ActiveEmployees(r: UsageRecord): Option<int> { r.totalActiveEmployees }
  function ChecksAndVouchers(r: UsageRecord): Option<int> { r.totalChecksAndVouchers }

  /** The row the SELECT produces for group `k`. */
  function Group(rows: seq<UsageRecord>, k: Key): (g: UsageRecord)
    ensures KeyOf(g) == k
    ensures g.totalActiveEmployees == Some(SumOf(rows, k, ActiveEmployees))
    ensures g.isPayGroupActive == Some(AnyActive(rows, k))
  {
    UsageRecord(
      k.month, k.code,
      MaxOf(rows, k, ClientName), MaxOf(rows, k, LegalCompanyCode), MaxOf(rows, k, LegalName),
      MaxOf(rows, k, Fein), MaxOf(rows, k, StateCode),
      Some(SumOf(rows, k, EmployeesPaid)), Some(SumOf(rows, k, Billing)), Some(SumOf(rows, k, OneTimeBilling)),
      MaxOf(rows, k, PayGroupName), Some(AnyActive(rows, k)),
      Some(SumOf(rows, k, NewPayGroups)), Some(SumOf(rows, k, LivePayrolls)),
      Some(SumOf(rows, k, ActiveEmployees)), Some(SumOf(rows, k, ChecksAndVouchers)))
  }

  function KeysOf(rows: seq<UsageRecord>): (ks: seq<Key>)
    ensures |ks| == |rows| && forall i :: 0 <= i < |rows| ==> ks[i] == KeyOf(rows[i])
  {
    seq(|rows|, i requires 0 <= i < |rows| => KeyOf(rows[i]))
  }

  /** The groups, one per distinct key. SQL leaves the order of a GROUP BY
      open; the model lists them by first occurrence. */
  function Aggregate(rows: seq<UsageRecord>): (agg: seq<UsageRecord>)
    ensures |agg| == |FirstOccurrences(KeysOf(rows))|
    ensures forall i :: 0 <= i < |agg| ==> agg[i] == Group(rows, FirstOccurrences(KeysOf(rows))[i])
  {
    var ks := FirstOccurrences(KeysOf(rows));
    seq(|ks|, i requires 0 <= i < |ks| => Group(rows, ks[i]))
  }

  /** Exactly one aggregated row per (month, client code) of the input,
      and no key the input does not have. */
  lemma AggregateOnePerKey(rows: seq<UsageRecord>)
    ensures Distinct(KeysOf(Aggregate(rows)))
    ensures forall k :: k in KeysOf(Aggregate(rows)) <==> k in KeysOf(rows)
  {
    var ks := FirstOccurrences(KeysOf(rows));
    FirstOccurrencesMembers(KeysOf(rows));
    assert KeysOf(Aggregate(rows)) == ks;
  }

  // ---- sums are preserved ----

  /** The column's total over all rows, null as 0. */
  function Total(rows: seq<UsageRecord>, col: UsageRecord -> Option<int>): int
  {
    if rows == [] then 0 else Total(rows[..|rows| - 1], col) + OrZero(col(rows[|rows| - 1]))
  }

  /** The sum of one column's group sums over a list of keys. */
  function SumOverKeys(rows: seq<UsageRecord>, ks: seq<Key>, col: UsageRecord -> Option<int>): int
  {
    if ks == [] then 0 else SumOverKeys(rows, ks[..|ks| - 1], col) + SumOf(rows, ks[|ks| - 1], col)
  }

  lemma {:induction false} SumOverKeysStep(rows: seq<UsageRecord>, r: UsageRecord, ks: seq<Key>, col: UsageRecord -> Option<int>)
    requires Distinct(ks)
    ensures SumOverKeys(rows + [r], ks, col) ==
            SumOverKeys(rows, ks, col) + (if KeyOf(r) in ks then OrZero(col(r)) else 0)
  {
    if ks != [] {
      var init := ks[..|ks| - 1];
      assert Distinct(init);
      SumOverKeysStep(rows, r, init, col);
      assert (rows + [r])[..|rows + [r]| - 1] == rows;
      assert KeyOf(r) in ks <==> KeyOf(r) in init || KeyOf(r) == ks[|ks| - 1];
      if KeyOf(r) == ks[|ks| - 1] {
        assert KeyOf(r) !in init;
      }
    }
  }

  lemma {:induction false} SumOverAbsentKey(rows: seq<UsageRecord>, k: Key, col: UsageRecord -> Option<int>)
    requires forall i :: 0 <= i < |rows| ==> KeyOf(rows[i]) != k
    ensures SumOf(rows, k, col) == 0
  {
    if rows != [] {
      SumOverAbsentKey(rows[..|rows| - 1], k, col);
    }
  }

  /** Grouping neither loses nor double-counts: a column's total over the
      aggregated rows equals its total over the posted rows. */
  lemma {:induction false} GroupSumsCoverTotal(rows: seq<UsageRecord>, col: UsageRecord -> Option<int>)
    ensures SumOverKeys(rows, FirstOccurrences(KeysOf(rows)), col) == Total(rows, col)
  {
    if rows != [] {
      var init, r := rows[..|rows| - 1], rows[|rows| - 1];
      GroupSumsCoverTotal(init, col);
      var ks0 := FirstOccurrences(KeysOf(init));
      assert KeysOf(rows)[..|rows| - 1] == KeysOf(init);
      assert rows == init + [r];
      FirstOccurrencesMembers(KeysOf(init));
      SumOverKeysStep(init, r, ks0, col);
      if KeyOf(r) !in ks0 {
        NewKeyGroup(init, r, ks0, col);
      }
    }
  }

  /** A key not seen before adds a group holding just the new row. */
  lemma NewKeyGroup(init: seq<UsageRecord>, r: UsageRecord, ks: seq<Key>, col: UsageRecord -> Option<int>)
    requires forall k :: k in ks <==> k in KeysOf(init)
    requires KeyOf(r) !in ks
    ensures SumOverKeys(init + [r], ks + [KeyOf(r)], col) == SumOverKeys(init + [r], ks, col) + OrZero(col(r))
  {
    assert (ks + [KeyOf(r)])[..|ks|] == ks;
    forall i | 0 <= i < |init| ensures KeyOf(init[i]) != KeyOf(r) {
      assert KeysOf(init)[i] in KeysOf(init);
    }
    SumOverAbsentKey(init, KeyOf(r), col);
    assert (init + [r])[..|init|] == init;
  }

  // ---- the import ----

  datatype ImportError = NoBillingData | UniqueViolation

  /** `DELETE ... WHERE month_year = (first staged month)`: a null month
      compares as unknown and deletes nothing. */
  function DeleteMonth(table: seq<UsageRecord>, month: Option<string>): (r: seq<UsageRecord>)
    ensures forall x :: x in r <==> x in table && !(month.Some? && x.monthYear == month)
    ensures |r| <= |table|
  {
    if table == [] then []
    else
      var rest := DeleteMonth(table[..|table| - 1], month);
      var x := table[|table| - 1];
      assert table == table[..|table| - 1] + [x];
      if month.Some? && x.monthYear == month then rest else rest + [x]
  }

  /** Two rows clash on the unique key only when both key columns are
      non-null and equal. */
  predicate Clash(a: UsageRecord, b: UsageRecord)
  {
    a.monthYear.Some? && a.clientCode.Some? && KeyOf(a) == KeyOf(b)
  }

  /** `/upload-billing`: refuse an empty post; otherwise replace the month
      of the first posted row by the grouped rows, all or nothing. */
  function Upload(table: seq<UsageRecord>, posted: seq<UsageRecord>): (r: Result<seq<UsageRecord>, ImportError>)
    ensures r == Err(NoBillingData) <==> posted == []
    ensures r.Ok? <==>
              (posted != [] &&
               !exists x, g :: x in DeleteMonth(table, posted[0].monthYear) && g in Aggregate(posted) && Clash(g, x))
    ensures r.Ok? ==> r.value == DeleteMonth(table, posted[0].monthYear) + Aggregate(posted)
    ensures posted != [] ==>
              (r == Err(UniqueViolation) <==>
                 exists x, g :: x in DeleteMonth(table, posted[0].monthYear) && g in Aggregate(posted) && Clash(g, x))
  {
    if posted == [] then Err(NoBillingData)
    else
      var kept := DeleteMonth(table, posted[0].monthYear);
      var agg := Aggregate(posted);
      if exists x, g :: x in kept && g in agg && Clash(g, x) then Err(UniqueViolation)
      else Ok(kept + agg)
  }

  /** A successful import leaves every row of another month as it was and
      deletes nothing else. */
  lemma UploadKeepsOtherMonths(table: seq<UsageRecord>, posted: seq<UsageRecord>, x: UsageRecord)
    requires Upload(table, posted).Ok? && x in table
    ensures !(posted[0].monthYear.Some? && x.monthYear == posted[0].monthYear) ==> x in Upload(table, posted).value
  {
  }

  /** Posting rows of one month whose keys are already in the table for a
      different month never clashes: only the first row's month is
      replaced, so a clash needs a second month in the same post. */
  lemma SingleMonthNeverClashes(table: seq<UsageRecord>, posted: seq<UsageRecord>)
    requires posted != [] && posted[0].monthYear.Some?
    requires forall i :: 0 <= i < |posted| ==> posted[i].monthYear == posted[0].monthYear
    ensures Upload(table, posted).Ok?
  {
    var m := posted[0].monthYear;
    var kept := DeleteMonth(table, m);
    var agg := Aggregate(posted);
    AggregateOnePerKey(posted);
    forall x, g | x in kept && g in agg ensures !Clash(g, x) {
      var j :| 0 <= j < |agg| && agg[j] == g;
      assert KeysOf(agg)[j] == KeyOf(g);
      assert KeyOf(g) in KeysOf(posted);
      var i :| 0 <= i < |posted| && KeysOf(posted)[i] == KeyOf(g);
      assert g.monthYear == m;
    }
  }

  /** Importing the same single-month file twice gives the same table as
      importing it once. */
  lemma UploadTwiceSameAsOnce(table: seq<UsageRecord>, posted: seq<UsageRecord>)
    requires posted != [] && posted[0].monthYear.Some?
    requires forall i :: 0 <= i < |posted| ==> posted[i].monthYear == posted[0].monthYear
    ensures Upload(table, posted).Ok?
    ensures Upload(Upload(table, posted).value, posted) == Upload(table, posted)
  {
    SingleMonthNeverClashes(table, posted);
    var m := posted[0].monthYear;
    var once := Upload(table, posted).value;
    var kept := DeleteMonth(table, m);
    var agg := Aggregate(posted);
    AggregateOnePerKey(posted);
    forall j | 0 <= j < |agg| ensures agg[j].monthYear == m {
      assert KeysOf(agg)[j] == KeyOf(agg[j]);
      assert KeyOf(agg[j]) in KeysOf(posted);
      var i :| 0 <= i < |posted| && KeysOf(posted)[i] == KeyOf(agg[j]);
    }
    DeleteMonthAppend(kept, agg, m);
    DeleteMonthAgain(table, m);
    SingleMonthNeverClashes(once, posted);
  }

  lemma {:induction false} DeleteMonthAppend(kept: seq<UsageRecord>, added: seq<UsageRecord>, m: Option<string>)
    requires m.Some?
    requires forall j :: 0 <= j < |added| ==> added[j].monthYear == m
    ensures DeleteMonth(kept + added, m) == DeleteMonth(kept, m)
  {
    if added != [] {
      var init := added[..|added| - 1];
      assert (kept + added)[..|kept + added| - 1] == kept + init;
      DeleteMonthAppend(kept, init, m);
    } else {
      assert kept + added == kept;
    }
  }

  lemma {:induction false} DeleteMonthAgain(table: seq<UsageRecord>, m: Option<string>)
    ensures DeleteMonth(DeleteMonth(table, m), m) == DeleteMonth(table, m)
  {
    if table != [] {
      var init := table[..|table| - 1];
      DeleteMonthAgain(init, m);
      var rest := DeleteMonth(init, m);
      var x := table[|table| - 1];
      if !(m.Some? && x.monthYear == m) {
        assert (rest + [x])[..|rest + [x]| - 1] == rest;
      }
    }
  }
}
