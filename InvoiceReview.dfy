/**
 * The invoice review page (src/InvoiceReview.js): the section subtotals
 * and grand total of an invoice's lines, the monthly subtotal shown on the
 * page (active pay groups only, base plus per-employee fee), and whether
 * the invoice can be finalized.
 *
 * The page's sections read line arrays on the invoice object
 * (`invoice.monthly_fees` and the others) that no server route returns, so
 * as written they are always empty; the section formulas are modelled on
 * the lines they would be given.
 *
 * Amounts are cents. A line amount arrives from the database as a numeric
 * string or null; `parseFloat(x || 0)` makes a null or missing amount 0,
 * which `Option<int>` and `OrZero` say here. With whole cents every sum is
 * exact, so rounding to two decimals changes nothing.
 */
module InvoiceReview {
  import opened Common
  import InvoiceStore

  datatype MonthlyLine = MonthlyLine(
    clientName: string, isPayGroupActive: bool,
    baseFeeAmount: Option<int>, perEmployeeFeeAmount: Option<int>, totalMonthlyFee: Option<int>)

  /** A recurring or one-time line. */
  datatype FeeLine = FeeLine(itemName: string, originalAmount: Option<int>, invoicedAmount: Option<int>)

  datatype Subtotals = Subtotals(
    monthlyBaseFeeTotal: int, monthlyPerEmployeeFeeTotal: int, monthlyTotal: int,
    recurringTotal: int, oneTimeTotal: int, grandTotal: int)

  function BaseFees(ms: seq<MonthlyLine>): int
  {
    if ms == [] then 0 else BaseFees(ms[..|ms| - 1]) + OrZero(ms[|ms| - 1].baseFeeAmount)
  }

  function PerEmployeeFees(ms: seq<MonthlyLine>): int
  {
    if ms == [] then 0 else PerEmployeeFees(ms[..|ms| - 1]) + OrZero(ms[|ms| - 1].perEmployeeFeeAmount)
  }

  function MonthlyTotals(ms: seq<MonthlyLine>): int
  {
    if ms == [] then 0 else MonthlyTotals(ms[..|ms| - 1]) + OrZero(ms[|ms| - 1].totalMonthlyFee)
  }

  /** The sum of invoiced (not original) amounts. */
  function Invoiced(ls: seq<FeeLine>): int
  {
    if ls == [] then 0 else Invoiced(ls[..|ls| - 1]) + OrZero(ls[|ls| - 1].invoicedAmount)
  }

  /** `calculateSubtotals`: the grand total is the monthly, recurring and
      one-time totals added, and each total sums its own column. */
  function CalculateSubtotals(monthly: seq<MonthlyLine>, recurring: seq<FeeLine>, oneTime: seq<FeeLine>): (t: Subtotals)
    ensures t.grandTotal == t.monthlyTotal + t.recurringTotal + t.oneTimeTotal
    ensures t.monthlyTotal == MonthlyTotals(monthly) && t.recurringTotal == Invoiced(recurring) &&
            t.oneTimeTotal == Invoiced(oneTime)
    ensures t.monthlyBaseFeeTotal == BaseFees(monthly) && t.monthlyPerEmployeeFeeTotal == PerEmployeeFees(monthly)
  {
    var m := MonthlyTotals(monthly);
    var r := Invoiced(recurring);
    var o := Invoiced(oneTime);
    Subtotals(BaseFees(monthly), PerEmployeeFees(monthly), m, r, o, m + r + o)
  }

  /** A line without amounts adds nothing to any subtotal. */
  lemma {:induction false} EmptyLinesAddNothing(monthly: seq<MonthlyLine>, recurring: seq<FeeLine>, oneTime: seq<FeeLine>,
                                                name: string)
    ensures var blank := MonthlyLine(name, true, None, None, None);
      CalculateSubtotals(monthly + [blank], recurring + [FeeLine(name, None, None)], oneTime) ==
      CalculateSubtotals(monthly, recurring, oneTime)
  {
    var blank := MonthlyLine(name, true, None, None, None);
    assert (monthly + [blank])[..|monthly|] == monthly;
    assert (recurring + [FeeLine(name, None, None)])[..|recurring|] == recurring;
  }

  /** Overriding a line's invoiced amount moves the totals by the change,
      whatever its original amount. */
  lemma {:induction false} InvoicedNotOriginal(ls: seq<FeeLine>, i: nat, original: Option<int>, invoiced: Option<int>)
    requires i < |ls|
    ensures Invoiced(ls[i := FeeLine(ls[i].itemName, original, invoiced)]) ==
            Invoiced(ls) - OrZero(ls[i].invoicedAmount) + OrZero(invoiced)
  {
    var last := |ls| - 1;
    var ls' := ls[i := FeeLine(ls[i].itemName, original, invoiced)];
    if i < last {
      assert ls'[..last] == ls[..last][i := FeeLine(ls[i].itemName, original, invoiced)];
      InvoicedNotOriginal(ls[..last], i, original, invoiced);
    } else {
      assert ls'[..last] == ls[..last];
    }
  }

  // ---- the monthly section as displayed ----

  /** `filter(fee => fee.is_pay_group_active)`. */
  function Active(ms: seq<MonthlyLine>): (r: seq<MonthlyLine>)
    ensures forall l :: l in r <==> l in ms && l.isPayGroupActive
    ensures |r| <= |ms|
  {
    if ms == [] then []
    else
      var init := ms[..|ms| - 1];
      var l := ms[|ms| - 1];
      assert ms == init + [l];
      if l.isPayGroupActive then Active(init) + [l] else Active(init)
  }

  /** A displayed row's total: base fee plus per-employee fee. */
  function RowTotal(l: MonthlyLine): int
  {
    OrZero(l.baseFeeAmount) + OrZero(l.perEmployeeFeeAmount)
  }

  /** The subtotal under the monthly table. */
  function DisplayedMonthlySubtotal(ms: seq<MonthlyLine>): int
  {
    var act := Active(ms);
    ActiveSum(act)
  }

  function ActiveSum(ls: seq<MonthlyLine>): int
  {
    if ls == [] then 0 else ActiveSum(ls[..|ls| - 1]) + RowTotal(ls[|ls| - 1])
  }

  /** The displayed subtotal is the base fees plus the per-employee fees of
      the active rows, and inactive rows add nothing to it. */
  lemma {:induction false} DisplayedSubtotalSplits(ms: seq<MonthlyLine>)
    ensures DisplayedMonthlySubtotal(ms) == BaseFees(Active(ms)) + PerEmployeeFees(Active(ms))
  {
    ActiveSumSplits(Active(ms));
  }

  lemma {:induction false} ActiveSumSplits(ls: seq<MonthlyLine>)
    ensures ActiveSum(ls) == BaseFees(ls) + PerEmployeeFees(ls)
  {
    if ls != [] {
      ActiveSumSplits(ls[..|ls| - 1]);
    }
  }

  lemma {:induction false} InactiveRowHidden(ms: seq<MonthlyLine>, l: MonthlyLine)
    requires !l.isPayGroupActive
    ensures DisplayedMonthlySubtotal(ms + [l]) == DisplayedMonthlySubtotal(ms)
  {
    assert (ms + [l])[..|ms|] == ms;
  }

  /** On lines whose stored total is the per-employee fee (as the invoice
      generator stores them), the monthly section's subtotal formula exceeds
      the active rows' share of the monthly total by exactly their base
      fees. */
  lemma {:induction false} DisplayedSubtotalAddsBaseFees(ms: seq<MonthlyLine>)
    requires forall l :: l in ms ==> OrZero(l.totalMonthlyFee) == OrZero(l.perEmployeeFeeAmount)
    ensures DisplayedMonthlySubtotal(ms) == MonthlyTotals(Active(ms)) + BaseFees(Active(ms))
  {
    DisplayedSubtotalSplits(ms);
    TotalsArePerEmployee(Active(ms));
  }

  lemma {:induction false} TotalsArePerEmployee(ls: seq<MonthlyLine>)
    requires forall l :: l in ls ==> OrZero(l.totalMonthlyFee) == OrZero(l.perEmployeeFeeAmount)
    ensures MonthlyTotals(ls) == PerEmployeeFees(ls)
  {
    if ls != [] {
      assert ls[|ls| - 1] in ls;
      TotalsArePerEmployee(ls[..|ls| - 1]);
    }
  }

  // ---- finalizing ----

  /** The Finalize button is disabled unless the invoice is a draft. */
  function FinalizeEnabled(status: string): (b: bool)
  {
    status == "draft"
  }

  /** Of the statuses the server accepts, only a draft can be finalized. */
  lemma FinalizeOnlyDrafts(status: string)
    requires InvoiceStore.AllowedStatus(status)
    ensures FinalizeEnabled(status) <==> status != "final" && status != "void"
  {
  }

  // ---- agreement with the server's totals ----

  function MonthlyLineOf(r: InvoiceStore.MonthlyRow): MonthlyLine
  {
    MonthlyLine(r.clientName, r.isPayGroupActive, Some(r.baseFeeAmount), Some(r.perEmployeeFeeAmount), Some(r.totalMonthlyFee))
  }

  function RecurringLineOf(r: InvoiceStore.RecurringRow): FeeLine
  {
    FeeLine(r.itemName, Some(r.originalAmount), Some(r.invoicedAmount))
  }

  function OneTimeLineOf(r: InvoiceStore.OneTimeRow): FeeLine
  {
    FeeLine(r.itemName, Some(r.originalAmount), Some(r.invoicedAmount))
  }

  /** The monthly lines of invoice `id`, as `/api/invoice/:id/monthly`
      lists them. */
  function MonthlyLinesOf(rows: seq<InvoiceStore.MonthlyRow>, id: int): seq<MonthlyLine>
  {
    if rows == [] then []
    else
      var r := rows[|rows| - 1];
      MonthlyLinesOf(rows[..|rows| - 1], id) + (if r.invoiceId == id then [MonthlyLineOf(r)] else [])
  }

  function RecurringLinesOf(rows: seq<InvoiceStore.RecurringRow>, id: int): seq<FeeLine>
  {
    if rows == [] then []
    else
      var r := rows[|rows| - 1];
      RecurringLinesOf(rows[..|rows| - 1], id) + (if r.invoiceId == id then [RecurringLineOf(r)] else [])
  }

  function OneTimeLinesOf(rows: seq<InvoiceStore.OneTimeRow>, id: int): seq<FeeLine>
  {
    if rows == [] then []
    else
      var r := rows[|rows| - 1];
      OneTimeLinesOf(rows[..|rows| - 1], id) + (if r.invoiceId == id then [OneTimeLineOf(r)] else [])
  }

  lemma {:induction false} MonthlyLinesSum(rows: seq<InvoiceStore.MonthlyRow>, id: int)
    ensures MonthlyTotals(MonthlyLinesOf(rows, id)) ==
            InvoiceStore.SumFor(rows, InvoiceStore.MonthlyTotal, InvoiceStore.MonthlyInvoice, id)
  {
    if rows != [] {
      var init := MonthlyLinesOf(rows[..|rows| - 1], id);
      MonthlyLinesSum(rows[..|rows| - 1], id);
      var r := rows[|rows| - 1];
      if r.invoiceId == id {
        assert (init + [MonthlyLineOf(r)])[..|init|] == init;
      } else {
        assert init + [] == init;
      }
    }
  }

  lemma {:induction false} RecurringLinesSum(rows: seq<InvoiceStore.RecurringRow>, id: int)
    ensures Invoiced(RecurringLinesOf(rows, id)) ==
            InvoiceStore.SumFor(rows, InvoiceStore.RecurringInvoiced, InvoiceStore.RecurringInvoice, id)
  {
    if rows != [] {
      var init := RecurringLinesOf(rows[..|rows| - 1], id);
      RecurringLinesSum(rows[..|rows| - 1], id);
      var r := rows[|rows| - 1];
      if r.invoiceId == id {
        assert (init + [RecurringLineOf(r)])[..|init|] == init;
      } else {
        assert init + [] == init;
      }
    }
  }

  lemma {:induction false} OneTimeLinesSum(rows: seq<InvoiceStore.OneTimeRow>, id: int)
    ensures Invoiced(OneTimeLinesOf(rows, id)) ==
            InvoiceStore.SumFor(rows, InvoiceStore.OneTimeInvoiced, InvoiceStore.OneTimeInvoice, id)
  {
    if rows != [] {
      var init := OneTimeLinesOf(rows[..|rows| - 1], id);
      OneTimeLinesSum(rows[..|rows| - 1], id);
      var r := rows[|rows| - 1];
      if r.invoiceId == id {
        assert (init + [OneTimeLineOf(r)])[..|init|] == init;
      } else {
        assert init + [] == init;
      }
    }
  }

  /** On an invoice's own stored lines, the page's subtotals and grand
      total are the server's totals for that invoice. The page computes
      this grand total but never displays it: the total it shows is the
      master row's `total_amount`. */
  lemma ReviewAgreesWithServer(masters: seq<InvoiceStore.Master>, monthly: seq<InvoiceStore.MonthlyRow>,
                               recurring: seq<InvoiceStore.RecurringRow>, oneTime: seq<InvoiceStore.OneTimeRow>, id: int)
    requires InvoiceStore.InvoiceTotals(masters, monthly, recurring, oneTime, id).Some?
    ensures var t := InvoiceStore.InvoiceTotals(masters, monthly, recurring, oneTime, id).value;
      var s := CalculateSubtotals(MonthlyLinesOf(monthly, id), RecurringLinesOf(recurring, id), OneTimeLinesOf(oneTime, id));
      s.monthlyTotal == t.monthlyTotal && s.recurringTotal == t.recurringTotal &&
      s.oneTimeTotal == t.oneTimeTotal && s.grandTotal == t.grandTotal
  {
    MonthlyLinesSum(monthly, id);
    RecurringLinesSum(recurring, id);
    OneTimeLinesSum(oneTime, id);
  }
}
