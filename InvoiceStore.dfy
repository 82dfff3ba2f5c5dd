/**
 * The invoice tables of billing-backend/server.js: `/api/generate-invoice`
 * stores a master row (always as a draft) and one row per submitted line,
 * filling missing values with defaults; `/api/invoice/:id` reports the
 * subtotals and grand total of an invoice; `/api/invoice/:id/status` sets
 * the status after checking it against a whitelist.
 *
 * The store is a class whose tables are sequences the handlers extend in
 * place. Invoice ids come from a counter, as a serial column does; the
 * invoice number's time stamp is a parameter.
 */
module InvoiceStore {
  import opened Common
  import opened InvoiceDraft

  datatype Master = Master(
    id: int, invoiceNumber: string, partnerId: int, partnerCode: string, partnerName: string,
    invoiceDate: string, invoiceMonth: string, status: string)

  datatype MonthlyRow = MonthlyRow(
    invoiceId: int, clientCode: string, clientName: string, isPayGroupActive: bool,
    totalActiveEmployees: int, baseFeeAmount: int, perEmployeeFeeAmount: int, totalMonthlyFee: int,
    partnerId: int, partnerCode: string)

  datatype RecurringRow = RecurringRow(
    invoiceId: int, partnerBillingId: Option<int>, partnerId: int, partnerCode: string,
    clientName: string, itemName: string, itemCode: string, billingItemId: int,
    originalAmount: int, invoicedAmount: int, overrideReason: Option<string>, billingFrequency: string)

  datatype OneTimeRow = OneTimeRow(
    invoiceId: int, addlBillingId: Option<int>, partnerId: int, partnerCode: string,
    clientName: Option<string>, itemName: string, itemCode: string, billingItemId: int,
    billingDate: int, originalAmount: int, invoicedAmount: int, overrideReason: Option<string>)

  /** `x || null` on an id: 0 is falsy too. */
  function IdOrNull(x: Option<int>): (r: Option<int>)
    ensures r.Some? <==> x.Some? && x.value != 0
    ensures r.Some? ==> r == x
  {
    if x.Some? && x.value != 0 then x else None
  }

  // ---- the line rows, with the handler's defaults ----

  /** The monthly row as it should be bound: ten values for ten columns. */
  function MonthlyRowOf(id: int, f: MonthlyFee): (r: MonthlyRow)
    ensures r.invoiceId == id && r.clientCode == f.clientCode
    ensures r.totalMonthlyFee == f.totalMonthlyFee && r.baseFeeAmount == f.baseFeeAmount
  {
    MonthlyRow(id, f.clientCode, f.clientName, f.isPayGroupActive, f.totalActiveEmployees,
               f.baseFeeAmount, f.perEmployeeFeeAmount, f.totalMonthlyFee, f.partnerId, f.partnerCode)
  }

  /** A stored recurring row never holds a null amount, an empty reason, an
      empty client name or an empty frequency. */
  function RecurringRowOf(id: int, f: RecurringFee): (r: RecurringRow)
    ensures r.invoiceId == id && r.billingItemId == f.billingItemId
    ensures r.originalAmount == OrZero(f.originalAmount) && r.invoicedAmount == OrZero(f.invoicedAmount)
    ensures r.overrideReason != Some("") && r.clientName != "" && r.billingFrequency != ""
    ensures r.partnerBillingId.Some? ==> r.partnerBillingId == f.partnerBillingId
    ensures f.billingFrequency.None? ==> r.billingFrequency == "monthly"
  {
    RecurringRow(id, IdOrNull(f.partnerBillingId), f.partnerId, f.partnerCode,
                 OrText(Some(f.clientName), "N/A"), f.itemName, OrText(Some(f.itemCode), ""), f.billingItemId,
                 OrZero(f.originalAmount), OrZero(f.invoicedAmount), NonEmpty(f.overrideReason),
                 OrText(f.billingFrequency, "monthly"))
  }

  function OneTimeRowOf(id: int, f: OneTimeFee): (r: OneTimeRow)
    ensures r.invoiceId == id && r.billingItemId == f.billingItemId
    ensures r.originalAmount == OrZero(f.originalAmount) && r.invoicedAmount == OrZero(f.invoicedAmount)
    ensures r.overrideReason != Some("")
    ensures r.addlBillingId.Some? ==> r.addlBillingId == Some(f.addlBillingId)
  {
    OneTimeRow(id, IdOrNull(Some(f.addlBillingId)), f.partnerId, f.partnerCode, f.clientName, f.itemName,
               OrText(Some(f.itemCode), ""), f.billingItemId, f.billingDate,
               OrZero(f.originalAmount), OrZero(f.invoicedAmount), NonEmpty(f.overrideReason))
  }

  function MonthlyRows(id: int, fs: seq<MonthlyFee>): (rs: seq<MonthlyRow>)
    ensures |rs| == |fs| && forall i :: 0 <= i < |fs| ==> rs[i] == MonthlyRowOf(id, fs[i])
    ensures forall r :: r in rs ==> r.invoiceId == id
  {
    seq(|fs|, i requires 0 <= i < |fs| => MonthlyRowOf(id, fs[i]))
  }

  function RecurringRows(id: int, fs: seq<RecurringFee>): (rs: seq<RecurringRow>)
    ensures |rs| == |fs| && forall i :: 0 <= i < |fs| ==> rs[i] == RecurringRowOf(id, fs[i])
    ensures forall r :: r in rs ==> r.invoiceId == id
  {
    seq(|fs|, i requires 0 <= i < |fs| => RecurringRowOf(id, fs[i]))
  }

  function OneTimeRows(id: int, fs: seq<OneTimeFee>): (rs: seq<OneTimeRow>)
    ensures |rs| == |fs| && forall i :: 0 <= i < |fs| ==> rs[i] == OneTimeRowOf(id, fs[i])
    ensures forall r :: r in rs ==> r.invoiceId == id
  {
    seq(|fs|, i requires 0 <= i < |fs| => OneTimeRowOf(id, fs[i]))
  }

  // ---- the monthly INSERT as written ----

  /** A statement whose bind supplies a different number of values than it
      has placeholders is refused by the database. */
  function Bind(placeholders: nat, values: nat): (r: Result<(), string>)
    ensures r.Ok? <==> placeholders == values
  {
    if placeholders == values then Ok(()) else Err("bind message supplies a different number of parameters")
  }

  /** The monthly INSERT binds ten values; it succeeds only when the
      statement has as many placeholders. */
  function MonthlyInsert(placeholders: nat, id: int, f: MonthlyFee): (r: Result<MonthlyRow, string>)
    ensures r.Ok? <==> placeholders == 10
    ensures r.Ok? ==> r.value == MonthlyRowOf(id, f)
  {
    var b := Bind(placeholders, 10);
    if b.Ok? then Ok(MonthlyRowOf(id, f)) else Err(b.error)
  }

  /** As written the statement has only the placeholders $1 to $9. */
  const MonthlyPlaceholdersAsWritten: nat := 9

  /** The corrected statement, with $10 for `partner_code`. */
  const MonthlyPlaceholders: nat := 10

  /** The handler as written, up to its monthly lines: the first monthly
      insert throws and the transaction is rolled back. */
  function GenerateAsWritten(id: int, req: InvoiceRequest): (r: Result<seq<MonthlyRow>, string>)
  {
    if req.monthlyFees == [] then Ok([])
    else
      var first := MonthlyInsert(MonthlyPlaceholdersAsWritten, id, req.monthlyFees[0]);
      if first.Err? then Err(first.error) else Ok(MonthlyRows(id, req.monthlyFees))
  }

  /** Every invoice that has a monthly line fails to generate as written. */
  lemma AsWrittenRejectsMonthlyLines(id: int, req: InvoiceRequest)
    ensures GenerateAsWritten(id, req).Err? <==> req.monthlyFees != []
  {
  }

  /** `INV-${partner_code}-${invoice_month}-${Date.now()}`. */
  function InvoiceNumber(partnerCode: string, month: string, stamp: string): (n: string)
    ensures |n| == 6 + |partnerCode| + |month| + |stamp|
    ensures n[..4] == "INV-" && n[4..4 + |partnerCode|] == partnerCode
    ensures n[4 + |partnerCode|] == '-' && n[5 + |partnerCode|..5 + |partnerCode| + |month|] == month
    ensures n[5 + |partnerCode| + |month|] == '-' && n[6 + |partnerCode| + |month|..] == stamp
  {
    "INV-" + partnerCode + "-" + month + "-" + stamp
  }

  /** When neither the partner code nor the time stamp contains a dash (the
      stamp is the digits of `Date.now()`), the number determines all three
      parts, dashed months such as `2024-01` included: numbers built from
      different parts differ. */
  lemma InvoiceNumberDetermines(c1: string, m1: string, s1: string, c2: string, m2: string, s2: string)
    requires '-' !in c1 && '-' !in s1 && '-' !in c2 && '-' !in s2
    requires InvoiceNumber(c1, m1, s1) == InvoiceNumber(c2, m2, s2)
    ensures c1 == c2 && m1 == m2 && s1 == s2
  {
    if |c1| < |c2| {
      assert false;
    }
    if |c2| < |c1| {
      assert false;
    }
    if |s1| < |s2| {
      assert false;
    }
    if |s2| < |s1| {
      assert false;
    }
    assert c1 == c2;
  }

  // ---- totals ----

  /** The sum of `amount` over the rows whose `owner` is `id`
      (`COALESCE(SUM(..), 0) ... WHERE invoice_id = ..`). */
  function SumFor<T>(rows: seq<T>, amount: T -> int, owner: T -> int, id: int): int
  {
    if rows == [] then 0
    else SumFor(rows[..|rows| - 1], amount, owner, id) + (if owner(rows[|rows| - 1]) == id then amount(rows[|rows| - 1]) else 0)
  }

  lemma {:induction false} SumForAppend<T>(xs: seq<T>, ys: seq<T>, amount: T -> int, owner: T -> int, id: int)
    ensures SumFor(xs + ys, amount, owner, id) == SumFor(xs, amount, owner, id) + SumFor(ys, amount, owner, id)
  {
    if ys != [] {
      assert (xs + ys)[..|xs + ys| - 1] == xs + ys[..|ys| - 1];
      SumForAppend(xs, ys[..|ys| - 1], amount, owner, id);
    } else {
      assert xs + ys == xs;
    }
  }

  lemma {:induction false} SumForNone<T>(rows: seq<T>, amount: T -> int, owner: T -> int, id: int)
    requires forall i :: 0 <= i < |rows| ==> owner(rows[i]) != id
    ensures SumFor(rows, amount, owner, id) == 0
  {
    if rows != [] {
      SumForNone(rows[..|rows| - 1], amount, owner, id);
    }
  }

  function MonthlyInvoice(r: MonthlyRow): int { r.invoiceId }
  function RecurringInvoice(r: RecurringRow): int { r.invoiceId }
  function OneTimeInvoice(r: OneTimeRow): int { r.invoiceId }
  function MonthlyTotal(r: MonthlyRow): int { r.totalMonthlyFee }
  function RecurringInvoiced(r: RecurringRow): int { r.invoicedAmount }
  function OneTimeInvoiced(r: OneTimeRow): int { r.invoicedAmount }

  datatype Totals = Totals(monthlyTotal: int, recurringTotal: int, oneTimeTotal: int, grandTotal: int)

  /** The totals query: `None` when no master row has the id (404). */
  function InvoiceTotals(masters: seq<Master>, monthly: seq<MonthlyRow>, recurring: seq<RecurringRow>,
                         oneTime: seq<OneTimeRow>, id: int): (r: Option<Totals>)
    ensures r.None? <==> forall m :: m in masters ==> m.id != id
    ensures r.Some? ==> r.value.grandTotal == r.value.monthlyTotal + r.value.recurringTotal + r.value.oneTimeTotal
    ensures r.Some? ==> r.value.monthlyTotal == SumFor(monthly, MonthlyTotal, MonthlyInvoice, id)
    ensures r.Some? ==> r.value.recurringTotal == SumFor(recurring, RecurringInvoiced, RecurringInvoice, id)
    ensures r.Some? ==> r.value.oneTimeTotal == SumFor(oneTime, OneTimeInvoiced, OneTimeInvoice, id)
  {
    if forall m :: m in masters ==> m.id != id then None
    else
      var m := SumFor(monthly, MonthlyTotal, MonthlyInvoice, id);
      var rc := SumFor(recurring, RecurringInvoiced, RecurringInvoice, id);
      var o := SumFor(oneTime, OneTimeInvoiced, OneTimeInvoice, id);
      Some(Totals(m, rc, o, m + rc + o))
  }

  function MonthlyFeesTotal(fs: seq<MonthlyFee>): int
  {
    if fs == [] then 0 else MonthlyFeesTotal(fs[..|fs| - 1]) + fs[|fs| - 1].totalMonthlyFee
  }

  function RecurringFeesTotal(fs: seq<RecurringFee>): int
  {
    if fs == [] then 0 else RecurringFeesTotal(fs[..|fs| - 1]) + OrZero(fs[|fs| - 1].invoicedAmount)
  }

  function OneTimeFeesTotal(fs: seq<OneTimeFee>): int
  {
    if fs == [] then 0 else OneTimeFeesTotal(fs[..|fs| - 1]) + OrZero(fs[|fs| - 1].invoicedAmount)
  }

  /** What a request amounts to once stored: the sum of the monthly line
      totals and of the recurring and one-time invoiced amounts, a missing
      amount counting 0. */
  function RequestTotals(req: InvoiceRequest): (t: Totals)
    ensures t.grandTotal == t.monthlyTotal + t.recurringTotal + t.oneTimeTotal
  {
    var m := MonthlyFeesTotal(req.monthlyFees);
    var rc := RecurringFeesTotal(req.recurringFees);
    var o := OneTimeFeesTotal(req.oneTimeFees);
    Totals(m, rc, o, m + rc + o)
  }

  /** Rows of other invoices add nothing to an invoice's sum. */
  lemma FreshSum<T>(before: seq<T>, added: seq<T>, amount: T -> int, owner: T -> int, id: int)
    requires forall r :: r in before ==> owner(r) != id
    ensures SumFor(before + added, amount, owner, id) == SumFor(added, amount, owner, id)
  {
    SumForAppend(before, added, amount, owner, id);
    assert forall i :: 0 <= i < |before| ==> owner(before[i]) != id by {
      forall i | 0 <= i < |before| ensures owner(before[i]) != id { assert before[i] in before; }
    }
    SumForNone(before, amount, owner, id);
  }

  lemma {:induction false} MonthlyRowsSum(id: int, fs: seq<MonthlyFee>)
    ensures SumFor(MonthlyRows(id, fs), MonthlyTotal, MonthlyInvoice, id) == MonthlyFeesTotal(fs)
  {
    if fs != [] {
      assert MonthlyRows(id, fs)[..|fs| - 1] == MonthlyRows(id, fs[..|fs| - 1]);
      MonthlyRowsSum(id, fs[..|fs| - 1]);
    }
  }

  lemma {:induction false} RecurringRowsSum(id: int, fs: seq<RecurringFee>)
    ensures SumFor(RecurringRows(id, fs), RecurringInvoiced, RecurringInvoice, id) == RecurringFeesTotal(fs)
  {
    if fs != [] {
      assert RecurringRows(id, fs)[..|fs| - 1] == RecurringRows(id, fs[..|fs| - 1]);
      RecurringRowsSum(id, fs[..|fs| - 1]);
    }
  }

  lemma {:induction false} OneTimeRowsSum(id: int, fs: seq<OneTimeFee>)
    ensures SumFor(OneTimeRows(id, fs), OneTimeInvoiced, OneTimeInvoice, id) == OneTimeFeesTotal(fs)
  {
    if fs != [] {
      assert OneTimeRows(id, fs)[..|fs| - 1] == OneTimeRows(id, fs[..|fs| - 1]);
      OneTimeRowsSum(id, fs[..|fs| - 1]);
    }
  }

  /** Stored under a fresh id, a request's lines make up exactly that
      invoice's totals: nothing another invoice stored is counted. */
  lemma FreshInvoiceTotals(masters: seq<Master>, monthly: seq<MonthlyRow>, recurring: seq<RecurringRow>,
                           oneTime: seq<OneTimeRow>, master: Master, req: InvoiceRequest)
    requires forall r :: r in monthly ==> r.invoiceId != master.id
    requires forall r :: r in recurring ==> r.invoiceId != master.id
    requires forall r :: r in oneTime ==> r.invoiceId != master.id
    ensures InvoiceTotals(masters + [master], monthly + MonthlyRows(master.id, req.monthlyFees),
                          recurring + RecurringRows(master.id, req.recurringFees),
                          oneTime + OneTimeRows(master.id, req.oneTimeFees), master.id)
            == Some(RequestTotals(req))
  {
    var id := master.id;
    assert master in masters + [master];
    FreshSum(monthly, MonthlyRows(id, req.monthlyFees), MonthlyTotal, MonthlyInvoice, id);
    FreshSum(recurring, RecurringRows(id, req.recurringFees), RecurringInvoiced, RecurringInvoice, id);
    FreshSum(oneTime, OneTimeRows(id, req.oneTimeFees), OneTimeInvoiced, OneTimeInvoice, id);
    MonthlyRowsSum(id, req.monthlyFees);
    RecurringRowsSum(id, req.recurringFees);
    OneTimeRowsSum(id, req.oneTimeFees);
    var t := InvoiceTotals(masters + [master], monthly + MonthlyRows(master.id, req.monthlyFees),
                           recurring + RecurringRows(master.id, req.recurringFees),
                           oneTime + OneTimeRows(master.id, req.oneTimeFees), master.id);
    assert t.Some?;
    assert t.value.monthlyTotal == MonthlyFeesTotal(req.monthlyFees);
    assert t.value.recurringTotal == RecurringFeesTotal(req.recurringFees);
    assert t.value.oneTimeTotal == OneTimeFeesTotal(req.oneTimeFees);
  }

  // ---- status ----

  /** `['draft', 'final', 'void'].includes(status)`. */
  predicate AllowedStatus(status: string)
  {
    status == "draft" || status == "final" || status == "void"
  }

  /** `UPDATE invoice_master SET status = $1 WHERE id = $2 RETURNING *`,
      after the whitelist check. The current status is not consulted, and
      an unknown id updates nothing and still succeeds. */
  function UpdateStatus(masters: seq<Master>, id: int, status: string): (r: Result<seq<Master>, string>)
    ensures r.Err? <==> !AllowedStatus(status)
    ensures r.Ok? ==> |r.value| == |masters|
    ensures r.Ok? ==> forall i :: 0 <= i < |masters| ==>
              r.value[i] == if masters[i].id == id then masters[i].(status := status) else masters[i]
  {
    if !AllowedStatus(status) then Err("Invalid status")
    else Ok(seq(|masters|, i requires 0 <= i < |masters| =>
                  if masters[i].id == id then masters[i].(status := status) else masters[i]))
  }

  /** Any whitelisted status can follow any other, a void invoice included:
      there is no transition rule. */
  lemma StatusHasNoTransitionRule(masters: seq<Master>, k: nat, status: string)
    requires k < |masters| && AllowedStatus(status)
    ensures UpdateStatus(masters, masters[k].id, status).Ok?
    ensures UpdateStatus(masters, masters[k].id, status).value[k].status == status
  {
  }

  /** Setting a status twice is the same as setting it once. */
  lemma UpdateStatusIdempotent(masters: seq<Master>, id: int, status: string)
    requires AllowedStatus(status)
    ensures UpdateStatus(UpdateStatus(masters, id, status).value, id, status) == UpdateStatus(masters, id, status)
  {
    var once := UpdateStatus(masters, id, status).value;
    var twice := UpdateStatus(once, id, status).value;
    assert twice == once by {
      forall i | 0 <= i < |masters| ensures twice[i] == once[i] {
        assert once[i].id == masters[i].id;
      }
    }
  }

  // ---- the store ----

  class Store {
    var masters: seq<Master>
    var monthly: seq<MonthlyRow>
    var recurring: seq<RecurringRow>
    var oneTime: seq<OneTimeRow>
    var nextId: int

    /** Every stored row belongs to an id the counter has already handed out. */
    ghost predicate Valid()
      reads this
    {
      (forall m :: m in masters ==> m.id < nextId) &&
      (forall r :: r in monthly ==> r.invoiceId < nextId) &&
      (forall r :: r in recurring ==> r.invoiceId < nextId) &&
      (forall r :: r in oneTime ==> r.invoiceId < nextId)
    }

    constructor()
      ensures Valid()
      ensures masters == [] && monthly == [] && recurring == [] && oneTime == [] && nextId == 1
    {
      masters, monthly, recurring, oneTime := [], [], [], [];
      nextId := 1;
    }

    function Totals(id: int): Option<Totals>
      reads this
    {
      InvoiceTotals(masters, monthly, recurring, oneTime, id)
    }

    /** `/api/generate-invoice` with the monthly INSERT corrected: a draft
        master row, then each line with its defaults, in request order. */
    method GenerateInvoice(req: InvoiceRequest, stamp: string) returns (number: string, id: int)
      requires Valid()
      modifies this
      ensures Valid()
      ensures id == old(nextId) && nextId == id + 1
      ensures number == InvoiceNumber(req.partnerCode, req.invoiceMonth, stamp)
      ensures masters == old(masters) + [Master(id, number, req.partnerId, req.partnerCode, req.partnerName,
                                                req.invoiceDate, req.invoiceMonth, "draft")]
      ensures monthly == old(monthly) + MonthlyRows(id, req.monthlyFees)
      ensures recurring == old(recurring) + RecurringRows(id, req.recurringFees)
      ensures oneTime == old(oneTime) + OneTimeRows(id, req.oneTimeFees)
      ensures Totals(id) == Some(RequestTotals(req))
    {
      number := InvoiceNumber(req.partnerCode, req.invoiceMonth, stamp);
      id := nextId;
      nextId := nextId + 1;
      var master := Master(id, number, req.partnerId, req.partnerCode, req.partnerName,
                           req.invoiceDate, req.invoiceMonth, "draft");
      ghost var m0, r0, o0 := monthly, recurring, oneTime;
      masters := masters + [master];
      InsertMonthly(id, req.monthlyFees);
      InsertRecurring(id, req.recurringFees);
      InsertOneTime(id, req.oneTimeFees);
      FreshInvoiceTotals(old(masters), m0, r0, o0, master, req);
    }

    /** The monthly insert loop. */
    method InsertMonthly(id: int, fs: seq<MonthlyFee>)
      modifies this
      ensures monthly == old(monthly) + MonthlyRows(id, fs)
      ensures masters == old(masters) && recurring == old(recurring) && oneTime == old(oneTime) && nextId == old(nextId)
    {
      var i := 0;
      while i < |fs|
        invariant 0 <= i <= |fs|
        invariant monthly == old(monthly) + MonthlyRows(id, fs[..i])
        invariant masters == old(masters) && recurring == old(recurring) && oneTime == old(oneTime) && nextId == old(nextId)
      {
        var row := MonthlyInsert(MonthlyPlaceholders, id, fs[i]);
        monthly := monthly + [row.value];
        assert MonthlyRows(id, fs[..i + 1]) == MonthlyRows(id, fs[..i]) + [row.value];
        i := i + 1;
      }
      assert fs[..i] == fs;
    }

    /** The recurring insert loop. */
    method InsertRecurring(id: int, fs: seq<RecurringFee>)
      modifies this
      ensures recurring == old(recurring) + RecurringRows(id, fs)
      ensures masters == old(masters) && monthly == old(monthly) && oneTime == old(oneTime) && nextId == old(nextId)
    {
      var i := 0;
      while i < |fs|
        invariant 0 <= i <= |fs|
        invariant recurring == old(recurring) + RecurringRows(id, fs[..i])
        invariant masters == old(masters) && monthly == old(monthly) && oneTime == old(oneTime) && nextId == old(nextId)
      {
        recurring := recurring + [RecurringRowOf(id, fs[i])];
        assert RecurringRows(id, fs[..i + 1]) == RecurringRows(id, fs[..i]) + [RecurringRowOf(id, fs[i])];
        i := i + 1;
      }
      assert fs[..i] == fs;
    }

    /** The one-time insert loop. */
    method InsertOneTime(id: int, fs: seq<OneTimeFee>)
      modifies this
      ensures oneTime == old(oneTime) + OneTimeRows(id, fs)
      ensures masters == old(masters) && monthly == old(monthly) && recurring == old(recurring) && nextId == old(nextId)
    {
      var i := 0;
      while i < |fs|
        invariant 0 <= i <= |fs|
        invariant oneTime == old(oneTime) + OneTimeRows(id, fs[..i])
        invariant masters == old(masters) && monthly == old(monthly) && recurring == old(recurring) && nextId == old(nextId)
      {
        oneTime := oneTime + [OneTimeRowOf(id, fs[i])];
        assert OneTimeRows(id, fs[..i + 1]) == OneTimeRows(id, fs[..i]) + [OneTimeRowOf(id, fs[i])];
        i := i + 1;
      }
      assert fs[..i] == fs;
    }

    /** `/api/invoice/:id/status`: the whitelist, then the update. */
    method SetStatus(id: int, status: string) returns (ok: bool)
      modifies this
      ensures ok <==> AllowedStatus(status)
      ensures ok ==> masters == UpdateStatus(old(masters), id, status).value
      ensures !ok ==> masters == old(masters)
      ensures monthly == old(monthly) && recurring == old(recurring) && oneTime == old(oneTime)
      ensures nextId == old(nextId)
      ensures old(Valid()) ==> Valid()
    {
      var r := UpdateStatus(masters, id, status);
      ok := r.Ok?;
      if ok {
        ghost var before := masters;
        masters := r.value;
        forall m | m in masters ensures exists k :: 0 <= k < |before| && m.id == before[k].id {
          var k :| 0 <= k < |masters| && masters[k] == m;
          assert m.id == before[k].id;
        }
      }
    }
  }

  /** A freshly generated invoice is always a draft. */
  method GeneratedIsDraft(req: InvoiceRequest, stamp: string) returns (status: string)
    ensures status == "draft"
  {
    var store := new Store();
    var number, id := store.GenerateInvoice(req, stamp);
    status := store.masters[|store.masters| - 1].status;
  }
}
