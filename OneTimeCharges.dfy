/**
 * The server's rules for one-time ("additional") charges, over the three
 * tables they touch: `addl_billings`, `invoice_master` and the link table
 * `invoice_one_time_fees`. Query results are functions over those tables;
 * the all-or-nothing behaviour of a transaction is an `Err` that carries no
 * new state.
 *
 * Dates are day numbers. SQL comparison with NULL is unknown, and a row for
 * which a WHERE clause is unknown is not returned; that is why the date
 * bounds are options.
 */
module OneTimeCharges {
  import opened Common
  import JsText

  /** A row of `addl_billings`. */
  datatype Charge = Charge(
    id: int,
    partnerId: int,
    clientName: Option<string>,
    billingItemId: int,
    description: Option<string>,
    amount: int,
    billingDate: int)

  /** The two columns of `invoice_master` the rules read. */
  datatype Invoice = Invoice(id: int, status: string)

  /** A row of `invoice_one_time_fees` linking an invoice to a charge. */
  datatype Link = Link(invoiceId: int, chargeId: Option<int>)

  datatype Db = Db(charges: seq<Charge>, invoices: seq<Invoice>, links: seq<Link>, nextChargeId: int)

  /** Some invoice that is not void lists the charge. */
  predicate OnLiveInvoice(db: Db, chargeId: int)
  {
    exists l, inv | l in db.links && inv in db.invoices ::
      l.chargeId == Some(chargeId) && l.invoiceId == inv.id && inv.status != "void"
  }

  /** `billing_date >= $2 AND billing_date <= $3`, false when a bound is NULL. */
  predicate InPeriod(date: int, start: Option<int>, end: Option<int>)
  {
    start.Some? && end.Some? && start.value <= date <= end.value
  }

  predicate Offered(db: Db, partnerId: int, start: Option<int>, end: Option<int>, c: Charge)
  {
    c.partnerId == partnerId && InPeriod(c.billingDate, start, end) && !OnLiveInvoice(db, c.id)
  }

  /** The WHERE clause of `GET /api/addl-billings/:partnerId`, in table order. */
  function OfferedIn(db: Db, cs: seq<Charge>, partnerId: int, start: Option<int>, end: Option<int>): (r: seq<Charge>)
    ensures forall c :: c in r <==> c in cs && Offered(db, partnerId, start, end, c)
    ensures multiset(r) <= multiset(cs)
  {
    if cs == [] then []
    else
      var rest := OfferedIn(db, cs[..|cs| - 1], partnerId, start, end);
      var last := cs[|cs| - 1];
      assert cs == cs[..|cs| - 1] + [last];
      if Offered(db, partnerId, start, end, last) then rest + [last] else rest
  }

  /** The sort key of `ORDER BY billing_date DESC`. */
  function NewestFirstKey(c: Charge): int { -c.billingDate }

  /** `GET /api/addl-billings/:partnerId?start_date&end_date`. */
  function Eligible(db: Db, partnerId: int, start: Option<int>, end: Option<int>): (r: seq<Charge>)
    ensures forall c :: c in r <==> c in db.charges && Offered(db, partnerId, start, end, c)
    ensures forall i, j :: 0 <= i < j < |r| ==> r[i].billingDate >= r[j].billingDate
    ensures multiset(r) <= multiset(db.charges)
  {
    var f := OfferedIn(db, db.charges, partnerId, start, end);
    SortByMembers(f, NewestFirstKey);
    var r := SortBy(f, NewestFirstKey);
    assert forall i, j :: 0 <= i < j < |r| ==> NewestFirstKey(r[i]) <= NewestFirstKey(r[j]);
    r
  }

  lemma {:induction false} OfferedInNoPeriod(db: Db, cs: seq<Charge>, partnerId: int, start: Option<int>, end: Option<int>)
    requires start.None? || end.None?
    ensures OfferedIn(db, cs, partnerId, start, end) == []
  {
    if cs != [] {
      OfferedInNoPeriod(db, cs[..|cs| - 1], partnerId, start, end);
    }
  }

  /** Without a start or an end date nothing is offered: every date
      comparison with NULL is unknown. */
  lemma NoPeriodOffersNothing(db: Db, partnerId: int, start: Option<int>, end: Option<int>)
    requires start.None? || end.None?
    ensures Eligible(db, partnerId, start, end) == []
  {
    OfferedInNoPeriod(db, db.charges, partnerId, start, end);
  }

  /** Voiding the only invoices that listed a charge makes it billable
      again; a charge on a draft or final invoice never is. */
  lemma OfferedIffNotOnLiveInvoice(db: Db, partnerId: int, start: int, end: int, c: Charge)
    requires c in db.charges && c.partnerId == partnerId && start <= c.billingDate <= end
    ensures c in Eligible(db, partnerId, Some(start), Some(end)) <==> !OnLiveInvoice(db, c.id)
  {
  }

  // ---- DELETE /api/addl-billings/:id ----

  datatype DeleteError = InUse | NotFound

  function WithoutCharge(cs: seq<Charge>, id: int): (r: seq<Charge>)
    ensures forall c :: c in r <==> c in cs && c.id != id
  {
    if cs == [] then []
    else
      var rest := WithoutCharge(cs[..|cs| - 1], id);
      assert cs == cs[..|cs| - 1] + [cs[|cs| - 1]];
      if cs[|cs| - 1].id == id then rest else rest + [cs[|cs| - 1]]
  }

  predicate OnVoidInvoice(db: Db, l: Link)
  {
    exists inv | inv in db.invoices :: inv.id == l.invoiceId && inv.status == "void"
  }

  /** `DELETE FROM invoice_one_time_fees WHERE addl_billing_id = $1 AND
      invoice_id IN (void invoices)`. */
  function DropVoidLinks(db: Db, links: seq<Link>, id: int): (r: seq<Link>)
    ensures forall l :: l in r <==> l in links && !(l.chargeId == Some(id) && OnVoidInvoice(db, l))
  {
    if links == [] then []
    else
      var rest := DropVoidLinks(db, links[..|links| - 1], id);
      var l := links[|links| - 1];
      assert links == links[..|links| - 1] + [l];
      if l.chargeId == Some(id) && OnVoidInvoice(db, l) then rest else rest + [l]
  }

  predicate HasCharge(db: Db, id: int)
  {
    exists c | c in db.charges :: c.id == id
  }

  /** The delete route: refused while a live invoice lists the charge;
      otherwise links from void invoices go first, then the charge. A
      missing charge rolls the link removal back. */
  function DeleteCharge(db: Db, id: int): (r: Result<Db, DeleteError>)
    ensures r == Err(InUse) <==> OnLiveInvoice(db, id)
    ensures r == Err(NotFound) <==> !OnLiveInvoice(db, id) && !HasCharge(db, id)
    ensures r.Ok? ==> r.value.invoices == db.invoices && r.value.nextChargeId == db.nextChargeId
    ensures r.Ok? ==> forall c :: c in r.value.charges <==> c in db.charges && c.id != id
    ensures r.Ok? ==> forall l :: l in r.value.links <==>
                        l in db.links && !(l.chargeId == Some(id) && OnVoidInvoice(db, l))
  {
    if OnLiveInvoice(db, id) then Err(InUse)
    else if !HasCharge(db, id) then Err(NotFound)
    else Ok(db.(links := DropVoidLinks(db, db.links, id), charges := WithoutCharge(db.charges, id)))
  }

  /** After a delete no link to the charge comes from a void invoice, and
      any link to it that remains points at no invoice at all. */
  lemma DeleteLeavesNoInvoiceLink(db: Db, id: int)
    requires DeleteCharge(db, id).Ok?
    ensures forall l, inv ::
              (l in DeleteCharge(db, id).value.links && inv in db.invoices && l.chargeId == Some(id))
              ==> l.invoiceId != inv.id
  {
    var after := DeleteCharge(db, id).value;
    forall l, inv | l in after.links && inv in db.invoices && l.chargeId == Some(id)
      ensures l.invoiceId != inv.id
    {
      assert !OnVoidInvoice(db, l);
      assert !OnLiveInvoice(db, id);
    }
  }

  // ---- POST /api/bulk-addl-billings ----

  /** One spreadsheet row as posted; a missing cell is `None`. */
  datatype BulkRecord = BulkRecord(
    partnerCode: Option<string>,
    itemCode: Option<string>,
    clientName: Option<string>,
    amount: Option<int>,
    billingDate: Option<int>,
    description: Option<string>)

  datatype RowError =
    | MissingPartnerCode
    | MissingItemCode
    | MissingClientName
    | MissingAmount
    | MissingBillingDate
    | InvalidPartnerCode(code: string)
    | InvalidItemCode(code: string)

  /** A validated row, ready to insert. */
  datatype NewCharge = NewCharge(
    partnerId: int, clientName: string, billingItemId: int,
    description: Option<string>, amount: int, billingDate: int)

  predicate Truthy(s: Option<string>) { s.Some? && s.value != "" }

  /** `String(x).trim()`: a missing value reads as "undefined", which has
      no white space to trim. A JSON `null` code is also `None` here,
      though `String(null)` is "null": both fail the lookup unless a row
      carries that literal code, so only the text of the unknown-code
      error differs between the two. */
  function CodeText(s: Option<string>): string
  {
    if s.Some? then JsText.Trim(s.value) else "undefined"
  }

  /** `new Map(rows.map(r => [String(r.code).trim(), r.id]))`. */
  function CodeMap(rows: seq<(int, string)>): map<string, int>
  {
    if rows == [] then map[]
    else CodeMap(rows[..|rows| - 1])[JsText.Trim(rows[|rows| - 1].1) := rows[|rows| - 1].0]
  }

  /** A code maps to the id of the LAST row carrying it. */
  lemma {:induction false} CodeMapLastWins(rows: seq<(int, string)>, i: nat)
    requires i < |rows|
    requires forall j :: i < j < |rows| ==> JsText.Trim(rows[j].1) != JsText.Trim(rows[i].1)
    ensures JsText.Trim(rows[i].1) in CodeMap(rows)
    ensures CodeMap(rows)[JsText.Trim(rows[i].1)] == rows[i].0
  {
    if i < |rows| - 1 {
      var init := rows[..|rows| - 1];
      assert init[i] == rows[i];
      assert forall j :: i < j < |init| ==> init[j] == rows[j];
      CodeMapLastWins(init, i);
    }
  }

  /** Only codes that some row carries are keys. */
  lemma {:induction false} CodeMapKeys(rows: seq<(int, string)>, k: string)
    requires k in CodeMap(rows)
    ensures exists i :: 0 <= i < |rows| && JsText.Trim(rows[i].1) == k
  {
    var init, last := rows[..|rows| - 1], rows[|rows| - 1];
    var code := JsText.Trim(last.1);
    if code == k {
      assert JsText.Trim(rows[|rows| - 1].1) == k;
    } else {
      assert k in CodeMap(init);
      CodeMapKeys(init, k);
      var i :| 0 <= i < |init| && JsText.Trim(init[i].1) == k;
      assert rows[i] == init[i];
    }
  }

  /** `!map.get(code)`: absent, or an id of 0. */
  predicate Known(m: map<string, int>, code: string)
  {
    code in m && m[code] != 0
  }

  /** A row the route accepts: five required fields present and truthy,
      both codes known. */
  predicate RowOk(r: BulkRecord, partners: map<string, int>, items: map<string, int>)
  {
    Truthy(r.partnerCode) && Truthy(r.itemCode) && Truthy(r.clientName) &&
    r.amount.Some? && r.amount.value != 0 && r.billingDate.Some? &&
    Known(partners, CodeText(r.partnerCode)) && Known(items, CodeText(r.itemCode))
  }

  /** One check of the route: no error when it passes. */
  function Check(ok: bool, e: RowError): (es: seq<RowError>)
    ensures |es| == if ok then 0 else 1
  {
    if ok then [] else [e]
  }

  /** The errors of one row, in the order the route checks them. */
  function RowErrors(r: BulkRecord, partners: map<string, int>, items: map<string, int>): seq<RowError>
  {
    var partnerCode, itemCode := CodeText(r.partnerCode), CodeText(r.itemCode);
    Check(Truthy(r.partnerCode), MissingPartnerCode) +
    Check(Truthy(r.itemCode), MissingItemCode) +
    Check(Truthy(r.clientName), MissingClientName) +
    Check(r.amount.Some? && r.amount.value != 0, MissingAmount) +
    Check(r.billingDate.Some?, MissingBillingDate) +
    Check(Known(partners, partnerCode), InvalidPartnerCode(partnerCode)) +
    Check(Known(items, itemCode), InvalidItemCode(itemCode))
  }

  /** A row has no error exactly when it passes. */
  lemma RowErrorsEmptyIff(r: BulkRecord, partners: map<string, int>, items: map<string, int>)
    ensures RowErrors(r, partners, items) == [] <==> RowOk(r, partners, items)
  {
  }

  function Transform(r: BulkRecord, partners: map<string, int>, items: map<string, int>): NewCharge
    requires RowOk(r, partners, items)
  {
    NewCharge(partners[CodeText(r.partnerCode)], r.clientName.value, items[CodeText(r.itemCode)],
              NonEmpty(r.description), r.amount.value, r.billingDate.value)
  }

  /** The per-row error lists, numbered from 1, of the rows that fail. */
  function BulkErrors(rs: seq<BulkRecord>, partners: map<string, int>, items: map<string, int>): seq<(nat, seq<RowError>)>
  {
    if rs == [] then []
    else
      var r := rs[|rs| - 1];
      BulkErrors(rs[..|rs| - 1], partners, items) + RowReport(|rs|, r, partners, items)
  }

  /** The entry that row number `n` adds to the error list: none when it passes. */
  function RowReport(n: nat, r: BulkRecord, partners: map<string, int>, items: map<string, int>): (report: seq<(nat, seq<RowError>)>)
    ensures forall e :: e in report ==> e.0 == n && e.1 == RowErrors(r, partners, items) && e.1 != []
  {
    var es := RowErrors(r, partners, items);
    if es == [] then [] else [(n, es)]
  }

  lemma RowReportEmptyIff(n: nat, r: BulkRecord, partners: map<string, int>, items: map<string, int>)
    ensures RowReport(n, r, partners, items) == [] <==> RowOk(r, partners, items)
  {
  }

  /** The transformed records of the rows that pass, in row order. */
  function Accepted(rs: seq<BulkRecord>, partners: map<string, int>, items: map<string, int>): seq<NewCharge>
  {
    if rs == [] then []
    else
      var r := rs[|rs| - 1];
      Accepted(rs[..|rs| - 1], partners, items) +
        (if RowOk(r, partners, items) then [Transform(r, partners, items)] else [])
  }

  /** The route's `forEach` over the posted rows. */
  method ValidateBulk(rs: seq<BulkRecord>, partners: map<string, int>, items: map<string, int>)
    returns (errors: seq<(nat, seq<RowError>)>, transformed: seq<NewCharge>)
    ensures errors == BulkErrors(rs, partners, items)
    ensures transformed == Accepted(rs, partners, items)
  {
    errors, transformed := [], [];
    for i := 0 to |rs|
      invariant errors == BulkErrors(rs[..i], partners, items)
      invariant transformed == Accepted(rs[..i], partners, items)
    {
      assert rs[..i + 1][..i] == rs[..i];
      assert BulkErrors(rs[..i + 1], partners, items) ==
        BulkErrors(rs[..i], partners, items) + RowReport(i + 1, rs[i], partners, items);
      var rowErrors := RowErrors(rs[i], partners, items);
      RowErrorsEmptyIff(rs[i], partners, items);
      if |rowErrors| > 0 {
        errors := errors + [(i + 1, rowErrors)];
      } else {
        transformed := transformed + [Transform(rs[i], partners, items)];
      }
    }
    assert rs[..|rs|] == rs;
  }

  /** No error is reported exactly when every row passes, and then every
      row is transformed, in order. */
  lemma {:induction false} BulkErrorsEmptyIff(rs: seq<BulkRecord>, partners: map<string, int>, items: map<string, int>)
    ensures BulkErrors(rs, partners, items) == [] <==>
              forall i :: 0 <= i < |rs| ==> RowOk(rs[i], partners, items)
    ensures BulkErrors(rs, partners, items) == [] ==>
              |Accepted(rs, partners, items)| == |rs| &&
              forall i :: 0 <= i < |rs| ==> Accepted(rs, partners, items)[i] == Transform(rs[i], partners, items)
  {
    if BulkErrors(rs, partners, items) == [] {
      AcceptedAll(rs, partners, items);
    } else {
      var i := FailingRow(rs, partners, items);
    }
  }

  /** A non-empty error list names a row that fails. */
  lemma {:induction false} FailingRow(rs: seq<BulkRecord>, partners: map<string, int>, items: map<string, int>) returns (i: nat)
    requires BulkErrors(rs, partners, items) != []
    ensures i < |rs| && !RowOk(rs[i], partners, items)
  {
    var init, r := rs[..|rs| - 1], rs[|rs| - 1];
    if RowReport(|rs|, r, partners, items) == [] {
      i := FailingRow(init, partners, items);
      assert rs[i] == init[i];
    } else {
      i := |rs| - 1;
    }
  }

  /** With no error, every row passes and is transformed, in order. */
  lemma AcceptedAll(rs: seq<BulkRecord>, partners: map<string, int>, items: map<string, int>)
    requires BulkErrors(rs, partners, items) == []
    ensures forall i :: 0 <= i < |rs| ==> RowOk(rs[i], partners, items)
    ensures |Accepted(rs, partners, items)| == |rs|
    ensures forall i :: 0 <= i < |rs| ==> Accepted(rs, partners, items)[i] == Transform(rs[i], partners, items)
  {
    AcceptedLength(rs, partners, items);
    forall i | 0 <= i < |rs|
      ensures RowOk(rs[i], partners, items) && Accepted(rs, partners, items)[i] == Transform(rs[i], partners, items)
    {
      AcceptedAt(rs, partners, items, i);
    }
  }

  lemma {:induction false} AcceptedLength(rs: seq<BulkRecord>, partners: map<string, int>, items: map<string, int>)
    requires BulkErrors(rs, partners, items) == []
    ensures |Accepted(rs, partners, items)| == |rs|
  {
    if rs != [] {
      var init, r := rs[..|rs| - 1], rs[|rs| - 1];
      var tail := RowReport(|rs|, r, partners, items);
      assert BulkErrors(rs, partners, items) == BulkErrors(init, partners, items) + tail;
      assert |BulkErrors(init, partners, items)| + |tail| == 0;
      AcceptedLength(init, partners, items);
    }
  }

  lemma {:induction false} AcceptedAt(rs: seq<BulkRecord>, partners: map<string, int>, items: map<string, int>, i: nat)
    requires BulkErrors(rs, partners, items) == [] && i < |rs|
    ensures RowReport(i + 1, rs[i], partners, items) == []
    ensures |Accepted(rs, partners, items)| == |rs|
    ensures Accepted(rs, partners, items)[i] == Transform(rs[i], partners, items)
  {
    AcceptedLength(rs, partners, items);
    var init, r := rs[..|rs| - 1], rs[|rs| - 1];
    var tail := RowReport(|rs|, r, partners, items);
    assert BulkErrors(rs, partners, items) == BulkErrors(init, partners, items) + tail;
    assert |BulkErrors(init, partners, items)| + |tail| == 0;
    AcceptedLength(init, partners, items);
    var before := Accepted(init, partners, items);
    assert Accepted(rs, partners, items) == before + [Transform(r, partners, items)];
    if i < |init| {
      AcceptedAt(init, partners, items, i);
      assert init[i] == rs[i];
    }
  }

  /** Every reported row number names a failing row. */
  lemma BulkErrorsNameFailingRows(rs: seq<BulkRecord>, partners: map<string, int>, items: map<string, int>)
    ensures forall e :: e in BulkErrors(rs, partners, items) ==>
              1 <= e.0 <= |rs| && e.1 == RowErrors(rs[e.0 - 1], partners, items) && e.1 != []
  {
    var errors := BulkErrors(rs, partners, items);
    forall e | e in errors
      ensures 1 <= e.0 <= |rs| && e.1 == RowErrors(rs[e.0 - 1], partners, items) && e.1 != []
    {
      var k :| 0 <= k < |errors| && errors[k] == e;
      ErrorEntry(rs, partners, items, k);
    }
  }

  lemma {:induction false} ErrorEntry(rs: seq<BulkRecord>, partners: map<string, int>, items: map<string, int>, k: nat)
    requires k < |BulkErrors(rs, partners, items)|
    ensures var e := BulkErrors(rs, partners, items)[k];
      1 <= e.0 <= |rs| && e.1 == RowErrors(rs[e.0 - 1], partners, items) && e.1 != []
  {
    var init, r := rs[..|rs| - 1], rs[|rs| - 1];
    var before := BulkErrors(init, partners, items);
    var tail := RowReport(|rs|, r, partners, items);
    assert BulkErrors(rs, partners, items) == before + tail;
    if k < |before| {
      ErrorEntry(init, partners, items, k);
      var e := before[k];
      assert rs[e.0 - 1] == init[e.0 - 1];
    } else {
      assert tail[k - |before|] in tail;
    }
  }

  datatype BulkError = NoRecords | Invalid(errors: seq<(nat, seq<RowError>)>)

  /** Inserted rows take consecutive serial ids. */
  function Inserted(news: seq<NewCharge>, firstId: int): (cs: seq<Charge>)
    ensures |cs| == |news|
    ensures forall i :: 0 <= i < |news| ==>
              (cs[i].id == firstId + i && cs[i].amount == news[i].amount &&
               cs[i].partnerId == news[i].partnerId && cs[i].billingItemId == news[i].billingItemId &&
               cs[i].clientName == Some(news[i].clientName) && cs[i].description == news[i].description &&
               cs[i].billingDate == news[i].billingDate)
  {
    seq(|news|, i requires 0 <= i < |news| =>
      var n := news[i];
      Charge(firstId + i, n.partnerId, Some(n.clientName), n.billingItemId, n.description, n.amount, n.billingDate))
  }

  /** The whole route: an empty batch is refused; any failing row aborts the
      batch; otherwise every row is inserted. */
  function BulkUpload(db: Db, rs: seq<BulkRecord>, partners: seq<(int, string)>, items: seq<(int, string)>): (r: Result<Db, BulkError>)
    ensures rs == [] ==> r == Err(NoRecords)
    ensures r.Ok? <==> rs != [] && forall i :: 0 <= i < |rs| ==> RowOk(rs[i], CodeMap(partners), CodeMap(items))
    ensures r.Ok? ==>
              (|r.value.charges| == |db.charges| + |rs| &&
               r.value.charges[..|db.charges|] == db.charges &&
               r.value.invoices == db.invoices && r.value.links == db.links &&
               r.value.nextChargeId == db.nextChargeId + |rs|)
    ensures r.Ok? ==>
              r.value.charges == db.charges + Inserted(Accepted(rs, CodeMap(partners), CodeMap(items)), db.nextChargeId)
  {
    var pm, im := CodeMap(partners), CodeMap(items);
    BulkErrorsEmptyIff(rs, pm, im);
    if rs == [] then Err(NoRecords)
    else
      var errors := BulkErrors(rs, pm, im);
      if errors != [] then Err(Invalid(errors))
      else
        var added := Inserted(Accepted(rs, pm, im), db.nextChargeId);
        assert (db.charges + added)[..|db.charges|] == db.charges;
        Ok(db.(charges := db.charges + added, nextChargeId := db.nextChargeId + |added|))
  }

  /** After a successful upload, the charge stored for posted row `i` holds
      that row's fields: the next serial id, the ids its codes map to, the
      client name, the description or null, the amount and the date. */
  lemma StoredRow(db: Db, rs: seq<BulkRecord>, partners: seq<(int, string)>, items: seq<(int, string)>, i: nat)
    requires BulkUpload(db, rs, partners, items).Ok? && i < |rs|
    ensures RowOk(rs[i], CodeMap(partners), CodeMap(items))
    ensures var c := BulkUpload(db, rs, partners, items).value.charges[|db.charges| + i];
            var r := rs[i];
            c == Charge(db.nextChargeId + i, CodeMap(partners)[CodeText(r.partnerCode)], r.clientName,
                        CodeMap(items)[CodeText(r.itemCode)], NonEmpty(r.description), r.amount.value, r.billingDate.value)
  {
    var pm, im := CodeMap(partners), CodeMap(items);
    assert forall j :: 0 <= j < |rs| ==> RowOk(rs[j], pm, im);
    BulkErrorsEmptyIff(rs, pm, im);
    assert BulkErrors(rs, pm, im) == [];
    var news := Accepted(rs, pm, im);
    var n := Transform(rs[i], pm, im);
    assert news[i] == n;
    var stored := BulkUpload(db, rs, partners, items).value.charges;
    assert stored == db.charges + Inserted(news, db.nextChargeId);
    var c := Inserted(news, db.nextChargeId)[i];
    assert stored[|db.charges| + i] == c;
    assert c == Charge(db.nextChargeId + i, n.partnerId, Some(n.clientName), n.billingItemId, n.description, n.amount, n.billingDate);
  }

  /** A batch with one bad row inserts nothing, however many rows are good. */
  lemma OneBadRowRejectsBatch(db: Db, rs: seq<BulkRecord>, partners: seq<(int, string)>, items: seq<(int, string)>, k: nat)
    requires k < |rs| && !RowOk(rs[k], CodeMap(partners), CodeMap(items))
    ensures BulkUpload(db, rs, partners, items).Err?
  {
  }

  /** A missing partner code is reported twice: as missing and, because it
      reads as "undefined", as unknown too (unless a partner has that code). */
  lemma MissingCodeAlsoInvalid(r: BulkRecord, partners: map<string, int>, items: map<string, int>)
    requires r.partnerCode.None? && "undefined" !in partners
    ensures RowErrors(r, partners, items)[0] == MissingPartnerCode
    ensures InvalidPartnerCode("undefined") in RowErrors(r, partners, items)
  {
  }
}
