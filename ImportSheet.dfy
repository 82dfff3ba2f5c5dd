/**
 * The monthly usage import page (src/MonthlyBillingImport.js): every row
 * read from the first sheet must carry all sixteen expected headers; its
 * keys are renamed to column names and each value is coerced by column
 * (flag, count, amount, month, trimmed text); rows are only posted when
 * there are any.
 *
 * A sheet cell is what the spreadsheet reader yields in raw mode: null, a
 * string, a number, a boolean or a date. Numbers are whole numbers here.
 * JavaScript's date parsing is a parameter (`dateOf`, the UTC calendar day
 * `YYYY-MM-DD` of `new Date(value)` when that is a valid date), and so is
 * the calendar day of a date cell.
 */
module ImportSheet {
  import opened Common
  import opened JsText

  datatype Cell =
    | Empty                                   // null, as `defval: null` fills
    | Str(s: string)
    | Number(n: int)
    | Boolean(b: bool)
    | Date(shown: string, isoDay: string)     // `String(d)` and the UTC day of `d`

  /** One sheet row: header and cell, in column order. */
  type SheetRow = seq<(string, Cell)>

  /** A cleaned value. `Count` keeps the text `parseInt` reads (its number
      is `CountValue`), `Amount` the text `parseFloat` would read. */
  datatype Value =
    | Null
    | Text(s: string)
    | Flag(b: bool)
    | Count(digits: string)
    | Amount(digits: string)
    | Kept(c: Cell)

  /** `parseInt(digits, 10)` of a count; NaN when nothing parses. */
  function CountValue(v: Value): ParsedInt
    requires v.Count?
  {
    ParseInt(v.digits)
  }

  /** The sixteen columns of a usage row. */
  datatype Column =
    | MonthYear | ClientCode | ClientName | LegalCompanyCode | LegalName | Fein | StateCode
    | PayGroupName | IsPayGroupActive | NewPayGroupCount | LivePayrollCount | TotalActiveEmployees
    | TotalEmployeesPaid | TotalBilling | TotalOneTimeBilling | TotalChecksAndVouchers

  const Columns: seq<Column> := [
    MonthYear, ClientCode, ClientName, LegalCompanyCode, LegalName, Fein, StateCode,
    PayGroupName, IsPayGroupActive, NewPayGroupCount, LivePayrollCount, TotalActiveEmployees,
    TotalEmployeesPaid, TotalBilling, TotalOneTimeBilling, TotalChecksAndVouchers
  ]

  /** The spreadsheet header of each column. */
  function Header(c: Column): string
  {
    match c
    case MonthYear => "Month/Year"
    case ClientCode => "Client Code"
    case ClientName => "Client Name"
    case LegalCompanyCode => "Legal Company Code"
    case LegalName => "Legal Name"
    case Fein => "FEIN"
    case StateCode => "State Code"
    case PayGroupName => "Pay Group Name"
    case IsPayGroupActive => "Is Pay Group Active"
    case NewPayGroupCount => "New Pay Group Count"
    case LivePayrollCount => "Live Payroll Count"
    case TotalActiveEmployees => "Total Active Employees"
    case TotalEmployeesPaid => "Total Employees Paid In Month"
    case TotalBilling => "Total Billing"
    case TotalOneTimeBilling => "Total One Time Billing"
    case TotalChecksAndVouchers => "Total Checks And Vouchers"
  }

  /** The database name of each column. */
  function Name(c: Column): string
  {
    match c
    case MonthYear => "month_year"
    case ClientCode => "client_code"
    case ClientName => "client_name"
    case LegalCompanyCode => "legal_company_code"
    case LegalName => "legal_name"
    case Fein => "fein"
    case StateCode => "state_code"
    case PayGroupName => "pay_group_name"
    case IsPayGroupActive => "is_pay_group_active"
    case NewPayGroupCount => "new_pay_group_count"
    case LivePayrollCount => "live_payroll_count"
    case TotalActiveEmployees => "total_active_employees"
    case TotalEmployeesPaid => "total_employees_paid"
    case TotalBilling => "total_billing"
    case TotalOneTimeBilling => "total_one_time_billing"
    case TotalChecksAndVouchers => "total_checks_and_vouchers"
  }

  /** A key of the cleaned row: a column, or a header passed through. */
  datatype Key = Col(c: Column) | Other(name: string)

  type CleanRow = map<Key, Value>

  /** The column whose spreadsheet header is `h`. */
  function ByHeader(h: string): (r: Option<Column>)
    ensures r.Some? ==> Header(r.value) == h
  {
    if h == "Month/Year" then Some(MonthYear)
    else if h == "Client Code" then Some(ClientCode)
    else if h == "Client Name" then Some(ClientName)
    else if h == "Legal Company Code" then Some(LegalCompanyCode)
    else if h == "Legal Name" then Some(LegalName)
    else if h == "FEIN" then Some(Fein)
    else if h == "State Code" then Some(StateCode)
    else if h == "Pay Group Name" then Some(PayGroupName)
    else if h == "Is Pay Group Active" then Some(IsPayGroupActive)
    else if h == "New Pay Group Count" then Some(NewPayGroupCount)
    else if h == "Live Payroll Count" then Some(LivePayrollCount)
    else if h == "Total Active Employees" then Some(TotalActiveEmployees)
    else if h == "Total Employees Paid In Month" then Some(TotalEmployeesPaid)
    else if h == "Total Billing" then Some(TotalBilling)
    else if h == "Total One Time Billing" then Some(TotalOneTimeBilling)
    else if h == "Total Checks And Vouchers" then Some(TotalChecksAndVouchers)
    else None
  }

  /** The column whose database name is `h`. */
  function ByName(h: string): (r: Option<Column>)
    ensures r.Some? ==> Name(r.value) == h
  {
    if h == "month_year" then Some(MonthYear)
    else if h == "client_code" then Some(ClientCode)
    else if h == "client_name" then Some(ClientName)
    else if h == "legal_company_code" then Some(LegalCompanyCode)
    else if h == "legal_name" then Some(LegalName)
    else if h == "fein" then Some(Fein)
    else if h == "state_code" then Some(StateCode)
    else if h == "pay_group_name" then Some(PayGroupName)
    else if h == "is_pay_group_active" then Some(IsPayGroupActive)
    else if h == "new_pay_group_count" then Some(NewPayGroupCount)
    else if h == "live_payroll_count" then Some(LivePayrollCount)
    else if h == "total_active_employees" then Some(TotalActiveEmployees)
    else if h == "total_employees_paid" then Some(TotalEmployeesPaid)
    else if h == "total_billing" then Some(TotalBilling)
    else if h == "total_one_time_billing" then Some(TotalOneTimeBilling)
    else if h == "total_checks_and_vouchers" then Some(TotalChecksAndVouchers)
    else None
  }

  /** `columnMapping[key] || key`: a header becomes its column, and a key
      already spelled as a column name is that column too, so it is coerced
      the same way; any other key passes through. */
  function NewKey(h: string): Key
  {
    if ByHeader(h).Some? then Col(ByHeader(h).value)
    else if ByName(h).Some? then Col(ByName(h).value)
    else Other(h)
  }

  /** Each header is renamed to its own column. */
  lemma NewKeyOfHeader(c: Column)
    ensures NewKey(Header(c)) == Col(c)
  {
    if c.MonthYear? || c.ClientCode? || c.ClientName? || c.LegalCompanyCode? || c.LegalName? || c.Fein? || c.StateCode? || c.PayGroupName? {
      NewKeyOfHeaderA(c);
    } else if c.IsPayGroupActive? || c.NewPayGroupCount? || c.LivePayrollCount? {
      NewKeyOfHeaderB(c);
    } else if c.TotalActiveEmployees? || c.TotalEmployeesPaid? {
      NewKeyOfHeaderC(c);
    } else if c.TotalBilling? || c.TotalOneTimeBilling? {
      NewKeyOfHeaderD(c);
    } else {
      NewKeyOfHeaderE(c);
    }
  }

  lemma NewKeyOfHeaderA(c: Column)
    requires c.MonthYear? || c.ClientCode? || c.ClientName? || c.LegalCompanyCode? || c.LegalName? || c.Fein? || c.StateCode? || c.PayGroupName?
    ensures NewKey(Header(c)) == Col(c)
  {
    match c
    case MonthYear =>
    case ClientCode =>
    case ClientName =>
    case LegalCompanyCode =>
    case LegalName =>
    case Fein =>
    case StateCode =>
    case PayGroupName =>
  }

  lemma NewKeyOfHeaderB(c: Column)
    requires c.IsPayGroupActive? || c.NewPayGroupCount? || c.LivePayrollCount?
    ensures NewKey(Header(c)) == Col(c)
  {
    match c
    case IsPayGroupActive =>
    case NewPayGroupCount =>
    case LivePayrollCount =>
  }

  lemma NewKeyOfHeaderC(c: Column)
    requires c.TotalActiveEmployees? || c.TotalEmployeesPaid?
    ensures NewKey(Header(c)) == Col(c)
  {
    match c
    case TotalActiveEmployees =>
    case TotalEmployeesPaid =>
  }

  lemma NewKeyOfHeaderD(c: Column)
    requires c.TotalBilling? || c.TotalOneTimeBilling?
    ensures NewKey(Header(c)) == Col(c)
  {
    match c
    case TotalBilling =>
    case TotalOneTimeBilling =>
  }

  lemma NewKeyOfHeaderE(c: Column)
    requires c.TotalChecksAndVouchers?
    ensures NewKey(Header(c)) == Col(c)
  {
  }

  lemma ColumnListed(c: Column)
    ensures c in Columns
  {
    match c
    case MonthYear =>
    case ClientCode =>
    case ClientName =>
    case LegalCompanyCode =>
    case LegalName =>
    case Fein =>
    case StateCode =>
    case PayGroupName =>
    case IsPayGroupActive =>
    case NewPayGroupCount =>
    case LivePayrollCount =>
    case TotalActiveEmployees =>
    case TotalEmployeesPaid =>
    case TotalBilling =>
    case TotalOneTimeBilling =>
    case TotalChecksAndVouchers =>
  }

  /** A key that is neither a header nor a column name is kept as it is. */
  lemma UnmappedKeyPassesThrough(h: string)
    requires forall c: Column :: Header(c) != h && Name(c) != h
    ensures NewKey(h) == Other(h)
  {
  }

  // ---- JavaScript's String(value) ----

  function Shown(c: Cell): string
  {
    match c
    case Empty => "null"
    case Str(s) => s
    case Number(n) => IntText(n)
    case Boolean(b) => if b then "true" else "false"
    case Date(shown, _) => shown
  }

  /** `replace(/[^0-9-]+/g, '')`. */
  function KeepCountChars(s: string): (r: string)
    ensures forall i :: 0 <= i < |r| ==> IsDigit(r[i]) || r[i] == '-'
    ensures (forall i :: 0 <= i < |s| ==> IsDigit(s[i]) || s[i] == '-') ==> r == s
  {
    if s == [] then []
    else
      var rest := KeepCountChars(s[1..]);
      if IsDigit(s[0]) || s[0] == '-' then [s[0]] + rest else rest
  }

  /** The text before its first decimal point (all of it when there is none). */
  function WholePart(s: string): string
  {
    if s == [] || s[0] == '.' then [] else [s[0]] + WholePart(s[1..])
  }

  /** The digits a count cell evidently means: currency signs and separators dropped
      from the whole part, so a decimal point ends the number. The source
      applies `replace(/[^0-9-]+/g, '')` to the whole text, which drops the
      point and reads the fraction's digits as more digits of the count.
      The whole part ends at the first point of the text, so a point before
      the digits ("No. 5") leaves no digits at all. */
  function CountChars(s: string): string
  {
    KeepCountChars(WholePart(s))
  }

  /** Text without a decimal point is its own whole part. */
  lemma {:induction false} WholePartNoPoint(s: string)
    requires '.' !in s
    ensures WholePart(s) == s
  {
    if s != [] {
      assert '.' !in s[1..] by {
        forall i | 0 <= i < |s[1..]| ensures s[1..][i] != '.' {
          assert s[1..][i] == s[i + 1];
        }
      }
      WholePartNoPoint(s[1..]);
      assert [s[0]] + s[1..] == s;
    }
  }

  /** The whole part stops at the first point. */
  lemma {:induction false} WholePartOfDecimal(a: string, b: string)
    requires '.' !in a
    ensures WholePart(a + "." + b) == a
  {
    if a != [] {
      assert (a + "." + b)[1..] == a[1..] + "." + b;
      assert '.' !in a[1..] by {
        forall i | 0 <= i < |a[1..]| ensures a[1..][i] != '.' {
          assert a[1..][i] == a[i + 1];
        }
      }
      WholePartOfDecimal(a[1..], b);
      assert [a[0]] + a[1..] == a;
    } else {
      assert (a + "." + b)[0] == '.';
    }
  }

  /** `replace(/[^0-9.-]+/g, '')`. */
  function KeepAmountChars(s: string): (r: string)
    ensures forall i :: 0 <= i < |r| ==> IsDigit(r[i]) || r[i] == '-' || r[i] == '.'
  {
    if s == [] then []
    else
      var rest := KeepAmountChars(s[1..]);
      if IsDigit(s[0]) || s[0] == '-' || s[0] == '.' then [s[0]] + rest else rest
  }

  // ---- coercion by column ----

  /** The flag is set for '1', 'true' or 'yes' in any case, and for nothing
      else: no trimming, so ' yes' is false, and null is 'null'. */
  function ActiveFlag(c: Cell): (b: bool)
  {
    var t := ToLower(Shown(c));
    t == "1" || t == "true" || t == "yes"
  }

  predicate IsCountColumn(c: Column)
  {
    c in {NewPayGroupCount, LivePayrollCount, TotalActiveEmployees, TotalEmployeesPaid, TotalChecksAndVouchers}
  }

  /** `YYYY-MM`: four digits, a dash, two digits. */
  predicate IsYearMonth(s: string)
  {
    |s| == 7 && AllDigits(s[..4]) && s[4] == '-' && AllDigits(s[5..])
  }

  /** `toISOString().split('T')[0].substring(0, 8) + '01'`. */
  function FirstOfMonth(isoDay: string): string
  {
    (if |isoDay| >= 8 then isoDay[..8] else isoDay) + "01"
  }

  function MonthValue(c: Cell, dateOf: Cell -> Option<string>): Value
  {
    if c.Date? then Text(FirstOfMonth(c.isoDay))
    else if dateOf(c).Some? then Text(FirstOfMonth(dateOf(c).value))
    else
      var t := Trim(Shown(c));
      if IsYearMonth(t) then Text(t + "-01") else Kept(c)
  }

  /** The value a cell becomes under key `k`. */
  function Coerce(k: Key, c: Cell, dateOf: Cell -> Option<string>): Value
  {
    match k
    case Other(_) => if c.Empty? then Null else Text(Trim(Shown(c)))
    case Col(col) =>
      if col == IsPayGroupActive then Flag(ActiveFlag(c))
      else if col == TotalBilling || col == TotalOneTimeBilling then
        (if c.Empty? then Null else Amount(KeepAmountChars(Shown(c))))
      else if IsCountColumn(col) then
        (if c.Empty? then Null else Count(CountChars(Shown(c))))
      else if col == MonthYear then MonthValue(c, dateOf)
      else if c.Empty? then Null else Text(Trim(Shown(c)))
  }

  // ---- one row ----

  predicate HasHeader(row: SheetRow, h: string)
  {
    exists i :: 0 <= i < |row| && row[i].0 == h
  }

  /** The first header of `cs` the row lacks, if any. */
  function MissingHeader(row: SheetRow, cs: seq<Column>): (m: Option<Column>)
    ensures m.None? <==> forall c :: c in cs ==> HasHeader(row, Header(c))
    ensures m.Some? ==> m.value in cs && !HasHeader(row, Header(m.value))
  {
    if cs == [] then None
    else if !HasHeader(row, Header(cs[0])) then Some(cs[0])
    else MissingHeader(row, cs[1..])
  }

  /** Entries renamed by `rename` and converted by `coerce`, in order, a
      later entry overwriting an earlier one renamed to the same key. */
  function Renamed(row: SheetRow, rename: string -> Key, coerce: (Key, Cell, Cell -> Option<string>) -> Value,
                   dateOf: Cell -> Option<string>): map<Key, Value>
  {
    if row == [] then map[]
    else
      var e := row[|row| - 1];
      Renamed(row[..|row| - 1], rename, coerce, dateOf)[rename(e.0) := coerce(rename(e.0), e.1, dateOf)]
  }

  /** The renamed map has one key per renamed entry, and each holds the
      converted value of the last entry renamed to it. */
  lemma {:induction false} RenamedEntries(row: SheetRow, rename: string -> Key,
                                          coerce: (Key, Cell, Cell -> Option<string>) -> Value,
                                          dateOf: Cell -> Option<string>)
    ensures forall k :: k in Renamed(row, rename, coerce, dateOf) <==> exists i :: 0 <= i < |row| && rename(row[i].0) == k
    ensures forall i :: 0 <= i < |row| && (forall j :: i < j < |row| ==> rename(row[j].0) != rename(row[i].0)) ==>
              Renamed(row, rename, coerce, dateOf)[rename(row[i].0)] == coerce(rename(row[i].0), row[i].1, dateOf)
  {
    RenamedKeys(row, rename, coerce, dateOf);
    RenamedValues(row, rename, coerce, dateOf);
  }

  lemma {:induction false} RenamedKeys(row: SheetRow, rename: string -> Key,
                                       coerce: (Key, Cell, Cell -> Option<string>) -> Value,
                                       dateOf: Cell -> Option<string>)
    ensures forall k :: k in Renamed(row, rename, coerce, dateOf) <==> exists i :: 0 <= i < |row| && rename(row[i].0) == k
  {
    if row != [] {
      var init := row[..|row| - 1];
      RenamedKeys(init, rename, coerce, dateOf);
      assert forall i :: 0 <= i < |init| ==> init[i] == row[i];
    }
  }

  lemma {:induction false} RenamedValues(row: SheetRow, rename: string -> Key,
                                         coerce: (Key, Cell, Cell -> Option<string>) -> Value,
                                         dateOf: Cell -> Option<string>)
    ensures forall i :: 0 <= i < |row| && (forall j :: i < j < |row| ==> rename(row[j].0) != rename(row[i].0)) ==>
              rename(row[i].0) in Renamed(row, rename, coerce, dateOf) &&
              Renamed(row, rename, coerce, dateOf)[rename(row[i].0)] == coerce(rename(row[i].0), row[i].1, dateOf)
  {
    if row != [] {
      var init, e := row[..|row| - 1], row[|row| - 1];
      RenamedValues(init, rename, coerce, dateOf);
      forall i | 0 <= i < |row| && (forall j :: i < j < |row| ==> rename(row[j].0) != rename(row[i].0))
        ensures rename(row[i].0) in Renamed(row, rename, coerce, dateOf)
        ensures Renamed(row, rename, coerce, dateOf)[rename(row[i].0)] == coerce(rename(row[i].0), row[i].1, dateOf)
      {
        if i < |init| {
          assert init[i] == row[i];
          assert forall j :: i < j < |init| ==> init[j] == row[j];
        }
      }
    }
  }

  /** The cleaned row: keys through `NewKey`, values through `Coerce`. */
  function Cleaned(row: SheetRow, dateOf: Cell -> Option<string>): CleanRow
  {
    Renamed(row, NewKey, Coerce, dateOf)
  }

  /** The `forEach` over the row's entries. */
  method CleanRowEntries(row: SheetRow, dateOf: Cell -> Option<string>) returns (cleaned: CleanRow)
    ensures cleaned == Cleaned(row, dateOf)
  {
    cleaned := map[];
    var i := 0;
    while i < |row|
      invariant 0 <= i <= |row|
      invariant cleaned == Renamed(row[..i], NewKey, Coerce, dateOf)
    {
      var (key, value) := row[i];
      var newKey := NewKey(key);
      cleaned := cleaned[newKey := Coerce(newKey, value, dateOf)];
      assert row[..i + 1][..i] == row[..i];
      i := i + 1;
    }
    assert row[..i] == row;
  }

  /** `parsedData.map(...)`: the first row missing a header aborts the
      whole sheet with that header's name. */
  function CleanSheet(sheet: seq<SheetRow>, dateOf: Cell -> Option<string>): (r: Result<seq<CleanRow>, string>)
    ensures r.Ok? <==> forall i :: 0 <= i < |sheet| ==> MissingHeader(sheet[i], Columns).None?
    ensures r.Ok? ==> |r.value| == |sheet| && forall i :: 0 <= i < |sheet| ==> r.value[i] == Cleaned(sheet[i], dateOf)
  {
    var m := FirstMissing(sheet);
    if m.Some? then Err("Missing required column: " + Header(m.value))
    else Ok(seq(|sheet|, i requires 0 <= i < |sheet| => Cleaned(sheet[i], dateOf)))
  }

  /** The first missing header of the first row that lacks one. */
  function FirstMissing(sheet: seq<SheetRow>): (m: Option<Column>)
    ensures m.None? <==> forall i :: 0 <= i < |sheet| ==> MissingHeader(sheet[i], Columns).None?
  {
    if sheet == [] then None
    else if MissingHeader(sheet[0], Columns).Some? then MissingHeader(sheet[0], Columns)
    else
      assert forall i :: 1 <= i < |sheet| ==> sheet[1..][i - 1] == sheet[i];
      FirstMissing(sheet[1..])
  }

  /** A row carrying every expected header comes out with every column. */
  lemma CompleteRowHasAllColumns(row: SheetRow, dateOf: Cell -> Option<string>)
    requires MissingHeader(row, Columns).None?
    ensures forall c: Column :: Col(c) in Cleaned(row, dateOf)
  {
    RenamedEntries(row, NewKey, Coerce, dateOf);
    forall c: Column ensures Col(c) in Cleaned(row, dateOf) {
      ColumnListed(c);
      assert HasHeader(row, Header(c));
      var i :| 0 <= i < |row| && row[i].0 == Header(c);
      NewKeyOfHeader(c);
    }
  }

  // ---- coercion facts ----

  /** A whole number in a count column is read back exactly; null stays
      null. */
  lemma CountOfNumber(col: Column, n: int, dateOf: Cell -> Option<string>)
    requires IsCountColumn(col)
    ensures Coerce(Col(col), Number(n), dateOf).Count? && CountValue(Coerce(Col(col), Number(n), dateOf)) == Num(n)
    ensures Coerce(Col(col), Empty, dateOf) == Null
  {
    var t := IntText(n);
    IntTextHasNoPoint(n);
    WholePartNoPoint(t);
    assert KeepCountChars(t) == t;
    assert Coerce(Col(col), Number(n), dateOf) == Count(t);
    ParseIntText(n);
  }

  /** The text of a whole number is digits and a sign only. */
  lemma IntTextHasNoPoint(n: int)
    ensures forall i :: 0 <= i < |IntText(n)| ==> IsDigit(IntText(n)[i]) || IntText(n)[i] == '-'
    ensures '.' !in IntText(n)
  {
    if n < 0 {
      var d := Decimal(-n);
      assert forall i :: 0 < i < |IntText(n)| ==> IntText(n)[i] == d[i - 1];
    }
  }

  /** Thousands separators and currency signs in a count are dropped. */
  lemma CountIgnoresSeparators()
    ensures Coerce(Col(TotalActiveEmployees), Str("$1,234"), x => None) == Count("1234")
  {
    assert IsCountColumn(TotalActiveEmployees);
    SeparatedCountChars();
  }

  lemma SeparatedCountChars()
    ensures CountChars("$1,234") == "1234"
  {
    assert WholePart("$1,234") == "$1,234";
    assert KeepCountChars("$1,234") == "1234";
  }

  /** As written, the decimal point goes with the separators: "12.5" in a
      count column is read as 125, where the corrected reading gives 12. */
  lemma CountDecimalAsWritten()
    ensures ParseInt(KeepCountChars("12.5")) == Num(125)
    ensures ParseInt(CountChars("12.5")) == Num(12)
  {
    assert KeepCountChars("12.5") == "125" by {
      assert KeepCountChars("5") == "5";
      assert KeepCountChars(".5") == "5";
    }
    assert Decimal(125) == "125" by {
      assert Decimal(12) == "12";
    }
    ParseIntDecimal(125);
    assert CountChars("12.5") == "12" by {
      assert WholePart("2.5") == "2";
      assert WholePart("12.5") == "12";
    }
    assert Decimal(12) == "12";
    ParseIntDecimal(12);
  }

  /** Corrected: a whole number written with a decimal part, in a count
      column, is read as that whole number. */
  lemma CountReadsWholeNumber(col: Column, n: int, frac: string, dateOf: Cell -> Option<string>)
    requires IsCountColumn(col)
    ensures Coerce(Col(col), Str(IntText(n) + "." + frac), dateOf).Count?
    ensures CountValue(Coerce(Col(col), Str(IntText(n) + "." + frac), dateOf)) == Num(n)
  {
    var t := IntText(n);
    IntTextHasNoPoint(n);
    WholePartOfDecimal(t, frac);
    assert KeepCountChars(t) == t;
    assert Coerce(Col(col), Str(t + "." + frac), dateOf) == Count(t);
    ParseIntText(n);
  }

  /** parseInt reads the digits that are left. */
  lemma SeparatedCountValue()
    ensures CountValue(Count("1234")) == Num(1234)
  {
    assert Decimal(1) == "1";
    assert Decimal(12) == "12";
    assert Decimal(123) == "123";
    assert Decimal(1234) == "1234";
    ParseIntDecimal(1234);
  }

  /** The active flag: true, 1 and YES count, 'no', 0, null and a padded
      ' yes' do not. */
  lemma ActiveFlagCases()
    ensures ActiveFlag(Boolean(true)) && !ActiveFlag(Boolean(false))
    ensures ActiveFlag(Number(1)) && !ActiveFlag(Number(0))
    ensures ActiveFlag(Str("YES")) && !ActiveFlag(Str(" yes")) && !ActiveFlag(Empty)
  {
    assert ToLower("YES") == "yes";
    assert ToLower(" yes") == " yes";
    assert ToLower("null") == "null";
    assert Decimal(1) == "1" && Decimal(0) == "0";
    assert ToLower("1") == "1" && ToLower("0") == "0";
  }

  /** A month the date parser cannot read but written `YYYY-MM` becomes the
      first of that month; any month the parser reads is moved to the
      first of its month. */
  lemma MonthIsFirstOfMonth(c: Cell, dateOf: Cell -> Option<string>)
    requires !c.Date? && dateOf(c).None? && IsYearMonth(Trim(Shown(c)))
    ensures Coerce(Col(MonthYear), c, dateOf) == Text(Trim(Shown(c)) + "-01")
  {
    assert !IsCountColumn(MonthYear);
  }

  lemma ParsedMonthEndsInDay01(c: Cell, dateOf: Cell -> Option<string>)
    requires c.Date? || dateOf(c).Some?
    ensures var v := Coerce(Col(MonthYear), c, dateOf);
      v.Text? && |v.s| >= 2 && v.s[|v.s| - 2..] == "01"
  {
  }

  // ---- the page ----

  /** The page state: the cleaned rows waiting to be posted and the
      status line. */
  class ImportPage {
    var data: seq<CleanRow>
    var status: string

    constructor()
      ensures data == [] && status == ""
    {
      data := [];
      status := "";
    }

    /** No file was chosen: only the status changes. */
    method NoFile()
      modifies this
      ensures data == old(data) && status == "Please select a file to upload."
    {
      status := "Please select a file to upload.";
    }

    /** The file could not be read: the rows are cleared. */
    method ReadFailed()
      modifies this
      ensures data == [] && status == "Error reading file. Please try again."
    {
      status := "Error reading file. Please try again.";
      data := [];
    }

    /** The first sheet was read: either every row is cleaned and kept,
        or a missing header clears the rows. */
    method SheetRead(sheet: seq<SheetRow>, dateOf: Cell -> Option<string>)
      modifies this
      ensures CleanSheet(sheet, dateOf).Ok? ==>
                data == CleanSheet(sheet, dateOf).value && status == "File parsed successfully! Ready to upload."
      ensures CleanSheet(sheet, dateOf).Err? ==>
                data == [] && status == "Error parsing file: " + CleanSheet(sheet, dateOf).error
    {
      var r := CleanSheet(sheet, dateOf);
      if r.Ok? {
        data := r.value;
        status := "File parsed successfully! Ready to upload.";
      } else {
        status := "Error parsing file: " + r.error;
        data := [];
      }
    }

    /** `handleUpload`: nothing is posted while there are no rows; otherwise
        the rows are posted as they are. */
    method StartUpload() returns (posted: Option<seq<CleanRow>>)
      modifies this
      ensures data == old(data)
      ensures old(data) == [] ==> posted.None? && status == "No data to upload. Please select a file first."
      ensures old(data) != [] ==> posted == Some(old(data)) && status == old(status)
    {
      if |data| == 0 {
        status := "No data to upload. Please select a file first.";
        posted := None;
      } else {
        posted := Some(data);
      }
    }

    /** The post came back: success, or the server's error text, or
        'Upload failed' when it sent none. */
    method UploadDone(ok: bool, error: string)
      modifies this
      ensures data == old(data)
      ensures ok ==> status == "File uploaded successfully!"
      ensures !ok ==> status == "Upload failed: " + (if error == "" then "Upload failed" else error)
    {
      if ok {
        status := "File uploaded successfully!";
      } else {
        status := "Upload failed: " + (if error == "" then "Upload failed" else error);
      }
    }
  }

  /** A sheet with a row missing a header leaves nothing to post. */
  method BadSheetPostsNothing(sheet: seq<SheetRow>, dateOf: Cell -> Option<string>, i: nat)
    returns (posted: Option<seq<CleanRow>>)
    requires i < |sheet| && MissingHeader(sheet[i], Columns).Some?
    ensures posted.None?
  {
    var page := new ImportPage();
    page.SheetRead(sheet, dateOf);
    posted := page.StartUpload();
  }
}
