/**
 * `aggregateMonthlyData` of src/GenerateInvoice.js: a month's usage rows
 * may list one client several times; before fees are computed they are
 * collapsed into one row per client code, in the order in which each code
 * first occurs. Employee counts are summed, the pay group is active when
 * any of the rows is, and the client name is the last one seen.
 *
 * The source folds the rows into an accumulator list and updates the
 * matching accumulator entry in place; `AggregateMonthlyData` is that loop,
 * proved equal to the recursive definition `Aggregate`, whose properties
 * are the lemmas below.
 */
module MonthlyAggregation {
  import opened Common

  /** One usage row of the monthly import, as the invoice page reads it. */
  datatype UsageRow = UsageRow(
    clientCode: string,
    clientName: string,
    isPayGroupActive: bool,
    totalActiveEmployees: nat,
    totalEmployeesPaid: nat)

  /** `acc.find(item => item.client_code === code)`, as an index. */
  function IndexOf(acc: seq<UsageRow>, code: string): (j: Option<nat>)
    ensures j.Some? ==> j.value < |acc| && acc[j.value].clientCode == code
    ensures j.Some? ==> forall k :: 0 <= k < j.value ==> acc[k].clientCode != code
    ensures j.None? ==> forall k :: 0 <= k < |acc| ==> acc[k].clientCode != code
  {
    if acc == [] then None
    else if acc[0].clientCode == code then Some(0)
    else
      var j := IndexOf(acc[1..], code);
      if j.Some? then Some(j.value + 1) else None
  }

  /** The first position whose code matches, found by a left-to-right scan. */
  lemma IndexOfFirst(acc: seq<UsageRow>, code: string, j: nat)
    requires j <= |acc| && (j < |acc| ==> acc[j].clientCode == code)
    requires forall k :: 0 <= k < j ==> acc[k].clientCode != code
    ensures IndexOf(acc, code) == if j < |acc| then Some(j) else None
  {
  }

  /** The in-place update of the accumulator entry for a repeated client. */
  function Merge(existing: UsageRow, current: UsageRow): UsageRow
  {
    existing.(
      totalActiveEmployees := existing.totalActiveEmployees + current.totalActiveEmployees,
      totalEmployeesPaid := existing.totalEmployeesPaid + current.totalEmployeesPaid,
      isPayGroupActive := existing.isPayGroupActive || current.isPayGroupActive,
      clientName := current.clientName)
  }

  /** One step of the reduce: merge into the existing entry, or append a copy. */
  function Step(acc: seq<UsageRow>, current: UsageRow): seq<UsageRow>
  {
    var j := IndexOf(acc, current.clientCode);
    if j.Some? then acc[j.value := Merge(acc[j.value], current)] else acc + [current]
  }

  function Aggregate(rows: seq<UsageRow>): seq<UsageRow>
  {
    if rows == [] then [] else Step(Aggregate(rows[..|rows| - 1]), rows[|rows| - 1])
  }

  /** The accumulator's `find` by client code: the position of the first
      match, or `|acc|` when there is none. */
  method FindClient(acc: seq<UsageRow>, code: string) returns (j: nat)
    ensures j <= |acc|
    ensures IndexOf(acc, code) == if j < |acc| then Some(j) else None
  {
    j := 0;
    while j < |acc| && acc[j].clientCode != code
      invariant 0 <= j <= |acc|
      invariant forall k :: 0 <= k < j ==> acc[k].clientCode != code
    {
      j := j + 1;
    }
    IndexOfFirst(acc, code, j);
  }

  /** The reduce loop of the source. */
  method AggregateMonthlyData(rows: seq<UsageRow>) returns (acc: seq<UsageRow>)
    ensures acc == Aggregate(rows)
  {
    acc := [];
    var i := 0;
    while i < |rows|
      invariant 0 <= i <= |rows|
      invariant acc == Aggregate(rows[..i])
    {
      var current := rows[i];
      var j := FindClient(acc, current.clientCode);
      assert rows[..i + 1][..i] == rows[..i];
      assert Aggregate(rows[..i + 1]) == Step(acc, current);
      if j < |acc| {
        var existing := acc[j];
        existing := existing.(totalActiveEmployees := existing.totalActiveEmployees + current.totalActiveEmployees);
        existing := existing.(totalEmployeesPaid := existing.totalEmployeesPaid + current.totalEmployeesPaid);
        existing := existing.(isPayGroupActive := existing.isPayGroupActive || current.isPayGroupActive);
        existing := existing.(clientName := current.clientName);
        assert acc[j := existing] == Step(acc, current);
        acc := acc[j := existing];
      } else {
        acc := acc + [current];
      }
      i := i + 1;
    }
    assert rows[..|rows|] == rows;
  }

  // ---- reference definitions, per client code ----

  function Codes(rows: seq<UsageRow>): (cs: seq<string>)
    ensures |cs| == |rows| && forall i :: 0 <= i < |rows| ==> cs[i] == rows[i].clientCode
  {
    seq(|rows|, i requires 0 <= i < |rows| => rows[i].clientCode)
  }

  function EmployeesOf(rows: seq<UsageRow>, code: string): nat
  {
    if rows == [] then 0
    else EmployeesOf(rows[..|rows| - 1], code)
         + (if rows[|rows| - 1].clientCode == code then rows[|rows| - 1].totalActiveEmployees else 0)
  }

  function PaidOf(rows: seq<UsageRow>, code: string): nat
  {
    if rows == [] then 0
    else PaidOf(rows[..|rows| - 1], code)
         + (if rows[|rows| - 1].clientCode == code then rows[|rows| - 1].totalEmployeesPaid else 0)
  }

  function AnyActive(rows: seq<UsageRow>, code: string): bool
  {
    if rows == [] then false
    else AnyActive(rows[..|rows| - 1], code)
         || (rows[|rows| - 1].clientCode == code && rows[|rows| - 1].isPayGroupActive)
  }

  function LastName(rows: seq<UsageRow>, code: string): string
  {
    if rows == [] then ""
    else if rows[|rows| - 1].clientCode == code then rows[|rows| - 1].clientName
    else LastName(rows[..|rows| - 1], code)
  }

  /** The row that aggregation must produce for `code`. */
  function Combined(rows: seq<UsageRow>, code: string): UsageRow
  {
    UsageRow(code, LastName(rows, code), AnyActive(rows, code), EmployeesOf(rows, code), PaidOf(rows, code))
  }

  function TotalEmployees(rows: seq<UsageRow>): nat
  {
    if rows == [] then 0 else TotalEmployees(rows[..|rows| - 1]) + rows[|rows| - 1].totalActiveEmployees
  }

  // ---- properties ----

  /** The output has one row per client code, in first-occurrence order. */
  lemma {:induction false} AggregateCodes(rows: seq<UsageRow>)
    ensures Codes(Aggregate(rows)) == FirstOccurrences(Codes(rows))
  {
    if rows != [] {
      var init, r := rows[..|rows| - 1], rows[|rows| - 1];
      AggregateCodes(init);
      var acc := Aggregate(init);
      assert Codes(rows)[..|rows| - 1] == Codes(init);
      var j := IndexOf(acc, r.clientCode);
      if j.Some? {
        assert Codes(Step(acc, r)) == Codes(acc);
        assert r.clientCode in Codes(acc);
      } else {
        assert Codes(Step(acc, r)) == Codes(acc) + [r.clientCode];
        assert r.clientCode !in Codes(acc);
      }
    }
  }

  lemma AggregateDistinct(rows: seq<UsageRow>)
    ensures Distinct(Codes(Aggregate(rows)))
    ensures forall c :: c in Codes(Aggregate(rows)) <==> c in Codes(rows)
  {
    AggregateCodes(rows);
    FirstOccurrencesMembers(Codes(rows));
  }

  lemma {:induction false} AbsentCode(rows: seq<UsageRow>, code: string)
    requires code !in Codes(rows)
    ensures EmployeesOf(rows, code) == 0 && PaidOf(rows, code) == 0 && !AnyActive(rows, code)
  {
    if rows != [] {
      var init := rows[..|rows| - 1];
      assert forall c :: c in Codes(init) ==> c in Codes(rows) by {
        assert Codes(rows)[..|rows| - 1] == Codes(init);
      }
      AbsentCode(init, code);
    }
  }

  /** Every aggregated row is the combination of all input rows with its code:
      summed counts, OR of the active flags, last-seen name. */
  lemma {:induction false} AggregateCombines(rows: seq<UsageRow>, i: nat)
    requires i < |Aggregate(rows)|
    ensures Aggregate(rows)[i] == Combined(rows, Aggregate(rows)[i].clientCode)
  {
    var init, r := rows[..|rows| - 1], rows[|rows| - 1];
    var acc := Aggregate(init);
    AggregateDistinct(init);
    var j := IndexOf(acc, r.clientCode);
    var c := Aggregate(rows)[i].clientCode;
    if j.Some? {
      assert Aggregate(rows) == acc[j.value := Merge(acc[j.value], r)];
      AggregateCombines(init, i);
      if i != j.value {
        assert Codes(acc)[i] != Codes(acc)[j.value];
      }
    } else if i < |acc| {
      AggregateCombines(init, i);
      assert acc[i].clientCode != r.clientCode;
    } else {
      assert r.clientCode !in Codes(acc);
      AbsentCode(init, r.clientCode);
    }
  }

  /** Aggregating rows whose codes are already distinct changes nothing
      (so aggregation is idempotent). */
  lemma {:induction false} AggregateUniqueIsIdentity(rows: seq<UsageRow>)
    requires Distinct(Codes(rows))
    ensures Aggregate(rows) == rows
  {
    if rows != [] {
      var init, r := rows[..|rows| - 1], rows[|rows| - 1];
      DistinctCodesSplit(rows);
      AggregateUniqueIsIdentity(init);
      assert Aggregate(rows) == Step(init, r);
      assert IndexOf(init, r.clientCode).None?;
      assert init + [r] == rows;
    }
  }

  /** With distinct codes, the rows before the last are distinct too, and
      none of them has the last row's code. */
  lemma DistinctCodesSplit(rows: seq<UsageRow>)
    requires rows != [] && Distinct(Codes(rows))
    ensures Distinct(Codes(rows[..|rows| - 1]))
    ensures forall k :: 0 <= k < |rows| - 1 ==> rows[k].clientCode != rows[|rows| - 1].clientCode
  {
    var init := rows[..|rows| - 1];
    var cs := Codes(rows);
    forall i, j | 0 <= i < j < |init| ensures Codes(init)[i] != Codes(init)[j] {
      assert Codes(init)[i] == cs[i] && Codes(init)[j] == cs[j];
    }
    forall k | 0 <= k < |rows| - 1 ensures rows[k].clientCode != rows[|rows| - 1].clientCode {
      assert cs[k] != cs[|rows| - 1];
    }
  }

  lemma {:induction false} TotalEmployeesUpdate(s: seq<UsageRow>, j: nat, x: UsageRow)
    requires j < |s|
    ensures TotalEmployees(s[j := x]) + s[j].totalActiveEmployees == TotalEmployees(s) + x.totalActiveEmployees
  {
    if j < |s| - 1 {
      assert s[j := x][..|s| - 1] == s[..|s| - 1][j := x];
      TotalEmployeesUpdate(s[..|s| - 1], j, x);
    } else {
      assert s[j := x][..|s| - 1] == s[..|s| - 1];
    }
  }

  /** No employee is lost or counted twice by aggregation. */
  lemma {:induction false} AggregateKeepsTotal(rows: seq<UsageRow>)
    ensures TotalEmployees(Aggregate(rows)) == TotalEmployees(rows)
  {
    if rows != [] {
      var init, r := rows[..|rows| - 1], rows[|rows| - 1];
      AggregateKeepsTotal(init);
      var acc := Aggregate(init);
      var j := IndexOf(acc, r.clientCode);
      if j.Some? {
        TotalEmployeesUpdate(acc, j.value, Merge(acc[j.value], r));
      } else {
        assert (acc + [r])[..|acc|] == acc;
      }
    }
  }
}
