/** Count and FindPage of pgsql/table_operation.go. */
module Paging {
  import opened Common
  import opened Placeholders
  import opened WhereClauses

  type Record(==, !new)

  datatype Page = Page(total: nat, items: seq<Record>)

  function Min(a: nat, b: nat): nat {
    if a < b then a else b
  }

  function Rows(rows: seq<Record>, start: nat, stop: nat): seq<Record>
    requires start <= stop
  {
    rows[Min(start, |rows|)..Min(stop, |rows|)]
  }

  /** What the server answers to a statement: of the matching rows in their order, those its LIMIT and OFFSET leave. */
  function Answered(sql: string, rows: seq<Record>): seq<Record> {
    var read := ReadEnd(sql);
    Rows(rows, read.offset, read.offset + (if read.limit.Some? then read.limit.value else |rows|))
  }

  function PageSize(pageSize: int): (r: nat)
    ensures r >= 1
  {
    if pageSize < 1 then 10 else pageSize
  }

  function PageNumber(page: int): (r: nat)
    ensures r >= 1
  {
    if page < 1 then 1 else page
  }

  function Times(n: nat, size: nat): nat {
    n * size
  }

  /** Rows (p - 1) * size up to p * size, as far as there are any. */
  function PageOf(rows: seq<Record>, page: int, pageSize: int): seq<Record> {
    var start := Times(PageNumber(page) - 1, PageSize(pageSize));
    Rows(rows, start, start + PageSize(pageSize))
  }

  const BY_ID := "id ASC"

  /** The conditions of a builder as they stand in front of both queries' ends. */
  function ConditionsClause(calls: seq<Call>): string {
    if calls == [] then "" else " WHERE " + Join(Conditions(Texts(calls), 1), " AND ")
  }

  /** What Count asks: the conditions alone, without order, limit and offset. */
  method CountQuery(wb: WhereBuilder) returns (clause: string, args: seq<Value>)
    requires wb.Valid()
    ensures clause == ConditionsClause(wb.calls) && args == AllArgs(wb.calls)
  {
    hide AllArgs, Conditions, Join, EachArgAt, ArgCount, ClauseText, ConditionsClause;
    var newWb := new WhereBuilder.Copy(wb, "", 0, 0);
    clause, args := BuildSQL(newWb, 1);
    CountClause(wb.calls);
  }

  /** What FindPage asks for a page. */
  method DataQuery(wb: WhereBuilder, page: nat, size: nat) returns (clause: string, args: seq<Value>)
    requires wb.Valid() && page >= 1 && size >= 1
    ensures clause == DataText(wb.calls, wb.orderBy, page, size) && args == AllArgs(wb.calls)
  {
    hide AllArgs, Conditions, Join, EachArgAt, ArgCount, ClauseText, Digits, Times, DataText;
    var dataWb := new WhereBuilder.Copy(wb, wb.orderBy, size, Times(page - 1, size));
    if dataWb.orderBy == "" {
      dataWb.OrderBy(BY_ID);
    }
    clause, args := BuildSQL(dataWb, 1);
    DataClause(wb.calls, wb.orderBy, page, size);
  }

  /** The data clause, by id unless another order is wanted. */
  function DataText(calls: seq<Call>, orderBy: string, page: nat, size: nat): string
    requires page >= 1
  {
    ConditionsClause(calls) + " ORDER BY " + (if orderBy == "" then "id ASC" else orderBy) + " LIMIT " + Digits(size) +
    (if page > 1 then " OFFSET " + Digits(Times(page - 1, size)) else "")
  }

  /** `counted` is what the count query answers and `found` the matching rows when the data query runs, in the order
      it asks for, either None on an error; the server leaves of them what LIMIT and OFFSET of the clause sent say.
      Over unchanged data the page is the total with the rows of that page. The builder's own limit and offset play no
      part. */
  method FindPage(wb: WhereBuilder, page: int, pageSize: int, counted: Option<nat>, found: Option<seq<Record>>)
    returns (r: Option<Page>, clauses: seq<string>, args: seq<seq<Value>>)
    requires wb.Valid()
    ensures r.None? <==> counted.None? || (counted != Some(0) && found.None?)
    ensures r.Some? ==> Some(r.value.total) == counted && r.value.items == if counted == Some(0) then []
            else PageOf(found.value, page, pageSize)
    ensures r.Some? && counted != Some(0) ==> |clauses| == 2 && r.value.items == Answered(clauses[1], found.value)
    ensures found.Some? && counted == Some(|found.value|) ==>
            r == Some(Page(|found.value|, PageOf(found.value, page, pageSize)))
    ensures clauses == [ConditionsClause(wb.calls)] + if counted.None? || counted == Some(0) then [] else
              [DataText(wb.calls, wb.orderBy, if page < 1 then 1 else page, if pageSize < 1 then 10 else pageSize)]
    ensures r.Some? && counted != Some(0) ==>
              var p, n := if page < 1 then 1 else page, if pageSize < 1 then 10 else pageSize;
              ReadEnd(clauses[1]) ==
              Reading((if wb.calls == [] then "" else " WHERE " + Join(Conditions(Texts(wb.calls), 1), " AND ")) +
                      " ORDER BY " + (if wb.orderBy == "" then "id ASC" else wb.orderBy), Some(n), Times(p - 1, n))
    ensures |args| == |clauses| && forall i :: 0 <= i < |args| ==> args[i] == AllArgs(wb.calls)
  {
    hide AllArgs, Digits, Times, PageOf, Answered, ConditionsClause, DataText, ReadEnd, Conditions, Join, Texts;
    var thePage, size := page, pageSize;
    if thePage < 1 {
      thePage := 1;
    }
    if size < 1 {
      size := 10;
    }
    var countClause, countArgs := CountQuery(wb);
    clauses, args := [countClause], [countArgs];
    if counted.None? {
      return None, clauses, args;
    }
    var count := counted.value;
    if count == 0 {
      NoRows(page, pageSize);
      return Some(Page(0, [])), clauses, args;
    }
    var dataClause, dataArgs := DataQuery(wb, thePage, size);
    clauses, args := clauses + [dataClause], args + [dataArgs];
    if found.None? {
      return None, clauses, args;
    }
    AnswerIsPage(wb.calls, wb.orderBy, page, pageSize, found.value);
    EndOfData(wb.calls, wb.orderBy, thePage, size);
    r := Some(Page(count, Answered(dataClause, found.value)));
  }

  lemma NoRows(page: int, pageSize: int)
    ensures PageOf([], page, pageSize) == []
  {
  }

  lemma CountClause(calls: seq<Call>)
    ensures ClauseText(Texts(calls), "", 0, 0, 1) == ConditionsClause(calls)
  {
    hide Conditions, Join;
  }

  lemma TimesPositive(p: nat, n: nat)
    requires p >= 1 && n >= 1
    ensures Times(p - 1, n) > 0 <==> p > 1
  {
  }

  lemma Regroup(a: string, b: string, c: string, d: string, e: string, f: string)
    ensures a + (b + c + (d + e) + f) == a + b + c + d + e + f
  {
    assert b + c + (d + e) == b + c + d + e;
    assert a + (b + c + d + e + f) == a + (b + c + d + e) + f;
    assert a + (b + c + d + e) == a + b + c + d + e;
  }

  /** The data clause, and what the server reads at its end. */
  lemma DataClause(calls: seq<Call>, orderBy: string, p: nat, n: nat)
    requires p >= 1 && n >= 1
    ensures var order := if orderBy == "" then "id ASC" else orderBy;
            && ClauseText(Texts(calls), order, n, Times(p - 1, n), 1) == DataText(calls, orderBy, p, n)
            && ReadEnd(DataText(calls, orderBy, p, n)) ==
                 Reading(ConditionsClause(calls) + " ORDER BY " + order, Some(n), Times(p - 1, n))
  {
    hide Conditions, Join, ReadEnd, Digits, Times;
    var order := if orderBy == "" then "id ASC" else orderBy;
    TimesPositive(p, n);
    EndRead(ConditionsClause(calls) + " ORDER BY " + order, n, Times(p - 1, n));
    Regroup(ConditionsClause(calls), " ORDER BY ", order, " LIMIT ", Digits(n),
            if p > 1 then " OFFSET " + Digits(Times(p - 1, n)) else "");
  }

  lemma EndOfData(calls: seq<Call>, orderBy: string, p: nat, n: nat)
    requires p >= 1 && n >= 1
    ensures ReadEnd(DataText(calls, orderBy, p, n)) ==
            Reading((if calls == [] then "" else " WHERE " + Join(Conditions(Texts(calls), 1), " AND ")) +
                    " ORDER BY " + (if orderBy == "" then "id ASC" else orderBy), Some(n), Times(p - 1, n))
  {
    hide ReadEnd, DataText, Conditions, Join, Texts;
    DataClause(calls, orderBy, p, n);
  }

  /** Read off the clause sent, the answer is the page. */
  lemma AnswerIsPage(calls: seq<Call>, orderBy: string, page: int, pageSize: int, rows: seq<Record>)
    ensures Answered(DataText(calls, orderBy, PageNumber(page), PageSize(pageSize)), rows) ==
            PageOf(rows, page, pageSize)
  {
    hide ClauseText, Rows, ReadEnd, ConditionsClause, DataText;
    DataClause(calls, orderBy, PageNumber(page), PageSize(pageSize));
  }

  /** Pages 1 to n, one after the other. */
  function FirstPages(rows: seq<Record>, n: nat, pageSize: int): seq<Record> {
    if n == 0 then [] else FirstPages(rows, n - 1, pageSize) + PageOf(rows, n, pageSize)
  }

  function PageCount(total: nat, pageSize: int): nat {
    (total + PageSize(pageSize) - 1) / PageSize(pageSize)
  }

  lemma RowsConcat(rows: seq<Record>, a: nat, b: nat)
    requires a <= b
    ensures Rows(rows, 0, a) + Rows(rows, a, b) == Rows(rows, 0, b)
  {
  }

  lemma TimesNext(n: nat, size: nat)
    requires n >= 1
    ensures Times(n, size) == Times(n - 1, size) + size && Times(0, size) == 0
  {
  }

  lemma PageIs(rows: seq<Record>, page: nat, pageSize: int)
    requires page >= 1
    ensures Times(page, PageSize(pageSize)) == Times(page - 1, PageSize(pageSize)) + PageSize(pageSize)
    ensures PageOf(rows, page, pageSize) ==
            Rows(rows, Times(page - 1, PageSize(pageSize)), Times(page, PageSize(pageSize)))
  {
    hide Rows, Times;
    TimesNext(page, PageSize(pageSize));
  }

  lemma {:induction false} FirstPagesIs(rows: seq<Record>, n: nat, pageSize: int)
    ensures FirstPages(rows, n, pageSize) == Rows(rows, 0, Times(n, PageSize(pageSize)))
  {
    hide PageOf, Rows, Times;
    TimesNext(1, PageSize(pageSize));
    if n == 0 {
      NothingYet(rows);
    } else {
      FirstPagesIs(rows, n - 1, pageSize);
      PageIs(rows, n, pageSize);
      RowsConcat(rows, Times(n - 1, PageSize(pageSize)), Times(n, PageSize(pageSize)));
    }
  }

  lemma NothingYet(rows: seq<Record>)
    ensures Rows(rows, 0, 0) == []
  {
  }

  lemma CountBounds(total: nat, size: nat)
    requires size >= 1
    ensures var n := (total + size - 1) / size; Times(n, size) >= total && (n > 0 ==> Times(n - 1, size) < total)
  {
    var n := (total + size - 1) / size;
    assert total + size - 1 == n * size + (total + size - 1) % size;
    if n > 0 { TimesNext(n, size); }
  }

  /** Over unchanged data in a fixed order, pages 1 to ceil(total / size), one after the other, are every matching row
      exactly once and in order. */
  lemma PagesCover(rows: seq<Record>, pageSize: int)
    ensures FirstPages(rows, PageCount(|rows|, pageSize), pageSize) == rows
  {
    hide Times, FirstPages;
    CountBounds(|rows|, PageSize(pageSize));
    FirstPagesIs(rows, PageCount(|rows|, pageSize), pageSize);
  }

  lemma {:induction false} Monotone(a: nat, b: nat, size: nat)
    requires a <= b
    ensures Times(a, size) <= Times(b, size)
  {
    if a < b {
      TimesNext(b, size);
      Monotone(a, b - 1, size);
    }
  }

  /** Every page but the last is full, the last is not empty, and there is nothing behind it. */
  lemma PageLengths(rows: seq<Record>, pageSize: int, page: nat)
    requires page >= 1
    ensures page < PageCount(|rows|, pageSize) ==> |PageOf(rows, page, pageSize)| == PageSize(pageSize)
    ensures page == PageCount(|rows|, pageSize) ==> PageOf(rows, page, pageSize) != []
    ensures page > PageCount(|rows|, pageSize) ==> PageOf(rows, page, pageSize) == []
  {
    hide Times, PageOf, PageSize, PageCount;
    var size := PageSize(pageSize);
    var n := PageCount(|rows|, pageSize);
    PageCountIs(|rows|, pageSize);
    PageIs(rows, page, pageSize);
    if page < n {
      Monotone(page, n - 1, size);
    } else if page > n {
      Monotone(n, page - 1, size);
    }
  }

  lemma PageCountIs(total: nat, pageSize: int)
    ensures var n, size := PageCount(total, pageSize), PageSize(pageSize);
            Times(n, size) >= total && (n > 0 ==> Times(n - 1, size) < total)
  {
    CountBounds(total, PageSize(pageSize));
  }
}
