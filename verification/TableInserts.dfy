/** InsertMany of pgsql/table_operation.go and buildValuesSQL of pgsql/table.go. */
module TableInserts {
  import opened Common
  import opened Placeholders

  // ---------------------------------------------------------------- the VALUES list

  /** The placeholders of one row, the first numbered base + 1. */
  function RowMarks(base: nat, colCount: nat): seq<string> {
    seq(colCount, j requires 0 <= j < colCount => "$" + Digits(base + j + 1))
  }

  function RowText(base: nat, colCount: nat): string {
    "(" + Join(RowMarks(base, colCount), COMMA) + ")"
  }

  function RowStart(i: nat, colCount: nat): nat {
    i * colCount
  }

  function RowTexts(rowCount: nat, colCount: nat): seq<string> {
    seq(rowCount, i requires 0 <= i < rowCount => RowText(RowStart(i, colCount), colCount))
  }

  /** buildValuesSQL: two nested loops filling a slice of rows and a slice per row. */
  method BuildValues(rowCount: nat, colCount: nat) returns (values: string)
    ensures values == Join(RowTexts(rowCount, colCount), COMMA)
  {
    hide Digits, Join;
    var rows := new string[rowCount];
    for i := 0 to rowCount
      invariant forall k :: 0 <= k < i ==> rows[k] == RowText(RowStart(k, colCount), colCount)
    {
      var ph := new string[colCount];
      var base := i * colCount;
      for j := 0 to colCount
        invariant forall k :: 0 <= k < j ==> ph[k] == "$" + Digits(base + k + 1)
        invariant forall k :: 0 <= k < i ==> rows[k] == RowText(RowStart(k, colCount), colCount)
      {
        ph[j] := "$" + Digits(base + j + 1);
      }
      assert ph[..] == RowMarks(base, colCount);
      rows[i] := "(" + Join(ph[..], COMMA) + ")";
    }
    assert rows[..] == RowTexts(rowCount, colCount);
    values := Join(rows[..], COMMA);
  }

  /** A row of values as the server should see it. */
  function RowPieces(row: seq<Value>): seq<Piece> {
    Chars("(") + JoinPieces(Args(row), ", ") + Chars(")")
  }

  function Args(row: seq<Value>): seq<seq<Piece>> {
    seq(|row|, j requires 0 <= j < |row| => [Arg(row[j])])
  }

  lemma MarkMeans(n: nat, args: seq<Value>)
    requires n < |args|
    ensures Bind(Tokens("$" + Digits(n + 1)), args) == [Arg(args[n])]
  {
    assert "$" + Digits(n + 1) + "" == "$" + Digits(n + 1);
    TokensOfMark(Digits(n + 1), "");
    ParseDigits(n + 1);
    assert Bind([], args) == [];
  }

  lemma RowMeans(base: nat, row: seq<Value>, args: seq<Value>)
    requires Holds(args, base, row)
    ensures Bind(Tokens(RowText(base, |row|)), args) == RowPieces(row)
  {
    hide Tokens, Bind, Digits, Join, JoinPieces;
    var marks := RowMarks(base, |row|);
    forall j | 0 <= j < |row| ensures Bind(Tokens(marks[j]), args) == Args(row)[j] { MarkMeans(base + j, args); }
    BindJoin(marks, Args(row), COMMA, args);
    PlainThen("(", Join(marks, COMMA), args);
    BindBefore("(" + Join(marks, COMMA), ")", args);
  }

  function Flatten(rows: seq<seq<Value>>): seq<Value> {
    if rows == [] then [] else Flatten(rows[..|rows| - 1]) + rows[|rows| - 1]
  }

  predicate Rectangular(rows: seq<seq<Value>>, colCount: nat) {
    forall i :: 0 <= i < |rows| ==> |rows[i]| == colCount
  }

  lemma HoldsInFront(args: seq<Value>, more: seq<Value>, at: nat, own: seq<Value>)
    ensures Holds(args, at, own) ==> Holds(args + more, at, own)
  {
  }

  lemma HoldsAtEnd(args: seq<Value>, own: seq<Value>)
    ensures Holds(args + own, |args|, own)
  {
  }

  /** Row i of the table starts at i * colCount in the flattened arguments. */
  lemma {:induction false} FlattenAt(rows: seq<seq<Value>>, colCount: nat, i: nat)
    requires Rectangular(rows, colCount) && i < |rows|
    ensures |Flatten(rows)| == |rows| * colCount && Holds(Flatten(rows), RowStart(i, colCount), rows[i])
  {
    hide Holds;
    var n := |rows| - 1;
    var front := rows[..n];
    if n > 0 { FlattenAt(front, colCount, if i < n then i else 0); }
    assert |rows| * colCount == n * colCount + colCount;
    assert |Flatten(front)| == n * colCount;
    if i < n { assert front[i] == rows[i]; }
    HoldsInFront(Flatten(front), rows[n], RowStart(i, colCount), rows[i]);
    HoldsAtEnd(Flatten(front), rows[n]);
  }

  function RowsPieces(rows: seq<seq<Value>>): seq<seq<Piece>> {
    seq(|rows|, i requires 0 <= i < |rows| => RowPieces(rows[i]))
  }

  lemma EachRowMeans(rows: seq<seq<Value>>, colCount: nat, i: nat)
    requires Rectangular(rows, colCount) && i < |rows|
    ensures Bind(Tokens(RowTexts(|rows|, colCount)[i]), Flatten(rows)) == RowsPieces(rows)[i]
  {
    hide Tokens, Bind, RowText, RowPieces, Flatten, Holds, RowStart;
    FlattenAt(rows, colCount, i);
    RowMeans(RowStart(i, colCount), rows[i], Flatten(rows));
  }

  /** Placeholder (i, j) of the VALUES list addresses field j of row i: bound to the flattened rows, the list is the
      rows, for any number of rows and columns. */
  lemma ValuesMean(rows: seq<seq<Value>>, colCount: nat)
    requires Rectangular(rows, colCount)
    ensures Bind(Tokens(Join(RowTexts(|rows|, colCount), COMMA)), Flatten(rows)) == JoinPieces(RowsPieces(rows), ", ")
  {
    hide Tokens, Bind, Join, JoinPieces, RowText, RowPieces, Flatten, Rectangular;
    forall i | 0 <= i < |rows| ensures Bind(Tokens(RowTexts(|rows|, colCount)[i]), Flatten(rows)) ==
      RowsPieces(rows)[i] {
      EachRowMeans(rows, colCount, i);
    }
    BindJoin(RowTexts(|rows|, colCount), RowsPieces(rows), COMMA, Flatten(rows));
  }

  // ---------------------------------------------------------------- entities

  /** A row struct: its id, and its other fields converted for the driver unless that fails. */
  datatype Row = Row(id: int, fields: seq<Option<Value>>)

  /** Pointers to row structs, and what is behind them. */
  type Ptr = nat
  type Memory = map<Ptr, Row>

  ghost predicate Valid(m: Memory, es: seq<Ptr>) {
    forall e :: e in es ==> e in m
  }

  function Values(fields: seq<Option<Value>>): Option<seq<Value>> {
    if fields == [] then Some([])
    else match (Values(fields[..|fields| - 1]), fields[|fields| - 1])
         case (Some(vs), Some(v)) => Some(vs + [v])
         case _ => None
  }

  /** The arguments of one entity: the id first if it is inserted too. */
  function RowOf(r: Row, includePK: bool): Option<seq<Value>> {
    match Values(r.fields)
    case None => None
    case Some(vs) => Some((if includePK then [Int(r.id)] else []) + vs)
  }

  function RowsOf(m: Memory, es: seq<Ptr>, includePK: bool): Option<seq<seq<Value>>>
    requires Valid(m, es)
  {
    if es == [] then Some([])
    else match (RowsOf(m, es[..|es| - 1], includePK), RowOf(m[es[|es| - 1]], includePK))
         case (Some(rows), Some(row)) => Some(rows + [row])
         case _ => None
  }

  lemma {:induction false} Spoilt(fields: seq<Option<Value>>, k: nat)
    requires k <= |fields| && Values(fields[..k]).None?
    ensures Values(fields).None?
    decreases |fields|
  {
    if k < |fields| {
      assert fields[..|fields| - 1][..k] == fields[..k];
      Spoilt(fields[..|fields| - 1], k);
    } else {
      assert fields[..k] == fields;
    }
  }

  lemma {:induction false} SpoiltRows(m: Memory, es: seq<Ptr>, includePK: bool, k: nat)
    requires Valid(m, es) && k <= |es| && RowsOf(m, es[..k], includePK).None?
    ensures RowsOf(m, es, includePK).None?
    decreases |es|
  {
    if k < |es| {
      assert es[..|es| - 1][..k] == es[..k];
      SpoiltRows(m, es[..|es| - 1], includePK, k);
    } else {
      assert es[..k] == es;
    }
  }

  /** There are no values exactly if some field cannot be converted. */
  lemma {:induction false} NoValues(fields: seq<Option<Value>>)
    ensures Values(fields).None? <==> None in fields
  {
    if fields != [] {
      var i := |fields| - 1;
      assert fields == fields[..i] + [fields[i]];
      NoValues(fields[..i]);
    }
  }

  lemma {:induction false} ValuesAt(fields: seq<Option<Value>>, k: nat)
    requires Values(fields).Some? && k < |fields|
    ensures |Values(fields).value| == |fields| && fields[k] == Some(Values(fields).value[k])
  {
    var n := |fields| - 1;
    if n > 0 { ValuesAt(fields[..n], if k < n then k else 0); }
  }

  /** There are no rows exactly if some field of some entity cannot be converted. */
  lemma {:induction false} NoRows(m: Memory, es: seq<Ptr>, includePK: bool)
    requires Valid(m, es)
    ensures RowsOf(m, es, includePK).None? <==> exists e :: e in es && None in m[e].fields
  {
    if es != [] {
      var i := |es| - 1;
      assert es == es[..i] + [es[i]];
      NoRows(m, es[..i], includePK);
      NoValues(m[es[i]].fields);
    }
  }

  lemma RowsOfNone(m: Memory, includePK: bool)
    ensures RowsOf(m, [], includePK) == Some([]) && Flatten([]) == []
  {
  }

  lemma RowsSnoc(m: Memory, es: seq<Ptr>, includePK: bool, k: nat)
    requires Valid(m, es) && k < |es| && RowsOf(m, es[..k], includePK).Some?
    ensures RowOf(m[es[k]], includePK).None? ==> RowsOf(m, es[..k + 1], includePK).None?
    ensures RowOf(m[es[k]], includePK).Some? ==>
              && RowsOf(m, es[..k + 1], includePK).Some?
              && Flatten(RowsOf(m, es[..k + 1], includePK).value) ==
                 Flatten(RowsOf(m, es[..k], includePK).value) + RowOf(m[es[k]], includePK).value
  {
    hide RowOf;
    assert es[..k + 1][..k] == es[..k];
    if RowOf(m[es[k]], includePK).Some? {
      var rows, row := RowsOf(m, es[..k], includePK).value, RowOf(m[es[k]], includePK).value;
      assert (rows + [row])[..|rows|] == rows;
    }
  }

  /** Row k is made of entity k. */
  lemma {:induction false} RowsAt(m: Memory, es: seq<Ptr>, includePK: bool, k: nat)
    requires Valid(m, es) && RowsOf(m, es, includePK).Some? && k < |es|
    ensures |RowsOf(m, es, includePK).value| == |es|
    ensures Some(RowsOf(m, es, includePK).value[k]) == RowOf(m[es[k]], includePK)
  {
    hide RowOf;
    var i := |es| - 1;
    if i > 0 { RowsAt(m, es[..i], includePK, if k < i then k else 0); }
  }

  /** With `w` arguments per entity, argument k * w is the id of entity k if that is inserted, and the others behind it
      are its converted fields in order. */
  ghost predicate Carries(args: seq<Value>, m: Memory, es: seq<Ptr>, w: nat, includePK: bool)
    requires Valid(m, es)
  {
    && |args| == |es| * w
    && (includePK ==> forall k :: 0 <= k < |es| ==> At(args, k * w) == Some(Int(m[es[k]].id)))
    && (forall k, j ::
         0 <= k < |es| && 0 <= j < |m[es[k]].fields| ==>
           At(args, k * w + (if includePK then j + 1 else j)) == m[es[k]].fields[j])
  }

  /** All entities have `n` fields besides the id. */
  ghost predicate Uniform(m: Memory, es: seq<Ptr>, n: nat)
    requires Valid(m, es)
  {
    forall e :: e in es ==> |m[e].fields| == n
  }

  lemma RowsUniform(m: Memory, es: seq<Ptr>, includePK: bool, n: nat)
    requires Valid(m, es) && Uniform(m, es, n) && RowsOf(m, es, includePK).Some?
    ensures Rectangular(RowsOf(m, es, includePK).value, if includePK then n + 1 else n)
  {
    var rows := RowsOf(m, es, includePK).value;
    forall k | 0 <= k < |rows| ensures |rows[k]| == if includePK then n + 1 else n {
      RowsCount(m, es, includePK);
      RowsAt(m, es, includePK, k);
      LengthOfRow(m[es[k]], includePK);
    }
  }

  lemma {:induction false} RowsCount(m: Memory, es: seq<Ptr>, includePK: bool)
    requires Valid(m, es) && RowsOf(m, es, includePK).Some?
    ensures |RowsOf(m, es, includePK).value| == |es|
  {
    if es != [] { RowsCount(m, es[..|es| - 1], includePK); }
  }

  lemma LengthOfRow(r: Row, includePK: bool)
    requires RowOf(r, includePK).Some?
    ensures |RowOf(r, includePK).value| == (if includePK then 1 else 0) + |r.fields|
  {
    if r.fields != [] { ValuesAt(r.fields, 0); }
  }

  lemma RowAt(r: Row, includePK: bool, j: nat)
    requires RowOf(r, includePK).Some? && j < |r.fields|
    ensures At(RowOf(r, includePK).value, if includePK then j + 1 else j) == r.fields[j]
  {
    ValuesAt(r.fields, j);
  }

  lemma HoldsAt(args: seq<Value>, at: nat, own: seq<Value>, i: nat)
    requires Holds(args, at, own) && i < |own|
    ensures At(args, at + i) == At(own, i)
  {
  }

  /** The flattened rows carry every entity's own values. */
  lemma RowsCarry(m: Memory, es: seq<Ptr>, includePK: bool, n: nat)
    requires Valid(m, es) && Uniform(m, es, n) && RowsOf(m, es, includePK).Some?
    ensures Carries(Flatten(RowsOf(m, es, includePK).value), m, es, if includePK then n + 1 else n, includePK)
  {
    hide RowsOf, RowOf, Flatten, Rectangular, Holds, At;
    var w := if includePK then n + 1 else n;
    var rows := RowsOf(m, es, includePK).value;
    var args := Flatten(rows);
    RowsUniform(m, es, includePK, n);
    RowsCount(m, es, includePK);
    NothingFlat(rows);
    if es != [] { FlattenAt(rows, w, 0); }
    forall k | 0 <= k < |es| ensures RowCarried(args, m[es[k]], k * w, includePK) {
      FlattenAt(rows, w, k);
      RowsAt(m, es, includePK, k);
      OneRowCarried(args, m[es[k]], k * w, includePK);
    }
  }

  lemma NothingFlat(rows: seq<seq<Value>>)
    ensures rows == [] ==> Flatten(rows) == []
  {
  }

  ghost predicate RowCarried(args: seq<Value>, r: Row, at: nat, includePK: bool) {
    && (includePK ==> At(args, at) == Some(Int(r.id)))
    && (forall j :: 0 <= j < |r.fields| ==> At(args, at + (if includePK then j + 1 else j)) == r.fields[j])
  }

  lemma OneRowCarried(args: seq<Value>, r: Row, at: nat, includePK: bool)
    requires RowOf(r, includePK).Some? && Holds(args, at, RowOf(r, includePK).value)
    ensures RowCarried(args, r, at, includePK)
  {
    hide RowOf, Holds, At;
    var row := RowOf(r, includePK).value;
    LengthOfRow(r, includePK);
    IdFirst(r, includePK);
    if includePK { HoldsAt(args, at, row, 0); }
    forall j | 0 <= j < |r.fields| ensures At(args, at + (if includePK then j + 1 else j)) == r.fields[j] {
      var c := if includePK then j + 1 else j;
      RowAt(r, includePK, j);
      HoldsAt(args, at, row, c);
    }
  }

  lemma IdFirst(r: Row, includePK: bool)
    requires RowOf(r, includePK).Some?
    ensures includePK ==> At(RowOf(r, includePK).value, 0) == Some(Int(r.id))
  {
  }

  /** extractArgsByFields: converts field by field, and stops at the first that cannot be converted. */
  method ExtractArgs(r: Row, includePK: bool) returns (args: Option<seq<Value>>)
    ensures args == RowOf(r, includePK)
  {
    var head := if includePK then [Int(r.id)] else [];
    var values: seq<Value> := [];
    var k := 0;
    while k < |r.fields|
      invariant k <= |r.fields| && Values(r.fields[..k]) == Some(values)
    {
      assert r.fields[..k + 1][..k] == r.fields[..k];
      if r.fields[k].None? {
        Spoilt(r.fields, k + 1);
        return None;
      }
      values := values + [r.fields[k].value];
      k := k + 1;
    }
    assert r.fields[..k] == r.fields;
    args := Some(head + values);
  }

  /** The values of one entity: the id first if it is inserted, then its fields. */
  function EntityValues(r: Row, includePK: bool): seq<Value>
    requires None !in r.fields
  {
    (if includePK then [Int(r.id)] else []) +
    seq(|r.fields|, j requires 0 <= j < |r.fields| => assert r.fields[j] in r.fields; r.fields[j].value)
  }

  /** The entities as rows of the statement. */
  function EntityPieces(m: Memory, es: seq<Ptr>, includePK: bool): seq<seq<Piece>>
    requires Valid(m, es) && forall e :: e in es ==> None !in m[e].fields
  {
    seq(|es|, k requires 0 <= k < |es| => assert es[k] in es; RowPieces(EntityValues(m[es[k]], includePK)))
  }

  lemma ValuesOfEntity(r: Row, includePK: bool)
    requires None !in r.fields
    ensures RowOf(r, includePK) == Some(EntityValues(r, includePK))
  {
    NoValues(r.fields);
    LengthOfRow(r, includePK);
    var vs := Values(r.fields).value;
    forall j | 0 <= j < |r.fields| ensures Some(vs[j]) == r.fields[j] { ValuesAt(r.fields, j); }
    assert RowOf(r, includePK).value == EntityValues(r, includePK);
  }

  lemma PiecesOfEntities(m: Memory, es: seq<Ptr>, includePK: bool)
    requires Valid(m, es) && forall e :: e in es ==> None !in m[e].fields
    requires RowsOf(m, es, includePK).Some?
    ensures RowsPieces(RowsOf(m, es, includePK).value) == EntityPieces(m, es, includePK)
  {
    hide RowsOf, RowOf, RowPieces, EntityValues;
    RowsCount(m, es, includePK);
    forall k | 0 <= k < |es|
      ensures RowsPieces(RowsOf(m, es, includePK).value)[k] == EntityPieces(m, es, includePK)[k]
    {
      assert es[k] in es;
      RowsAt(m, es, includePK, k);
      ValuesOfEntity(m[es[k]], includePK);
    }
  }

  // ---------------------------------------------------------------- ids written back

  /** Returned ids go into the entities in order. */
  function Wrote(m: Memory, es: seq<Ptr>, ids: seq<int>): (r: Memory)
    requires Valid(m, es) && |ids| <= |es|
    ensures r.Keys == m.Keys
  {
    if ids == [] then m
    else
      var i := |ids| - 1;
      var before := Wrote(m, es, ids[..i]);
      before[es[i] := before[es[i]].(id := ids[i])]
  }

  /** Entities without an id in the answer, and all other fields, stay as they were. */
  lemma {:induction false} WroteOnlyIds(m: Memory, es: seq<Ptr>, ids: seq<int>, e: Ptr)
    requires Valid(m, es) && |ids| <= |es| && e in m
    ensures Wrote(m, es, ids)[e].fields == m[e].fields
    ensures e !in es[..|ids|] ==> Wrote(m, es, ids)[e] == m[e]
  {
    if ids != [] {
      var i := |ids| - 1;
      WroteOnlyIds(m, es, ids[..i], e);
      assert es[..|ids|] == es[..i] + [es[i]];
    }
  }

  /** Entity k ends up with the k-th id unless the same pointer comes again among the rest. */
  lemma {:induction false} WroteIds(m: Memory, es: seq<Ptr>, ids: seq<int>, k: nat)
    requires Valid(m, es) && k < |ids| <= |es| && es[k] !in es[k + 1..|ids|]
    ensures Wrote(m, es, ids)[es[k]].id == ids[k]
  {
    var i := |ids| - 1;
    if k < i {
      assert es[k + 1..|ids|] == es[k + 1..i] + [es[i]];
      WroteIds(m, es, ids[..i], k);
    }
  }

  // ---------------------------------------------------------------- the split

  /** The entities with an explicit id, or those without. */
  function Batch(m: Memory, es: seq<Ptr>, explicit: bool): (r: seq<Ptr>)
    requires Valid(m, es)
  {
    if es == [] then []
    else Batch(m, es[..|es| - 1], explicit) + (if (m[es[|es| - 1]].id != 0) == explicit then [es[|es| - 1]] else [])
  }

  lemma {:induction false} BatchMembers(m: Memory, es: seq<Ptr>, explicit: bool)
    requires Valid(m, es)
    ensures forall e :: e in Batch(m, es, explicit) <==> e in es && (m[e].id != 0) == explicit
  {
    if es != [] {
      BatchMembers(m, es[..|es| - 1], explicit);
      assert es == es[..|es| - 1] + [es[|es| - 1]];
    }
  }

  /** The positions of a batch in the list. */
  function Picks(m: Memory, es: seq<Ptr>, explicit: bool): seq<nat>
    requires Valid(m, es)
  {
    if es == [] then []
    else Picks(m, es[..|es| - 1], explicit) + (if (m[es[|es| - 1]].id != 0) == explicit then [|es| - 1] else [])
  }

  /** Every position of the list is picked for exactly one of the two batches. */
  lemma {:induction false} PicksPartition(m: Memory, es: seq<Ptr>, explicit: bool, j: nat)
    requires Valid(m, es)
    ensures j in Picks(m, es, explicit) <==> j < |es| && (m[es[j]].id != 0) == explicit
    ensures |Picks(m, es, true)| + |Picks(m, es, false)| == |es|
  {
    if es != [] {
      var front := es[..|es| - 1];
      PicksPartition(m, front, explicit, j);
      if j < |front| { assert es[j] == front[j]; }
    }
  }

  /** Both batches keep the list's order. */
  lemma {:induction false} PicksInOrder(m: Memory, es: seq<Ptr>, explicit: bool, i: nat, j: nat)
    requires Valid(m, es) && i < j < |Picks(m, es, explicit)|
    ensures Picks(m, es, explicit)[i] < Picks(m, es, explicit)[j]
  {
    var front := es[..|es| - 1];
    var p := Picks(m, front, explicit);
    if j < |p| {
      PicksInOrder(m, front, explicit, i, j);
    } else {
      assert p[i] in p;
      PicksPartition(m, front, explicit, p[i]);
    }
  }

  /** A batch is what stands at its positions. */
  lemma {:induction false} BatchAtPicks(m: Memory, es: seq<Ptr>, explicit: bool, i: nat)
    requires Valid(m, es) && i < |Batch(m, es, explicit)|
    ensures |Picks(m, es, explicit)| == |Batch(m, es, explicit)|
    ensures Picks(m, es, explicit)[i] < |es| && Batch(m, es, explicit)[i] == es[Picks(m, es, explicit)[i]]
  {
    var front := es[..|es| - 1];
    var n := |Batch(m, front, explicit)|;
    if n > 0 { BatchAtPicks(m, front, explicit, if i < n then i else 0); } else { NoPicks(m, front, explicit); }
  }

  lemma {:induction false} NoPicks(m: Memory, es: seq<Ptr>, explicit: bool)
    requires Valid(m, es) && Batch(m, es, explicit) == []
    ensures Picks(m, es, explicit) == []
  {
    if es != [] { NoPicks(m, es[..|es| - 1], explicit); }
  }

  // ---------------------------------------------------------------- InsertMany

  /** What the server answers to a batch: an error, or the returned ids and perhaps an error after them. */
  datatype Answer = Refused | Returned(ids: seq<int>, cut: bool)

  datatype Sent = Sent(query: string, args: seq<Value>)

  const INSERT := "INSERT INTO "
  const OPEN := " ("
  const VALUES := ") VALUES "
  const RETURNING := " RETURNING id"

  lemma PlainHead(name: string, columns: string)
    requires NoDollar(name) && NoDollar(columns)
    ensures NoDollar(INSERT + name + OPEN + columns + VALUES) && NoDollar(RETURNING) && Separate(RETURNING)
  {
  }

  lemma Between(head: string, list: string, tail: string, args: seq<Value>)
    requires NoDollar(head) && NoDollar(tail) && Separate(tail)
    ensures Bind(Tokens(head + list + tail), args) == Chars(head) + Bind(Tokens(list), args) + Chars(tail)
  {
    hide Tokens, Bind, NoDollar, Separate, Chars;
    PlainThen(head, list, args);
    BindBefore(head + list, tail, args);
  }

  predicate Accepted(sent: seq<Sent>, answer: Answer) {
    sent != [] && answer.Returned? && !answer.cut
  }

  /** A table with the id column "id" and the other columns in struct order, and the entities it works on. */
  class Table {
    const name: string
    const columns: seq<string>
    var memory: Memory

    constructor (name: string, columns: seq<string>, memory: Memory)
      ensures this.name == name && this.columns == columns && this.memory == memory
    {
      this.name, this.columns, this.memory := name, columns, memory;
    }

    /** insertColumns: the id column in front, if it is inserted. */
    function InsertColumns(includePK: bool): seq<string> {
      (if includePK then ["id"] else []) + columns
    }

    function InsertText(rowCount: nat, includePK: bool): string {
      INSERT + name + OPEN + Join(InsertColumns(includePK), COMMA) + VALUES +
      Join(RowTexts(rowCount, |InsertColumns(includePK)|), COMMA) + RETURNING
    }

    /** What a batch sends: nothing if it is empty or a field cannot be converted. */
    function BatchSent(m: Memory, es: seq<Ptr>, includePK: bool): seq<Sent>
      requires Valid(m, es)
    {
      if es == [] || RowsOf(m, es, includePK).None? then []
      else [Sent(InsertText(|es|, includePK), Flatten(RowsOf(m, es, includePK).value))]
    }

    /** What the server gets of a batch, said by its entities: nothing if there are none or a field cannot be
        converted, else one INSERT with as many rows as entities, row k carrying the values of entity k. */
    ghost predicate Ships(sent: seq<Sent>, m: Memory, es: seq<Ptr>, includePK: bool)
      requires Valid(m, es)
    {
      var w := if includePK then |columns| + 1 else |columns|;
      if es == [] || exists e :: e in es && None in m[e].fields then sent == []
      else
        && |sent| == 1
        && sent[0].query == "INSERT INTO " + name + " (" + Join((if includePK then ["id"] else []) + columns, ", ") +
                            ") VALUES " + Join(RowTexts(|es|, w), ", ") + " RETURNING id"
        && (Uniform(m, es, |columns|) ==> Carries(sent[0].args, m, es, w, includePK))
    }

    lemma BatchShips(m: Memory, es: seq<Ptr>, includePK: bool)
      requires Valid(m, es)
      ensures Ships(BatchSent(m, es, includePK), m, es, includePK)
    {
      hide RowsOf, Flatten, Join, RowTexts, Carries;
      NoRows(m, es, includePK);
      if RowsOf(m, es, includePK).Some? && Uniform(m, es, |columns|) { RowsCarry(m, es, includePK, |columns|); }
    }

    /** Columns and values line up: the id with the id column, field k with the k-th other column. */
    lemma RowFollowsColumns(r: Row, includePK: bool, k: nat)
      requires RowOf(r, includePK).Some? && |r.fields| == |columns| && k < |columns|
      ensures var row, cols := RowOf(r, includePK).value, InsertColumns(includePK); var j := if includePK then k + 1
              else k;
              && |row| == |cols| && cols[j] == columns[k] && r.fields[k] == Some(row[j])
              && (includePK ==> cols[0] == "id" && row[0] == Int(r.id))
    {
      ValuesAt(r.fields, k);
    }

    /** The statement of a batch means one row per entity, in order: its id if included, then its fields. */
    lemma InsertMeans(rows: seq<seq<Value>>, includePK: bool)
      requires Rectangular(rows, |InsertColumns(includePK)|)
      requires NoDollar(name) && NoDollar(Join(InsertColumns(includePK), COMMA))
      ensures Bind(Tokens(InsertText(|rows|, includePK)), Flatten(rows)) ==
              Chars("INSERT INTO " + name + " (" + Join(InsertColumns(includePK), ", ") + ") VALUES ") +
                JoinPieces(RowsPieces(rows), ", ") + Chars(" RETURNING id")
    {
      hide Tokens, Bind, Join, JoinPieces, RowTexts, RowsPieces, Flatten, Rectangular, Chars, NoDollar;
      ValuesMean(rows, |InsertColumns(includePK)|);
      PlainHead(name, Join(InsertColumns(includePK), COMMA));
      Between(INSERT + name + OPEN + Join(InsertColumns(includePK), COMMA) + VALUES,
              Join(RowTexts(|rows|, |InsertColumns(includePK)|), COMMA), RETURNING, Flatten(rows));
    }

    /** What the server executes for a batch: one row per entity, in order, with the id if it is inserted and then all
        the entity's fields. */
    lemma BatchMeans(m: Memory, es: seq<Ptr>, includePK: bool)
      requires Valid(m, es) && es != [] && Uniform(m, es, |columns|) && forall e :: e in es ==> None !in m[e].fields
      requires NoDollar(name) && NoDollar(Join(InsertColumns(includePK), COMMA))
      ensures var sent := BatchSent(m, es, includePK);
              |sent| == 1 && Bind(Tokens(sent[0].query), sent[0].args) ==
              Chars("INSERT INTO " + name + " (" + Join(InsertColumns(includePK), ", ") + ") VALUES ") +
                JoinPieces(EntityPieces(m, es, includePK), ", ") + Chars(" RETURNING id")
    {
      hide Tokens, Bind, Join, JoinPieces, RowsPieces, Flatten, Rectangular, Chars, NoDollar, RowsOf, Uniform,
        EntityPieces, InsertText;
      NoRows(m, es, includePK);
      RowsCount(m, es, includePK);
      RowsUniform(m, es, includePK, |columns|);
      PiecesOfEntities(m, es, includePK);
      InsertMeans(RowsOf(m, es, includePK).value, includePK);
    }

    lemma AllCarried(es: seq<Ptr>, includePK: bool)
      requires Valid(memory, es) && RowsOf(memory, es, includePK).Some?
      ensures Uniform(memory, es, |columns|) ==>
                Carries(Flatten(RowsOf(memory, es, includePK).value), memory, es,
                        if includePK then |columns| + 1 else |columns|, includePK)
    {
      hide RowsOf, Carries, Flatten, Uniform;
      if Uniform(memory, es, |columns|) { RowsCarry(memory, es, includePK, |columns|); }
    }

    method CollectArgs(es: seq<Ptr>, includePK: bool) returns (r: Option<seq<Value>>)
      requires Valid(memory, es)
      ensures RowsOf(memory, es, includePK).None? ==> r == None
      ensures RowsOf(memory, es, includePK).Some? ==> r == Some(Flatten(RowsOf(memory, es, includePK).value))
      ensures r == None <==> exists e :: e in es && None in memory[e].fields
      ensures r.Some? && Uniform(memory, es, |columns|) ==>
                Carries(r.value, memory, es, if includePK then |columns| + 1 else |columns|, includePK)
    {
      hide Carries, Uniform, RowOf, RowsOf, Flatten;
      NoRows(memory, es, includePK);
      RowsOfNone(memory, includePK);
      var allArgs: seq<Value> := [];
      var k := 0;
      while k < |es|
        invariant k <= |es| && RowsOf(memory, es[..k], includePK).Some?
        invariant allArgs == Flatten(RowsOf(memory, es[..k], includePK).value)
      {
        var args := ExtractArgs(memory[es[k]], includePK);
        RowsSnoc(memory, es, includePK, k);
        if args.None? {
          SpoiltRows(memory, es, includePK, k + 1);
          return None;
        }
        allArgs := allArgs + args.value;
        k := k + 1;
      }
      assert es[..k] == es;
      AllCarried(es, includePK);
      r := Some(allArgs);
    }

    method WriteIds(es: seq<Ptr>, ids: seq<int>)
      requires Valid(memory, es) && |ids| <= |es|
      modifies `memory
      ensures memory == Wrote(old(memory), es, ids)
    {
      var i := 0;
      while i < |ids|
        invariant i <= |ids| && memory == Wrote(old(memory), es, ids[..i])
      {
        assert ids[..i + 1][..i] == ids[..i];
        memory := memory[es[i] := memory[es[i]].(id := ids[i])];
        i := i + 1;
      }
      assert ids[..i] == ids;
    }

    method InsertManyBatch(es: seq<Ptr>, includePK: bool, answer: Answer) returns (sent: seq<Sent>, ok: bool)
      requires es != [] && Valid(memory, es) && (answer.Returned? ==> |answer.ids| <= |es|)
      modifies `memory
      ensures sent == BatchSent(old(memory), es, includePK) && ok == Accepted(sent, answer)
      ensures Ships(sent, old(memory), es, includePK)
      ensures memory == if sent != [] && answer.Returned? then Wrote(old(memory), es, answer.ids) else old(memory)
    {
      hide Join, RowTexts, RowsOf, Flatten, Ships;
      BatchShips(memory, es, includePK);
      var allArgs := CollectArgs(es, includePK);
      if allArgs.None? {
        return [], false;
      }
      var values := BuildValues(|es|, |InsertColumns(includePK)|);
      var query := INSERT + name + OPEN + Join(InsertColumns(includePK), COMMA) + VALUES + values + RETURNING;
      sent := [Sent(query, allArgs.value)];
      if answer.Refused? {
        return sent, false;
      }
      WriteIds(es, answer.ids);
      ok := !answer.cut;
    }

    method Split(es: seq<Ptr>) returns (withPK: seq<Ptr>, withoutPK: seq<Ptr>)
      requires Valid(memory, es)
      ensures withPK == Batch(memory, es, true) && withoutPK == Batch(memory, es, false)
    {
      withPK, withoutPK := [], [];
      var k := 0;
      while k < |es|
        invariant k <= |es| && withPK == Batch(memory, es[..k], true) && withoutPK == Batch(memory, es[..k], false)
      {
        assert es[..k + 1][..k] == es[..k];
        if memory[es[k]].id != 0 {
          withPK := withPK + [es[k]];
        } else {
          withoutPK := withoutPK + [es[k]];
        }
        k := k + 1;
      }
      assert es[..k] == es;
    }

    /** Writing ids into other entities does not change what a batch sends. */
    lemma {:induction false} SentAnyway(m: Memory, n: Memory, es: seq<Ptr>, includePK: bool)
      requires Valid(m, es) && Valid(n, es) && forall e :: e in es ==> m[e] == n[e]
      ensures RowsOf(m, es, includePK) == RowsOf(n, es, includePK)
    {
      if es != [] { SentAnyway(m, n, es[..|es| - 1], includePK); }
    }

    /** What InsertMany answers: both batches went through, or were empty. */
    predicate Succeeds(m: Memory, es: seq<Ptr>, first: Answer, second: Answer)
      requires Valid(m, es) && Valid(m, Batch(m, es, false)) && Valid(m, Batch(m, es, true))
    {
      && (Batch(m, es, false) == [] || Accepted(BatchSent(m, Batch(m, es, false), false), first))
      && (Batch(m, es, true) == [] || Accepted(BatchSent(m, Batch(m, es, true), true), second))
    }

    /** The call fails although the server has taken the entities without id, exactly when there are both kinds of
        entities, those without id could be written and were accepted, and of the others one has a field that cannot
        be converted, or the server refused them or broke off its answer. */
    lemma FailsHalfway(m: Memory, es: seq<Ptr>, first: Answer, second: Answer)
      requires Valid(m, es)
      ensures Valid(m, Batch(m, es, false)) && Valid(m, Batch(m, es, true))
      ensures Accepted(BatchSent(m, Batch(m, es, false), false), first) && !Succeeds(m, es, first, second) <==>
              && (exists e ::
                e in es && m[e].id == 0) && RowsOf(m, Batch(m, es, false), false).Some? && first.Returned? && !first.cut
              && (exists e ::
                e in es && m[e].id != 0) && (RowsOf(m, Batch(m, es, true), true).None? || second.Refused? || second.cut)
    {
      BatchMembers(m, es, false);
      BatchMembers(m, es, true);
      var without, with := Batch(m, es, false), Batch(m, es, true);
      assert without != [] ==> without[0] in without;
      assert with != [] ==> with[0] in with;
    }

    /** Entities without id go first, then those with an id, as they were when the call began; each batch only if it
        is not empty, and the second only if the first went through. The ids of both answers are written back. */
    method InsertMany(es: seq<Ptr>, first: Answer, second: Answer) returns (sent: seq<Sent>, ok: bool)
      requires Valid(memory, es)
      requires first.Returned? ==> |first.ids| <= |Batch(memory, es, false)|
      requires second.Returned? ==> |second.ids| <= |Batch(memory, es, true)|
      modifies `memory
      ensures Valid(old(memory), Batch(old(memory), es, false)) && Valid(old(memory), Batch(old(memory), es, true))
      ensures var m := old(memory);
              var without, with := Batch(m, es, false), Batch(m, es, true);
              var sent1, sent2 := BatchSent(m, without, false), BatchSent(m, with, true);
              var ok1 := without == [] || Accepted(sent1, first);
              var m1 := if sent1 != [] && first.Returned? then Wrote(m, without, first.ids) else m;
              && sent == sent1 + (if ok1 then sent2 else [])
              && Ships(sent1, m, without, false) && Ships(sent2, m, with, true)
              && ok == Succeeds(m, es, first, second)
              && Valid(m1, with)
              && memory == if ok1 && sent2 != [] && second.Returned? then Wrote(m1, with, second.ids) else m1
    {
      hide Ships;
      BatchMembers(memory, es, true);
      BatchMembers(memory, es, false);
      BatchShips(memory, Batch(memory, es, false), false);
      BatchShips(memory, Batch(memory, es, true), true);
      sent, ok := [], true;
      if |es| == 0 {
        return;
      }
      var withPK, withoutPK := Split(es);
      if first.Returned? {
        forall e | e in withPK ensures Wrote(memory, withoutPK, first.ids)[e] ==
          memory[e] { WroteOnlyIds(memory, withoutPK, first.ids, e); }
      }
      if |withoutPK| > 0 {
        sent, ok := InsertManyBatch(withoutPK, false, first);
        if !ok {
          return;
        }
      }
      SentAnyway(old(memory), memory, withPK, true);
      if |withPK| > 0 {
        var more;
        more, ok := InsertManyBatch(withPK, true, second);
        sent := sent + more;
      }
    }
  }
}
