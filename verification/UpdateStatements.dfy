/** Table.Update of pgsql/table_operation.go: one statement from a SET clause and a WHERE clause. */
module UpdateStatements {
  import opened Common
  import opened Placeholders
  import opened WhereClauses
  import opened UpdateClauses

  datatype Refusal = NothingToSet | WhereRequired
  datatype Result = Ok(query: string, args: seq<Value>) | Err(reason: Refusal)

  const UPDATE := "UPDATE "
  const SET := " SET "

  function Statement(table: string, entries: seq<Entry>, calls: seq<Call>, orderBy: string, limit: int,
          offset: int): string {
    UPDATE + table + SET + Join(EntryTexts(entries, 1), COMMA) +
      ClauseText(Texts(calls), orderBy, limit, offset, 1 + |SetArgs(entries)|)
  }

  /** The statement handed to the driver, or the refusal of an update without assignment or without condition. */
  method Update(table: string, ub: UpdateBuilder?, wb: WhereBuilder?) returns (r: Result)
    requires ub != null ==> Complete(ub.sets)
    requires wb != null ==> wb.Valid()
    ensures ub == null || ub.sets == [] ==> r == Err(NothingToSet)
    ensures ub != null && ub.sets != [] && (wb == null || wb.calls == []) ==> r == Err(WhereRequired)
    ensures ub != null && ub.sets != [] && wb != null && wb.calls != [] ==>
              r == Ok(Statement(table, ub.sets, wb.calls, wb.orderBy, wb.limit, wb.offset),
                SetArgs(ub.sets) + AllArgs(wb.calls))
    ensures ub != null && ub.sets != [] && wb != null && wb.calls != [] ==>
              && r.query == "UPDATE " + table + " SET " + Join(EntryTexts(ub.sets, 1), ", ") +
                            ClauseText(Texts(wb.calls), wb.orderBy, wb.limit, wb.offset, 1 + SlotCount(ub.sets))
              && |r.args| == SlotCount(ub.sets) + ArgCount(wb.calls)
              && EachSlotAt(r.args, ub.sets) && EachArgAt(r.args, SlotCount(ub.sets), wb.calls)
  {
    hide EntryTexts, SetArgs, Join, AllArgs, ClauseText, Complete, EachSlotAt, EachArgAt, SlotCount, ArgCount,
      Statement, Conditions, Digits, Texts;
    if ub == null || |ub.sets| == 0 {
      return Err(NothingToSet);
    }
    if wb == null || |wb.conditions| == 0 {
      return Err(WhereRequired);
    }
    var setClause, setArgs, nextIdx := BuildSet(ub, 1);
    var whereClause, whereArgs := BuildSQL(wb, nextIdx);
    var query := UPDATE + table + " " + setClause + whereClause;
    StatementIs(table, setClause, ub.sets, wb.calls, wb.orderBy, wb.limit, wb.offset);
    SlotsBefore(setArgs, whereArgs, ub.sets);
    ArgsBehind(setArgs, whereArgs, wb.calls);
    r := Ok(query, setArgs + whereArgs);
  }

  lemma ArgsBehind(xs: seq<Value>, ys: seq<Value>, calls: seq<Call>)
    requires EachArgAt(ys, 0, calls)
    ensures EachArgAt(xs + ys, |xs|, calls)
  {
    hide ArgCount;
    forall k, i | 0 <= k < |calls| && 0 <= i < |calls[k].args|
      ensures At(xs + ys, |xs| + ArgCount(calls[..k]) + i) == Some(calls[k].args[i])
    {
      assert At(ys, ArgCount(calls[..k]) + i) == Some(calls[k].args[i]);
    }
  }

  lemma StatementIs(table: string, setClause: string, entries: seq<Entry>, calls: seq<Call>, orderBy: string,
          limit: int, offset: int)
    requires setClause == "SET " + Join(EntryTexts(entries, 1), ", ")
    ensures var clause := ClauseText(Texts(calls), orderBy, limit, offset, 1 + |SetArgs(entries)|);
            && UPDATE + table + " " + setClause + clause == Statement(table, entries, calls, orderBy, limit, offset)
            && Statement(table, entries, calls, orderBy, limit, offset) ==
                 "UPDATE " + table + " SET " + Join(EntryTexts(entries, 1), ", ") + clause
  {
    hide EntryTexts, SetArgs, Join, ClauseText, Texts;
    Regroup(UPDATE + table, Join(EntryTexts(entries, 1), COMMA));
  }

  lemma Regroup(head: string, list: string)
    ensures head + " " + ("SET " + list) == head + SET + list
  {
    Assoc(head + " ", "SET ", list);
    Assoc(head, " ", "SET ");
    assert " " + "SET " == SET;
  }

  lemma ClauseSeparate(conds: seq<string>, orderBy: string, limit: int, offset: int, idx: nat)
    requires conds != []
    ensures Separate(ClauseText(conds, orderBy, limit, offset, idx))
  {
    hide Conditions, Join, Tail;
    assert ClauseText(conds, orderBy, limit, offset, idx)[0] == WHERE[0];
  }

  lemma ThreeParts(head: string, list: string, clause: string, args: seq<Value>)
    requires NoDollar(head) && Separate(clause)
    ensures Bind(Tokens(head + list + clause), args) ==
            Chars(head) + Bind(Tokens(list), args) + Bind(Tokens(clause), args)
  {
    hide Tokens, Bind, Separate, NoDollar;
    TokensConcat(head + list, clause);
    BindConcat(Tokens(head + list), Tokens(clause), args);
    PlainThen(head, list, args);
  }

  lemma HoldsBoth(xs: seq<Value>, ys: seq<Value>)
    ensures Holds(xs + ys, 0, xs) && Holds(xs + ys, |xs|, ys)
  {
  }

  /** What the server executes: every assignment and every condition with exactly its own arguments. */
  lemma UpdateMeans(table: string, entries: seq<Entry>, calls: seq<Call>, orderBy: string, limit: int, offset: int)
    requires NoDollar(table) && NoDollar(orderBy) && calls != [] && AllConventional(entries, 1) && Positional(calls)
    ensures Bind(Tokens(Statement(table, entries, calls, orderBy, limit, offset)), SetArgs(entries) + AllArgs(calls)) ==
            Chars("UPDATE " + table + " SET ") + JoinPieces(FilledEntries(entries), ", ") +
              ClauseMeaning(calls, orderBy, limit, offset)
  {
    hide Tokens, Bind, EntryTexts, SetArgs, AllArgs, ClauseText, Join, Holds, AllConventional, Positional,
      FilledEntries, ClauseMeaning, JoinPieces;
    var args := SetArgs(entries) + AllArgs(calls);
    HoldsBoth(SetArgs(entries), AllArgs(calls));
    SetListMeans(entries, 0, args);
    ClauseMeans(calls, orderBy, limit, offset, |SetArgs(entries)|, args);
    ClauseSeparate(Texts(calls), orderBy, limit, offset, 1 + |SetArgs(entries)|);
    ThreeParts(UPDATE + table + SET, Join(EntryTexts(entries, 1), COMMA),
               ClauseText(Texts(calls), orderBy, limit, offset, |SetArgs(entries)| + 1), args);
  }
}
