/** pgsql/where.go: conditions collected with their arguments, and the clause built from them. */
module WhereClauses {
  import opened Common
  import opened Placeholders

  // ---------------------------------------------------------------- renumbering

  /** A condition with its placeholders numbered from `idx`. */
  function Renumbered(cond: string, idx: nat): string {
    Print(Number(Tokens(cond), idx))
  }

  function MarkSum(conds: seq<string>): nat {
    if conds == [] then 0 else MarkSum(conds[..|conds| - 1]) + Marks(Tokens(conds[|conds| - 1]))
  }

  /** All conditions, each numbered on from where the one before stopped. */
  function Conditions(conds: seq<string>, idx: nat): (r: seq<string>)
    ensures |r| == |conds|
  {
    if conds == [] then []
    else Conditions(conds[..|conds| - 1], idx) + [Renumbered(conds[|conds| - 1], idx + MarkSum(conds[..|conds| - 1]))]
  }

  /** Read again, a renumbered condition has the tokens of the original, numbered; renumbering it changes nothing. */
  lemma Retokenised(cond: string, idx: nat)
    ensures Tokens(Renumbered(cond, idx)) == Number(Tokens(cond), idx)
    ensures Renumbered(Renumbered(cond, idx), idx) == Renumbered(cond, idx)
  {
    TokensProper(cond);
    NumberProper(Tokens(cond), idx);
    TokensOfPrint(Number(Tokens(cond), idx));
    NumberTwice(Tokens(cond), idx);
  }

  /** The same place by place: literal characters stay, and the i-th placeholder is idx + i. */
  lemma RetokenisedAt(cond: string, idx: nat, i: nat)
    requires i < |Tokens(cond)|
    ensures var ts, us := Tokens(cond), Tokens(Renumbered(cond, idx));
            |us| == |ts| && us[i] == if ts[i].Mark? then Mark(Digits(idx + Marks(ts[..i]))) else ts[i]
  {
    Retokenised(cond, idx);
    NumberAt(Tokens(cond), idx, i);
  }

  lemma NumberMarks(cond: string, idx: nat)
    ensures Marks(Tokens(Renumbered(cond, idx))) == Marks(Tokens(cond))
  {
    Retokenised(cond, idx);
    TokensProper(cond);
    NumberProper(Tokens(cond), idx);
  }

  lemma ConditionsSnoc(conds: seq<string>, cond: string, idx: nat)
    ensures Conditions(conds + [cond], idx) == Conditions(conds, idx) + [Renumbered(cond, idx + MarkSum(conds))]
    ensures MarkSum(conds + [cond]) == MarkSum(conds) + Marks(Tokens(cond))
  {
    hide Renumbered, Tokens;
    assert (conds + [cond])[..|conds|] == conds;
  }

  /** The tokens of joined texts. */
  function JoinTokens(parts: seq<string>, sep: string): seq<Token> {
    if parts == [] then []
    else if |parts| == 1 then Tokens(parts[0])
    else JoinTokens(parts[..|parts| - 1], sep) + (Lits(sep) + Tokens(parts[|parts| - 1]))
  }

  lemma {:induction false} TokensOfJoin(parts: seq<string>, sep: string)
    requires Separator(sep)
    ensures Tokens(Join(parts, sep)) == JoinTokens(parts, sep)
  {
    if |parts| > 1 {
      hide Tokens, Lits;
      var i := |parts| - 1;
      TokensOfJoin(parts[..i], sep);
      TokensAround(Join(parts[..i], sep), sep, parts[i]);
    }
  }

  lemma JoinTokensSnoc(parts: seq<string>, last: string, sep: string)
    ensures JoinTokens(parts + [last], sep) == if parts == [] then Tokens(last)
            else JoinTokens(parts, sep) + (Lits(sep) + Tokens(last))
  {
    hide Tokens, Lits;
    assert (parts + [last])[..|parts|] == parts;
  }

  lemma JoinNothing(sep: string, idx: nat)
    ensures Conditions([], idx) == [] && JoinTokens([], sep) == [] && Number([], idx) == []
    ensures Marks([]) == MarkSum([]) == 0
  {
  }

  lemma {:induction false} JoinNumbers(conds: seq<string>, sep: string, idx: nat)
    ensures JoinTokens(Conditions(conds, idx), sep) == Number(JoinTokens(conds, sep), idx)
    ensures Marks(JoinTokens(conds, sep)) == MarkSum(conds)
  {
    hide Renumbered, Tokens, Number, Marks, Lits, JoinTokens, Conditions, MarkSum;
    JoinNothing(sep, idx);
    if conds != [] {
      var front, last := conds[..|conds| - 1], conds[|conds| - 1];
      assert conds == front + [last];
      JoinNumbers(front, sep, idx);
      Retokenised(last, idx + MarkSum(front));
      ConditionsSnoc(front, last, idx);
      JoinTokensSnoc(front, last, sep);
      JoinTokensSnoc(Conditions(front, idx), Renumbered(last, idx + MarkSum(front)), sep);
      NumberAround(JoinTokens(front, sep), sep, Tokens(last), idx);
    }
  }

  /** The joined conditions are numbered idx, idx + 1, ... without gaps from one condition to the next: the same
      as joining first and numbering the whole. */
  lemma NumberedWithoutGaps(conds: seq<string>, sep: string, idx: nat)
    requires Separator(sep)
    ensures Tokens(Join(Conditions(conds, idx), sep)) == Number(Tokens(Join(conds, sep)), idx)
  {
    TokensOfJoin(Conditions(conds, idx), sep);
    JoinNumbers(conds, sep, idx);
    TokensOfJoin(conds, sep);
  }

  /** Renumbering the renumbered conditions from the same start changes nothing. */
  lemma {:induction false} ConditionsTwice(conds: seq<string>, idx: nat)
    ensures Conditions(Conditions(conds, idx), idx) == Conditions(conds, idx)
    ensures MarkSum(Conditions(conds, idx)) == MarkSum(conds)
  {
    hide Renumbered, Tokens, Marks, Conditions, MarkSum;
    JoinNothing("", idx);
    if conds != [] {
      var front, last := conds[..|conds| - 1], conds[|conds| - 1];
      var next := idx + MarkSum(front);
      assert conds == front + [last];
      ConditionsTwice(front, idx);
      ConditionsSnoc(front, last, idx);
      ConditionsSnoc(Conditions(front, idx), Renumbered(last, next), idx);
      Retokenised(last, next);
      NumberMarks(last, next);
    }
  }

  // ---------------------------------------------------------------- the clause

  /** ORDER BY, LIMIT and OFFSET as far as they are set. */
  function Tail(orderBy: string, limit: int, offset: int): string {
    (if orderBy != "" then " ORDER BY " + orderBy else "") +
    (if limit > 0 then " LIMIT " + Digits(limit) else "") +
    (if offset > 0 then " OFFSET " + Digits(offset) else "")
  }

  const WHERE := " WHERE "
  const AND := " AND "

  /** What buildSQL writes; an offset alone is dropped. */
  function ClauseText(conds: seq<string>, orderBy: string, limit: int, offset: int, idx: nat): string {
    if conds == [] && orderBy == "" && limit == 0 then ""
    else (if conds != [] then WHERE + Join(Conditions(conds, idx), AND) else "") + Tail(orderBy, limit, offset)
  }

  /** A wanted offset leads to an empty clause exactly when there is neither condition nor order nor limit. */
  lemma OffsetDropped(conds: seq<string>, orderBy: string, limit: int, offset: int, idx: nat)
    requires offset > 0
    ensures ClauseText(conds, orderBy, limit, offset, idx) == "" <==> conds == [] && orderBy == "" && limit == 0
  {
    hide Conditions, Join, Digits;
    assert |Tail(orderBy, limit, offset)| >= |" OFFSET "|;
  }

  /** One call of And: a condition and its arguments. */
  datatype Call = Call(text: string, args: seq<Value>)

  function Texts(calls: seq<Call>): (r: seq<string>)
    ensures |r| == |calls|
  {
    seq(|calls|, k requires 0 <= k < |calls| => calls[k].text)
  }

  function AllArgs(calls: seq<Call>): seq<Value> {
    if calls == [] then [] else AllArgs(calls[..|calls| - 1]) + calls[|calls| - 1].args
  }

  /** The convention: one argument per placeholder, left to right. */
  predicate Positional(calls: seq<Call>) {
    forall c :: c in calls ==> Marks(Tokens(c.text)) == |c.args|
  }

  function ArgCount(calls: seq<Call>): nat {
    if calls == [] then 0 else ArgCount(calls[..|calls| - 1]) + |calls[|calls| - 1].args|
  }

  /** Argument i of call k stands `at` + i behind those of the calls before. */
  ghost predicate EachArgAt(args: seq<Value>, at: nat, calls: seq<Call>) {
    forall k, i :: 0 <= k < |calls| && 0 <= i < |calls[k].args| ==>
      At(args, at + ArgCount(calls[..k]) + i) == Some(calls[k].args[i])
  }

  lemma ArgsBefore(xs: seq<Value>, ys: seq<Value>, at: nat, calls: seq<Call>)
    requires EachArgAt(xs, at, calls)
    ensures EachArgAt(xs + ys, at, calls)
  {
    hide ArgCount;
    forall k, i | 0 <= k < |calls| && 0 <= i < |calls[k].args|
      ensures At(xs + ys, at + ArgCount(calls[..k]) + i) == Some(calls[k].args[i])
    {
      assert At(xs, at + ArgCount(calls[..k]) + i) == Some(calls[k].args[i]);
    }
  }

  lemma OneMoreCall(args: seq<Value>, at: nat, front: seq<Call>, c: Call)
    requires EachArgAt(args, at, front)
    requires forall i :: 0 <= i < |c.args| ==> At(args, at + ArgCount(front) + i) == Some(c.args[i])
    ensures EachArgAt(args, at, front + [c]) && ArgCount(front + [c]) == ArgCount(front) + |c.args|
  {
    hide At;
    var calls := front + [c];
    assert calls[..|front|] == front;
    forall k, i | 0 <= k < |calls| && 0 <= i < |calls[k].args|
      ensures At(args, at + ArgCount(calls[..k]) + i) == Some(calls[k].args[i])
    {
      if k < |front| { assert front[k] == calls[k] && front[..k] == calls[..k]; }
    }
  }

  lemma {:induction false} AllArgsAt(calls: seq<Call>)
    ensures |AllArgs(calls)| == ArgCount(calls) && EachArgAt(AllArgs(calls), 0, calls)
  {
    if calls != [] {
      hide EachArgAt;
      var front, last := calls[..|calls| - 1], calls[|calls| - 1];
      assert calls == front + [last];
      AllArgsAt(front);
      ArgsBefore(AllArgs(front), last.args, 0, front);
      OneMoreCall(AllArgs(calls), 0, front, last);
    }
  }

  /** Every condition with its own arguments. */
  function Filled(calls: seq<Call>): (r: seq<seq<Piece>>) {
    seq(|calls|, k requires 0 <= k < |calls| => Fill(Tokens(calls[k].text), calls[k].args))
  }

  lemma CallsSnoc(calls: seq<Call>, c: Call)
    ensures Texts(calls + [c]) == Texts(calls) + [c.text] && AllArgs(calls + [c]) == AllArgs(calls) + c.args
  {
    assert (calls + [c])[..|calls|] == calls;
  }

  lemma {:induction false} OneArgPerMark(calls: seq<Call>)
    requires Positional(calls)
    ensures MarkSum(Texts(calls)) == |AllArgs(calls)|
  {
    if calls != [] {
      hide Tokens, Marks;
      var i := |calls| - 1;
      assert calls[i] in calls && Positional(calls[..i]);
      OneArgPerMark(calls[..i]);
      assert calls == calls[..i] + [calls[i]];
      CallsSnoc(calls[..i], calls[i]);
      ConditionsSnoc(Texts(calls[..i]), calls[i].text, 1);
    }
  }

  lemma {:induction false} EachMeans(calls: seq<Call>, at: nat, args: seq<Value>, k: nat)
    requires Positional(calls) && Holds(args, at, AllArgs(calls)) && k < |calls|
    ensures Bind(Tokens(Conditions(Texts(calls), at + 1)[k]), args) == Fill(Tokens(calls[k].text), calls[k].args)
  {
    hide Renumbered, Tokens, Bind, Fill, Marks, MarkSum, Digits, Parse, Conditions;
    var i := |calls| - 1;
    var front, last := calls[..i], calls[i];
    assert last in calls && Positional(front);
    OneArgPerMark(front);
    HoldsParts(args, at, AllArgs(front), last.args);
    assert calls == front + [last];
    CallsSnoc(front, last);
    ConditionsSnoc(Texts(front), last.text, at + 1);
    if k < i {
      EachMeans(front, at, args, k);
    } else {
      MeansAlone(last, at + |AllArgs(front)|, args);
    }
  }

  lemma MeansAlone(c: Call, at: nat, args: seq<Value>)
    requires Marks(Tokens(c.text)) == |c.args| && Holds(args, at, c.args)
    ensures Bind(Tokens(Renumbered(c.text, at + 1)), args) == Fill(Tokens(c.text), c.args)
  {
    Retokenised(c.text, at + 1);
    BindNumber(Tokens(c.text), at, args, c.args);
  }

  /** The joined conditions, with all arguments of the statement, are the conjunction text of every condition
      with its own arguments, wherever these arguments start in the statement's list. */
  lemma ConditionsMean(calls: seq<Call>, at: nat, args: seq<Value>)
    requires Positional(calls) && Holds(args, at, AllArgs(calls))
    ensures Bind(Tokens(Join(Conditions(Texts(calls), at + 1), " AND ")), args) == JoinPieces(Filled(calls), " AND ")
  {
    var parts := Conditions(Texts(calls), at + 1);
    forall k | 0 <= k < |calls| ensures Bind(Tokens(parts[k]), args) ==
      Filled(calls)[k] { EachMeans(calls, at, args, k); }
    BindJoin(parts, Filled(calls), AND, args);
  }

  lemma TailPlain(orderBy: string, limit: int, offset: int)
    requires NoDollar(orderBy)
    ensures NoDollar(Tail(orderBy, limit, offset)) && Separate(Tail(orderBy, limit, offset))
  {
    if limit > 0 { assert forall c :: c in Digits(limit) ==> IsDigit(c); }
    if offset > 0 { assert forall c :: c in Digits(offset) ==> IsDigit(c); }
  }

  /** What the clause means: every condition with its own arguments, joined, then the plain rest. */
  function ClauseMeaning(calls: seq<Call>, orderBy: string, limit: int, offset: int): seq<Piece> {
    if calls == [] && orderBy == "" && limit == 0 then []
    else
      (if calls != [] then Chars(" WHERE ") + JoinPieces(Filled(calls), " AND ") else []) +
      Chars((if orderBy != "" then " ORDER BY " + orderBy else "") +
            (if limit > 0 then " LIMIT " + Digits(limit) else "") +
            (if offset > 0 then " OFFSET " + Digits(offset) else ""))
  }

  lemma ClauseMeans(calls: seq<Call>, orderBy: string, limit: int, offset: int, at: nat, args: seq<Value>)
    requires Positional(calls) && NoDollar(orderBy) && Holds(args, at, AllArgs(calls))
    ensures Bind(Tokens(ClauseText(Texts(calls), orderBy, limit, offset, at + 1)), args) ==
            ClauseMeaning(calls, orderBy, limit, offset)
  {
    hide Tokens, Bind, Conditions, AllArgs, Filled, Holds, Positional, Join, JoinPieces;
    BindPlain("", args);
    var body := Join(Conditions(Texts(calls), at + 1), AND);
    TailPlain(orderBy, limit, offset);
    ConditionsMean(calls, at, args);
    PlainThen(WHERE, body, args);
    BindBefore(if calls != [] then WHERE + body else "", Tail(orderBy, limit, offset), args);
  }

  // ---------------------------------------------------------------- the builder

  class WhereBuilder {
    var conditions: seq<string>
    var args: seq<Value>
    var orderBy: string
    var limit: int
    var offset: int
    ghost var calls: seq<Call>

    /** The fields hold exactly the calls of And, in order. */
    ghost predicate Valid()
      reads this
    {
      conditions == Texts(calls) && args == AllArgs(calls)
    }

    constructor ()
      ensures Valid() && calls == [] && orderBy == "" && limit == 0 && offset == 0
    {
      conditions, args, orderBy, limit, offset := [], [], "", 0, 0;
      calls := [];
    }

    /** The literal copies made by Count and FindPage. */
    constructor Copy(from: WhereBuilder, orderBy: string, limit: int, offset: int)
      requires from.Valid()
      ensures Valid() && calls == from.calls && this.orderBy == orderBy && this.limit == limit && this.offset == offset
    {
      conditions, args := from.conditions, from.args;
      this.orderBy, this.limit, this.offset := orderBy, limit, offset;
      calls := from.calls;
    }

    method And(condition: string, args: seq<Value>)
      requires Valid()
      modifies `conditions, `args, `calls
      ensures Valid() && calls == old(calls) + [Call(condition, args)]
    {
      CallsSnoc(calls, Call(condition, args));
      conditions := conditions + [condition];
      this.args := this.args + args;
      calls := calls + [Call(condition, args)];
    }

    method OrderBy(orderBy: string)
      modifies `orderBy
      ensures this.orderBy == orderBy
    {
      this.orderBy := orderBy;
    }

    method Limit(limit: int)
      modifies `limit
      ensures this.limit == limit
    {
      this.limit := limit;
    }

    method Offset(offset: int)
      modifies `offset
      ensures this.offset == offset
    {
      this.offset := offset;
    }
  }

  // ---------------------------------------------------------------- what the server reads at the end

  function TrailingDigits(s: string): (n: nat)
    ensures n <= |s| && AllDigits(s[|s| - n..]) && (n < |s| ==> !IsDigit(s[|s| - n - 1]))
  {
    if s == "" || !IsDigit(s[|s| - 1]) then 0
    else
      var n := TrailingDigits(s[..|s| - 1]);
      assert forall i :: |s| - 1 - n <= i < |s| - 1 ==> s[i] == s[..|s| - 1][|s| - 1 - n..][i - (|s| - 1 - n)];
      n + 1
  }

  predicate EndsWith(s: string, end: string) {
    |end| <= |s| && s[|s| - |end|..] == end
  }

  /** A number at the end of a statement behind `word`: what stands before the word, and the number. */
  function TakeNumber(s: string, word: string): Option<(string, nat)> {
    var n := TrailingDigits(s);
    var rest := s[..|s| - n];
    if n > 0 && EndsWith(rest, word) then Some((rest[..|rest| - |word|], Parse(s[|s| - n..]))) else None
  }

  /** What a query asks for at its end: no limit means all rows, and no offset none skipped. */
  datatype Reading = Reading(front: string, limit: Option<nat>, offset: nat)

  /** A server takes OFFSET off the end, then LIMIT. */
  function ReadEnd(sql: string): Reading {
    var skip := TakeNumber(sql, " OFFSET ");
    var front := if skip.Some? then skip.value.0 else sql;
    var most := TakeNumber(front, " LIMIT ");
    Reading(if most.Some? then most.value.0 else front, if most.Some? then Some(most.value.1) else None,
            if skip.Some? then skip.value.1 else 0)
  }

  lemma {:induction false} TrailingIs(head: string, d: string)
    requires AllDigits(d) && (head != "" ==> !IsDigit(head[|head| - 1]))
    ensures TrailingDigits(head + d) == |d|
  {
    if d == "" {
      assert head + d == head;
    } else {
      var i := |d| - 1;
      TrailingIs(head, d[..i]);
      var s := head + d;
      assert s[..|s| - 1] == head + d[..i] && s[|s| - 1] == d[i];
    }
  }

  lemma TakeWritten(head: string, word: string, n: nat, other: string)
    requires word != "" && !IsDigit(word[|word| - 1])
    ensures TakeNumber(head + word + Digits(n), word) == Some((head, n))
    ensures !EndsWith(head + word, other) ==> TakeNumber(head + word + Digits(n), other) == None
  {
    TrailingIs(head + word, Digits(n));
    ParseDigits(n);
    var s := head + word + Digits(n);
    assert s[..|s| - |Digits(n)|] == head + word && s[|s| - |Digits(n)|..] == Digits(n);
    assert (head + word)[..|head|] == head && (head + word)[|head|..] == word;
  }

  lemma LimitIsNotOffset(head: string)
    ensures !EndsWith(head + " LIMIT ", " OFFSET ")
  {
    NotAtEnd(head + " LIMIT ", " OFFSET ", 5);
  }

  lemma NotAtEnd(s: string, end: string, i: nat)
    requires i < |end| && (|end| <= |s| ==> s[|s| - |end| + i] != end[i])
    ensures !EndsWith(s, end)
  {
    if |end| <= |s| { assert s[|s| - |end|..][i] == s[|s| - |end| + i]; }
  }

  /** The words are read back as they were meant: the limit from LIMIT, the offset from OFFSET. */
  lemma EndRead(head: string, limit: nat, offset: nat)
    ensures ReadEnd(head + " LIMIT " + Digits(limit) + (if offset > 0 then " OFFSET " + Digits(offset) else "")) ==
            Reading(head, Some(limit), offset)
  {
    hide TakeNumber, Digits, EndsWith;
    var limited := head + " LIMIT " + Digits(limit);
    TakeWritten(head, " LIMIT ", limit, " OFFSET ");
    LimitIsNotOffset(head);
    if offset > 0 {
      TakeWritten(limited, " OFFSET ", offset, "");
      Assoc(limited, " OFFSET ", Digits(offset));
    } else {
      assert limited + "" == limited;
    }
  }

  /** Scanner state: `done` is written, `rest` is still to read, and the next number is `argIdx`. */
  ghost predicate Scanning(cond: string, startIdx: nat, rest: string, done: string, argIdx: nat) {
    && Renumbered(cond, startIdx) == done + Renumbered(rest, argIdx)
    && argIdx + Marks(Tokens(rest)) == startIdx + Marks(Tokens(cond))
  }

  lemma ScanMark(cond: string, startIdx: nat, d: string, rest: string, done: string, argIdx: nat)
    requires AllDigits(d) && Separate(rest)
    requires Scanning(cond, startIdx, "$" + d + rest, done, argIdx)
    ensures Scanning(cond, startIdx, rest, done + ("$" + Digits(argIdx)), argIdx + 1)
  {
    TokensOfMark(d, rest);
    assert ([Mark(d)] + Tokens(rest))[1..] == Tokens(rest);
    var us := Number(Tokens(rest), argIdx + 1);
    assert ([Mark(Digits(argIdx))] + us)[1..] == us;
    Assoc(done, "$" + Digits(argIdx), Print(us));
  }

  lemma ScanLit(cond: string, startIdx: nat, c: char, rest: string, done: string, argIdx: nat)
    requires c != '$' && Scanning(cond, startIdx, [c] + rest, done, argIdx)
    ensures Scanning(cond, startIdx, rest, done + [c], argIdx)
  {
    TokensOfLit(c, rest);
    assert ([Lit(c)] + Tokens(rest))[1..] == Tokens(rest);
    var us := Number(Tokens(rest), argIdx);
    assert ([Lit(c)] + us)[1..] == us;
    Assoc(done, [c], Print(us));
  }

  lemma ScanStart(cond: string, startIdx: nat)
    ensures Scanning(cond, startIdx, cond, "", startIdx)
  {
  }

  lemma ScanEnd(cond: string, startIdx: nat, done: string, argIdx: nat)
    requires Scanning(cond, startIdx, "", done, argIdx)
    ensures done == Renumbered(cond, startIdx) && argIdx == startIdx + Marks(Tokens(cond))
  {
    assert Tokens("") == [] && Renumbered("", argIdx) == "";
  }

  /** Past the digits behind a `$`. */
  method SkipDigits(cond: string, i: nat) returns (j: nat)
    requires i < |cond|
    ensures i < j <= |cond| && AllDigits(cond[i + 1..j]) && Separate(cond[j..])
    ensures cond[i..] == [cond[i]] + cond[i + 1..j] + cond[j..]
  {
    j := i + 1;
    while j < |cond| && IsDigit(cond[j])
      invariant i < j <= |cond| && forall k :: i < k < j ==> IsDigit(cond[k])
    {
      j := j + 1;
    }
  }

  /** The scanner over one condition's bytes. */
  method Reindex(cond: string, startIdx: nat) returns (newCond: string, argIdx: nat)
    ensures newCond == Renumbered(cond, startIdx) && argIdx == startIdx + Marks(Tokens(cond))
  {
    hide Scanning, Renumbered, Tokens, Marks, Digits;
    newCond, argIdx := "", startIdx;
    var i := 0;
    ScanStart(cond, startIdx);
    assert cond[0..] == cond;
    while i < |cond|
      invariant i <= |cond| && Scanning(cond, startIdx, cond[i..], newCond, argIdx)
    {
      if cond[i] == '$' {
        var j := SkipDigits(cond, i);
        ScanMark(cond, startIdx, cond[i + 1..j], cond[j..], newCond, argIdx);
        newCond := newCond + ("$" + Digits(argIdx));
        argIdx := argIdx + 1;
        i := j;
      } else {
        assert cond[i..] == [cond[i]] + cond[i + 1..];
        ScanLit(cond, startIdx, cond[i], cond[i + 1..], newCond, argIdx);
        newCond := newCond + [cond[i]];
        i := i + 1;
      }
    }
    assert cond[i..] == "";
    ScanEnd(cond, startIdx, newCond, argIdx);
  }

  method ReindexAll(conditions: seq<string>, startIdx: nat) returns (reindexed: seq<string>)
    ensures reindexed == Conditions(conditions, startIdx)
  {
    reindexed := [];
    var argIdx := startIdx;
    var k := 0;
    while k < |conditions|
      invariant k <= |conditions|
      invariant reindexed == Conditions(conditions[..k], startIdx) && argIdx == startIdx + MarkSum(conditions[..k])
    {
      assert conditions[..k + 1] == conditions[..k] + [conditions[k]];
      ConditionsSnoc(conditions[..k], conditions[k], startIdx);
      var newCond;
      newCond, argIdx := Reindex(conditions[k], argIdx);
      reindexed := reindexed + [newCond];
      k := k + 1;
    }
    assert conditions[..k] == conditions;
  }

  lemma TailParts(head: string, orderBy: string, limit: int, offset: int)
    ensures head + Tail(orderBy, 0, 0) + Tail("", limit, 0) + Tail("", 0, offset) == head + Tail(orderBy, limit, offset)
  {
    Assoc(head, Tail(orderBy, 0, 0), Tail("", limit, 0));
    Assoc(head, Tail(orderBy, 0, 0) + Tail("", limit, 0), Tail("", 0, offset));
  }

  method AddTail(head: string, orderBy: string, limit: int, offset: int) returns (clause: string)
    ensures clause == head + Tail(orderBy, limit, offset)
  {
    clause := head;
    if orderBy != "" {
      clause := clause + (" ORDER BY " + orderBy);
    }
    ghost var ordered := clause;
    assert ordered == head + Tail(orderBy, 0, 0);
    if limit > 0 {
      clause := clause + (" LIMIT " + Digits(limit));
    }
    ghost var limited := clause;
    assert limited == ordered + Tail("", limit, 0);
    if offset > 0 {
      clause := clause + (" OFFSET " + Digits(offset));
    }
    assert clause == limited + Tail("", 0, offset);
    TailParts(head, orderBy, limit, offset);
  }

  /** buildSQL, also for a nil builder: the clause, and the arguments unless there is nothing to write. */
  method BuildSQL(wb: WhereBuilder?, startIdx: nat) returns (clause: string, args: seq<Value>)
    requires wb != null ==> wb.Valid()
    ensures wb == null ==> clause == "" && args == []
    ensures wb != null ==>
            clause == ClauseText(Texts(wb.calls), wb.orderBy, wb.limit, wb.offset, startIdx) &&
            args == AllArgs(wb.calls)
    ensures wb != null && (wb.calls != [] || wb.orderBy != "" || wb.limit != 0) ==>
            clause == (if wb.calls == [] then ""
                       else " WHERE " + Join(Conditions(Texts(wb.calls), startIdx), " AND ")) +
                      ((if wb.orderBy != "" then " ORDER BY " + wb.orderBy else "") +
                       (if wb.limit > 0 then " LIMIT " + Digits(wb.limit) else "") +
                       (if wb.offset > 0 then " OFFSET " + Digits(wb.offset) else ""))
    ensures wb != null && wb.calls == [] && wb.orderBy == "" && wb.limit == 0 ==> clause == ""
    ensures wb != null ==> |args| == ArgCount(wb.calls) && EachArgAt(args, 0, wb.calls)
  {
    hide Conditions, Join, EachArgAt, ArgCount, Digits;
    if wb != null { AllArgsAt(wb.calls); }
    if wb == null || (|wb.conditions| == 0 && wb.orderBy == "" && wb.limit == 0) {
      return "", [];
    }
    var reindexed := ReindexAll(wb.conditions, startIdx);
    clause := "";
    if |reindexed| > 0 {
      clause := WHERE + Join(reindexed, AND);
    }
    clause := AddTail(clause, wb.orderBy, wb.limit, wb.offset);
    args := wb.args;
  }
}
