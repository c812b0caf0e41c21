/** pgsql/update.go: assignments and expressions collected for SET, and the clause built from them. */
module UpdateClauses {
  import opened Common
  import opened Placeholders

  // ---------------------------------------------------------------- strings.Replace(s, "$1", r, 1)

  function ReplaceOne(s: string, r: string): string {
    if |s| < 2 then s
    else if s[0] == '$' && s[1] == '1' then r + s[2..]
    else [s[0]] + ReplaceOne(s[1..], r)
  }

  /** The same on tokens: the first placeholder whose digits begin with 1 has that 1 replaced. */
  function Bump(ts: seq<Token>, d: string): (r: seq<Token>)
    ensures |r| == |ts|
  {
    if ts == [] then []
    else if ts[0].Mark? && LeadingOne(ts[0].digits) then [Mark(d + ts[0].digits[1..])] + ts[1..]
    else [ts[0]] + Bump(ts[1..], d)
  }

  predicate LeadingOne(d: string) {
    d != "" && d[0] == '1'
  }

  lemma {:induction false} ReplaceBehind(p: string, rest: string, r: string)
    requires NoDollar(p)
    ensures ReplaceOne(p + rest, r) == p + ReplaceOne(rest, r)
  {
    if p == "" {
      assert p + rest == rest;
      assert p + ReplaceOne(rest, r) == ReplaceOne(rest, r);
    } else {
      ReplaceBehind(p[1..], rest, r);
      assert (p + rest)[1..] == p[1..] + rest;
      Assoc([p[0]], p[1..], ReplaceOne(rest, r));
      assert [p[0]] + p[1..] == p;
    }
  }

  lemma ReplaceAtMark(d0: string, rest: string, r: string)
    requires AllDigits(d0) && Separate(rest)
    ensures LeadingOne(d0) ==> ReplaceOne("$" + d0 + rest, r) == r + d0[1..] + rest
    ensures !LeadingOne(d0) ==> ReplaceOne("$" + d0 + rest, r) == "$" + d0 + ReplaceOne(rest, r)
  {
    var s := "$" + d0 + rest;
    assert s[1..] == d0 + rest;
    if LeadingOne(d0) {
      assert s[2..] == d0[1..] + rest;
      Assoc(r, d0[1..], rest);
    } else {
      ReplaceBehind(d0, rest, r);
      Assoc("$", d0, ReplaceOne(rest, r));
    }
  }

  lemma ReplaceSeparate(s: string, d: string)
    requires Separate(s)
    ensures Separate(ReplaceOne(s, "$" + d))
  {
  }

  lemma {:induction false} ReplaceTokens(s: string, d: string)
    requires AllDigits(d)
    ensures Tokens(ReplaceOne(s, "$" + d)) == Bump(Tokens(s), d)
    decreases |s|
  {
    hide Tokens, ReplaceOne, AllDigits, Separate;
    if s == "" {
      ReplaceNothing(d);
    } else if s[0] == '$' {
      SplitMark(s);
      var d0, rest := s[1..1 + Run(s[1..])], s[1 + Run(s[1..])..];
      ReplaceAtMark(d0, rest, "$" + d);
      BumpMark(d0, rest, d);
      ReplaceTokens(rest, d);
      ReplaceSeparate(rest, d);
      if !LeadingOne(d0) { TokensOfMark(d0, ReplaceOne(rest, "$" + d)); }
    } else {
      var rest := s[1..];
      assert s == [s[0]] + rest;
      TokensOfLit(s[0], rest);
      ReplaceBehind([s[0]], rest, "$" + d);
      ReplaceTokens(rest, d);
      TokensOfLit(s[0], ReplaceOne(rest, "$" + d));
      assert ([Lit(s[0])] + Tokens(rest))[1..] == Tokens(rest);
    }
  }

  lemma ReplaceNothing(d: string)
    ensures ReplaceOne("", "$" + d) == "" && Tokens("") == []
  {
  }

  lemma BumpMark(d0: string, rest: string, d: string)
    requires AllDigits(d0) && AllDigits(d) && Separate(rest)
    ensures Bump([Mark(d0)] + Tokens(rest), d) ==
            if LeadingOne(d0) then [Mark(d + d0[1..])] + Tokens(rest) else [Mark(d0)] + Bump(Tokens(rest), d)
    ensures LeadingOne(d0) ==> Tokens("$" + d + d0[1..] + rest) == [Mark(d + d0[1..])] + Tokens(rest)
  {
    assert ([Mark(d0)] + Tokens(rest))[1..] == Tokens(rest);
    if LeadingOne(d0) {
      TokensOfMark(d + d0[1..], rest);
      Assoc("$", d, d0[1..]);
    }
  }

  /** `%d` prints i with a leading 1. */
  predicate StartsWithOne(i: nat) {
    LeadingOne(Digits(i))
  }

  // ---------------------------------------------------------------- the expression loop

  /** The expression after n rounds, the first one inserting `$idx`. */
  function Resolved(expr: string, n: nat, idx: nat): string {
    if n == 0 then expr else ReplaceOne(Resolved(expr, n - 1, idx), "$" + Digits(idx + n - 1))
  }

  function Rounds(ts: seq<Token>, n: nat, idx: nat): seq<Token> {
    if n == 0 then ts else Bump(Rounds(ts, n - 1, idx), Digits(idx + n - 1))
  }

  lemma {:induction false} ResolvedTokens(expr: string, n: nat, idx: nat)
    ensures Tokens(Resolved(expr, n, idx)) == Rounds(Tokens(expr), n, idx)
  {
    if n > 0 {
      ResolvedTokens(expr, n - 1, idx);
      ReplaceTokens(Resolved(expr, n - 1, idx), Digits(idx + n - 1));
    }
  }

  /** The convention for expressions: every placeholder is written `$1`. */
  predicate Marked(ts: seq<Token>) {
    forall t :: t in ts && t.Mark? ==> t.digits == "1"
  }

  /** The first m placeholders numbered. */
  function NumberFirst(ts: seq<Token>, m: nat, idx: nat): (r: seq<Token>)
    ensures |r| == |ts|
  {
    if ts == [] || m == 0 then ts
    else if ts[0].Mark? then [Mark(Digits(idx))] + NumberFirst(ts[1..], m - 1, idx + 1)
    else [ts[0]] + NumberFirst(ts[1..], m, idx)
  }

  lemma {:induction false} NumberFirstAll(ts: seq<Token>, idx: nat)
    ensures NumberFirst(ts, Marks(ts), idx) == Number(ts, idx)
  {
    if ts != [] {
      NumberFirstAll(ts[1..], if ts[0].Mark? then idx + 1 else idx);
      if Marks(ts) == 0 { NumberPlainTail(ts, idx); }
    }
  }

  lemma NumberFirstNone(ts: seq<Token>, idx: nat)
    ensures NumberFirst(ts, 0, idx) == ts
  {
  }

  lemma {:induction false} NumberPlainTail(ts: seq<Token>, idx: nat)
    requires Marks(ts) == 0
    ensures Number(ts, idx) == ts
  {
    if ts != [] { NumberPlainTail(ts[1..], idx); }
  }

  /** While no number put in starts with 1, the next round finds the next marker. */
  lemma {:induction false} BumpNext(ts: seq<Token>, m: nat, idx: nat)
    requires Marked(ts) && m < Marks(ts) && forall i :: idx <= i < idx + m ==> !StartsWithOne(i)
    ensures Bump(NumberFirst(ts, m, idx), Digits(idx + m)) == NumberFirst(ts, m + 1, idx)
  {
    hide Digits;
    assert ts[0] in ts && Marked(ts[1..]);
    if m == 0 {
      BumpFirst(ts, Digits(idx), idx);
    } else if ts[0].Mark? {
      assert !StartsWithOne(idx);
      BumpNext(ts[1..], m - 1, idx + 1);
      assert NumberFirst(ts, m, idx)[1..] == NumberFirst(ts[1..], m - 1, idx + 1);
    } else {
      BumpNext(ts[1..], m, idx);
      assert NumberFirst(ts, m, idx)[1..] == NumberFirst(ts[1..], m, idx);
    }
  }

  lemma {:induction false} BumpFirst(ts: seq<Token>, d: string, idx: nat)
    requires Marked(ts) && 0 < Marks(ts) && d == Digits(idx)
    ensures Bump(ts, d) == NumberFirst(ts, 1, idx)
  {
    hide Digits;
    assert ts[0] in ts && Marked(ts[1..]);
    if ts[0].Mark? {
      assert d + "1"[1..] == d;
    } else {
      BumpFirst(ts[1..], d, idx);
    }
  }

  lemma {:induction false} RoundsNumber(ts: seq<Token>, m: nat, idx: nat)
    requires Marked(ts) && m <= Marks(ts) && forall i :: idx <= i < idx + m - 1 ==> !StartsWithOne(i)
    ensures Rounds(ts, m, idx) == NumberFirst(ts, m, idx)
  {
    hide Digits, Bump, NumberFirst, Marked, Marks;
    if m == 0 {
      NumberFirstNone(ts, idx);
    } else {
      RoundsNumber(ts, m - 1, idx);
      BumpNext(ts, m - 1, idx);
    }
  }

  // ---------------------------------------------------------------- when it goes wrong

  /** From the q-th placeholder on, all still read `$1`. */
  predicate Untouched(ts: seq<Token>, q: nat) {
    ts == [] ||
    if ts[0].Lit? then Untouched(ts[1..], q)
    else if q == 0 then ts[0].digits == "1" && Untouched(ts[1..], 0)
    else Untouched(ts[1..], q - 1)
  }

  /** Behind the q-th all still read `$1`, and one up to the q-th has digits that begin with 1: the next round
      replaces that one again. */
  predicate Stuck(ts: seq<Token>, q: nat) {
    ts != [] &&
    if ts[0].Lit? then Stuck(ts[1..], q)
    else if LeadingOne(ts[0].digits) then Untouched(ts[1..], q)
    else q > 0 && Stuck(ts[1..], q - 1)
  }

  lemma {:induction false} UntouchedMore(ts: seq<Token>, q: nat)
    requires Untouched(ts, q)
    ensures Untouched(ts, q + 1)
  {
    if ts != [] { UntouchedMore(ts[1..], if ts[0].Lit? || q == 0 then q else q - 1); }
  }

  lemma {:induction false} BumpUntouched(ts: seq<Token>, q: nat, d: string)
    requires Untouched(ts, q)
    ensures Untouched(Bump(ts, d), q + 1) && Marks(Bump(ts, d)) == Marks(ts)
    ensures LeadingOne(d) && q < Marks(ts) ==> Stuck(Bump(ts, d), q)
  {
    if ts != [] {
      if ts[0].Mark? && LeadingOne(ts[0].digits) {
        assert Bump(ts, d)[1..] == ts[1..];
        if q > 0 { UntouchedMore(ts[1..], q - 1); }
      } else {
        BumpUntouched(ts[1..], if ts[0].Lit? then q else q - 1, d);
        assert Bump(ts, d)[1..] == Bump(ts[1..], d);
      }
    }
  }

  lemma {:induction false} BumpStuck(ts: seq<Token>, q: nat, d: string)
    requires Stuck(ts, q)
    ensures Untouched(Bump(ts, d), q + 1)
  {
    if ts[0].Mark? && LeadingOne(ts[0].digits) {
      assert Bump(ts, d)[1..] == ts[1..];
    } else {
      BumpStuck(ts[1..], if ts[0].Lit? then q else q - 1, d);
      assert Bump(ts, d)[1..] == Bump(ts[1..], d);
    }
  }

  lemma {:induction false} MarkedUntouched(ts: seq<Token>)
    requires Marked(ts)
    ensures Untouched(ts, 0)
  {
    if ts != [] {
      assert ts[0] in ts && Marked(ts[1..]);
      MarkedUntouched(ts[1..]);
    }
  }

  /** Each round moves on by one placeholder at most. */
  lemma {:induction false} RoundsUntouched(ts: seq<Token>, m: nat, idx: nat)
    requires Marked(ts)
    ensures Untouched(Rounds(ts, m, idx), m) && Marks(Rounds(ts, m, idx)) == Marks(ts)
  {
    if m == 0 {
      MarkedUntouched(ts);
    } else {
      RoundsUntouched(ts, m - 1, idx);
      BumpUntouched(Rounds(ts, m - 1, idx), m - 1, Digits(idx + m - 1));
    }
  }

  /** A number that starts with 1 is hit again in the next round, and from then on the rounds lag behind. */
  lemma {:induction false} RoundsLag(ts: seq<Token>, m: nat, idx: nat, j: nat)
    requires Marked(ts) && j + 2 <= m <= Marks(ts) && StartsWithOne(idx + j)
    ensures Untouched(Rounds(ts, m, idx), m - 1) && Marks(Rounds(ts, m, idx)) == Marks(ts)
  {
    hide Digits, Bump, Untouched, Marks, Stuck, Marked;
    RoundsUntouched(ts, m, idx);
    if m == j + 2 {
      RoundsUntouched(ts, j, idx);
      BumpUntouched(Rounds(ts, j, idx), j, Digits(idx + j));
      BumpStuck(Rounds(ts, j + 1, idx), j, Digits(idx + j + 1));
    } else {
      RoundsLag(ts, m - 1, idx, j);
      BumpUntouched(Rounds(ts, m - 1, idx), m - 2, Digits(idx + m - 1));
    }
  }

  /** If the last placeholder of a numbered text reads `$1`, its number is 1. */
  lemma {:induction false} LastNumber(ts: seq<Token>, idx: nat, q: nat)
    requires Marks(ts) == q + 1 && Untouched(Number(ts, idx), q)
    ensures idx + q == 1
  {
    hide Digits;
    var next := if ts[0].Mark? then idx + 1 else idx;
    assert Number(ts, idx)[1..] == Number(ts[1..], next);
    if ts[0].Lit? {
      LastNumber(ts[1..], idx, q);
    } else if q > 0 {
      LastNumber(ts[1..], idx + 1, q - 1);
    } else {
      ParseDigits(idx);
      assert Parse("1") == 1;
    }
  }

  /** An expression with one argument per marker comes out numbered idx, idx + 1, ... if and only if no number
      before the last starts with the digit 1. */
  lemma ExpressionNumbered(expr: string, idx: nat)
    requires idx >= 1 && Marked(Tokens(expr))
    ensures var ts := Tokens(expr); var n := Marks(ts);
            Tokens(Resolved(expr, n, idx)) == Number(ts, idx) <==> forall i ::
              idx <= i < idx + n - 1 ==> !StartsWithOne(i)
  {
    var ts := Tokens(expr);
    var n := Marks(ts);
    hide Digits, Tokens, Rounds, Number, NumberFirst, Marks, Untouched, Marked, Resolved, StartsWithOne;
    ResolvedTokens(expr, n, idx);
    if i :| idx <= i < idx + n - 1 && StartsWithOne(i) {
      RoundsLag(ts, n, idx, i - idx);
      if Rounds(ts, n, idx) == Number(ts, idx) { LastNumber(ts, idx, n - 1); }
    } else {
      RoundsNumber(ts, n, idx);
      NumberFirstAll(ts, idx);
    }
  }

  /** So a first expression of an UPDATE, numbered from 1, never comes out right with more than one argument. */
  lemma FirstExpressionFails(expr: string)
    requires Marked(Tokens(expr)) && Marks(Tokens(expr)) > 1
    ensures Tokens(Resolved(expr, Marks(Tokens(expr)), 1)) != Number(Tokens(expr), 1)
  {
    ExpressionNumbered(expr, 1);
    assert StartsWithOne(1);
  }

  // ---------------------------------------------------------------- SET entries

  /** An entry without expression assigns its first argument to its column. */
  datatype Entry = Entry(column: string, expr: string, args: seq<Value>)

  /** What the loop appends for one entry. */
  function EntryText(e: Entry, idx: nat): string {
    if e.expr == "" then e.column + " = $" + Digits(idx) else Resolved(e.expr, |e.args|, idx)
  }

  function EntryArgs(e: Entry): seq<Value> {
    if e.expr == "" && |e.args| > 0 then [e.args[0]] else e.args
  }

  function SetArgs(entries: seq<Entry>): seq<Value> {
    if entries == [] then [] else SetArgs(entries[..|entries| - 1]) + EntryArgs(entries[|entries| - 1])
  }

  function EntryTexts(entries: seq<Entry>, idx: nat): (r: seq<string>)
    ensures |r| == |entries|
  {
    if entries == [] then []
    else var front := entries[..|entries| - 1];
         EntryTexts(front, idx) + [EntryText(entries[|entries| - 1], idx + |SetArgs(front)|)]
  }

  /** What buildSQL would panic on: an empty expression without arguments. */
  predicate Complete(entries: seq<Entry>) {
    forall e :: e in entries && e.expr == "" ==> |e.args| > 0
  }

  /** The assignment or expression as its author wrote it. */
  function Written(e: Entry): string {
    if e.expr == "" then e.column + " = $1" else e.expr
  }

  /** One argument per `$1`, and numbers that the expression loop does not trip over. */
  predicate Conventional(e: Entry, idx: nat) {
    if e.expr == "" then |e.args| > 0 && NoDollar(e.column)
    else && Marked(Tokens(e.expr)) && Marks(Tokens(e.expr)) == |e.args|
         && forall i :: idx <= i < idx + |e.args| - 1 ==> !StartsWithOne(i)
  }

  lemma ColumnNumbered(column: string, d: string)
    requires NoDollar(column) && AllDigits(d)
    ensures Tokens(column + " = $" + d) == Lits(column + " = ") + [Mark(d)]
  {
    assert column + " = $" + d == (column + " = ") + ("$" + d + "");
    TokensOfMark(d, "");
    TokensPlainThen(column + " = ", "$" + d + "");
  }

  lemma OneMark(idx: nat)
    ensures Number([Mark("1")], idx) == [Mark(Digits(idx))] && Marks([Mark("1")]) == 1
  {
  }

  lemma ColumnEntryNumbered(column: string, idx: nat)
    requires NoDollar(column)
    ensures Tokens(column + " = $" + Digits(idx)) == Number(Tokens(column + " = $" + "1"), idx)
    ensures Marks(Tokens(column + " = $" + "1")) == 1
  {
    var ls := Lits(column + " = ");
    ColumnNumbered(column, Digits(idx));
    ColumnNumbered(column, "1");
    hide Tokens, Lits, Number, Marks, Digits;
    OneMark(idx);
    NumberConcat(ls, [Mark("1")], idx);
    NumberPlain(ls, idx);
  }

  lemma EntryNumbered(e: Entry, idx: nat)
    requires idx >= 1 && Conventional(e, idx)
    ensures Tokens(EntryText(e, idx)) == Number(Tokens(Written(e)), idx) && Marks(Tokens(Written(e))) == |EntryArgs(e)|
  {
    hide Tokens, Number, Marks, Digits;
    if e.expr == "" {
      ColumnEntryNumbered(e.column, idx);
      assert e.column + " = $" + "1" == e.column + " = $1";
    } else {
      ExpressionNumbered(e.expr, idx);
    }
  }

  predicate AllConventional(entries: seq<Entry>, idx: nat) {
    forall k {:trigger entries[k]} :: 0 <= k < |entries| ==> Conventional(entries[k], idx + |SetArgs(entries[..k])|)
  }

  /** What an entry is to mean: its column gets its first argument, or its expression has its own arguments in
      order. */
  function Assignment(e: Entry): seq<Piece> {
    if e.expr == "" then Chars(e.column + " = ") + [if e.args == [] then Unbound else Arg(e.args[0])]
    else Fill(Tokens(e.expr), e.args)
  }

  /** Every assignment with its own arguments. */
  function FilledEntries(entries: seq<Entry>): seq<seq<Piece>> {
    seq(|entries|, k requires 0 <= k < |entries| => Assignment(entries[k]))
  }

  lemma {:induction false} FillLits(s: string, ts: seq<Token>, args: seq<Value>)
    ensures Fill(Lits(s) + ts, args) == Chars(s) + Fill(ts, args)
  {
    if s == "" {
      assert Lits(s) + ts == ts;
    } else {
      hide Fill;
      FillLits(s[1..], ts, args);
      Assoc([Lit(s[0])], Lits(s[1..]), ts);
      FillLit(s[0], Lits(s[1..]) + ts, args);
      assert Chars(s) == [Char(s[0])] + Chars(s[1..]);
      Assoc([Char(s[0])], Chars(s[1..]), Fill(ts, args));
    }
  }

  lemma FillLit(c: char, ts: seq<Token>, args: seq<Value>)
    ensures Fill([Lit(c)] + ts, args) == [Char(c)] + Fill(ts, args)
  {
    assert ([Lit(c)] + ts)[1..] == ts;
  }

  lemma FillOne(d: string, v: Value)
    ensures Fill([Mark(d)], [v]) == [Arg(v)]
  {
    assert Fill([], []) == [];
  }

  /** Filled as written, an entry is the assignment. */
  lemma WrittenMeans(e: Entry, idx: nat)
    requires Conventional(e, idx)
    ensures Fill(Tokens(Written(e)), EntryArgs(e)) == Assignment(e)
  {
    if e.expr == "" {
      hide Tokens, Fill, Lits, Chars;
      ColumnNumbered(e.column, "1");
      assert e.column + " = $" + "1" == e.column + " = $1";
      FillLits(e.column + " = ", [Mark("1")], [e.args[0]]);
      FillOne("1", e.args[0]);
    }
  }

  /** How many arguments of an entry are sent: all of an expression, the first of an assignment. */
  function Slots(e: Entry): (n: nat)
    ensures n <= |e.args|
  {
    if e.expr == "" && |e.args| > 0 then 1 else |e.args|
  }

  function SlotCount(entries: seq<Entry>): nat {
    if entries == [] then 0 else SlotCount(entries[..|entries| - 1]) + Slots(entries[|entries| - 1])
  }

  /** Argument i of entry k stands behind those of the entries before. */
  ghost predicate EachSlotAt(args: seq<Value>, entries: seq<Entry>) {
    forall k, i :: 0 <= k < |entries| && 0 <= i < Slots(entries[k]) ==>
      At(args, SlotCount(entries[..k]) + i) == Some(entries[k].args[i])
  }

  lemma SlotsOfOne(e: Entry, at: nat, args: seq<Value>)
    requires |args| == at
    ensures |EntryArgs(e)| == Slots(e)
    ensures forall i :: 0 <= i < Slots(e) ==> At(args + EntryArgs(e), at + i) == Some(e.args[i])
  {
  }

  lemma SlotsBefore(xs: seq<Value>, ys: seq<Value>, entries: seq<Entry>)
    requires EachSlotAt(xs, entries)
    ensures EachSlotAt(xs + ys, entries)
  {
    hide SlotCount, Slots;
    forall k, i | 0 <= k < |entries| && 0 <= i < Slots(entries[k])
      ensures At(xs + ys, SlotCount(entries[..k]) + i) == Some(entries[k].args[i])
    {
      assert At(xs, SlotCount(entries[..k]) + i) == Some(entries[k].args[i]);
    }
  }

  lemma OneMoreEntry(args: seq<Value>, front: seq<Entry>, e: Entry)
    requires EachSlotAt(args, front)
    requires forall i :: 0 <= i < Slots(e) ==> At(args, SlotCount(front) + i) == Some(e.args[i])
    ensures EachSlotAt(args, front + [e]) && SlotCount(front + [e]) == SlotCount(front) + Slots(e)
  {
    hide Slots, At;
    var entries := front + [e];
    assert entries[..|front|] == front;
    forall k, i | 0 <= k < |entries| && 0 <= i < Slots(entries[k])
      ensures At(args, SlotCount(entries[..k]) + i) == Some(entries[k].args[i])
    {
      if k < |front| { assert front[k] == entries[k] && front[..k] == entries[..k]; }
    }
  }

  lemma {:induction false} SlotsAt(entries: seq<Entry>)
    ensures |SetArgs(entries)| == SlotCount(entries) && EachSlotAt(SetArgs(entries), entries)
  {
    if entries != [] {
      hide EntryArgs, Slots, At, EachSlotAt;
      var front, last := entries[..|entries| - 1], entries[|entries| - 1];
      assert entries == front + [last];
      SlotsAt(front);
      SlotsOfOne(last, SlotCount(front), SetArgs(front));
      SlotsBefore(SetArgs(front), EntryArgs(last), front);
      OneMoreEntry(SetArgs(entries), front, last);
    }
  }

  lemma EntriesSnoc(entries: seq<Entry>, e: Entry, idx: nat)
    ensures SetArgs(entries + [e]) == SetArgs(entries) + EntryArgs(e)
    ensures EntryTexts(entries + [e], idx) == EntryTexts(entries, idx) + [EntryText(e, idx + |SetArgs(entries)|)]
  {
    hide EntryText, EntryArgs;
    assert (entries + [e])[..|entries|] == entries;
  }

  lemma EntryMeans(e: Entry, at: nat, args: seq<Value>)
    requires Conventional(e, at + 1) && Holds(args, at, EntryArgs(e))
    ensures Bind(Tokens(EntryText(e, at + 1)), args) == Assignment(e)
  {
    hide Conventional, Tokens, EntryText, Written, EntryArgs, Assignment;
    WrittenMeans(e, at + 1);
    EntryNumbered(e, at + 1);
    BindNumber(Tokens(Written(e)), at, args, EntryArgs(e));
  }

  lemma FrontConventional(entries: seq<Entry>, idx: nat)
    requires entries != [] && AllConventional(entries, idx)
    ensures var i := |entries| - 1;
            AllConventional(entries[..i], idx) && Conventional(entries[i], idx + |SetArgs(entries[..i])|)
  {
    hide Conventional, SetArgs;
    var front := entries[..|entries| - 1];
    forall k | 0 <= k < |front| ensures Conventional(front[k], idx + |SetArgs(front[..k])|) {
      assert entries[k] == front[k] && front[..k] == entries[..k];
    }
  }

  lemma {:induction false} EachEntryMeans(entries: seq<Entry>, at: nat, args: seq<Value>, k: nat)
    requires AllConventional(entries, at + 1) && Holds(args, at, SetArgs(entries)) && k < |entries|
    ensures Bind(Tokens(EntryTexts(entries, at + 1)[k]), args) == Assignment(entries[k])
  {
    hide Tokens, Bind, Assignment, EntryText, Written, EntryArgs, SetArgs, EntryTexts, Conventional, AllConventional;
    var front, last := entries[..|entries| - 1], entries[|entries| - 1];
    assert entries == front + [last];
    FrontConventional(entries, at + 1);
    EntriesSnoc(front, last, at + 1);
    HoldsParts(args, at, SetArgs(front), EntryArgs(last));
    if k < |front| {
      EachEntryMeans(front, at, args, k);
    } else {
      EntryMeans(last, at + |SetArgs(front)|, args);
    }
  }

  /** The SET list means every assignment with its own arguments. */
  lemma SetListMeans(entries: seq<Entry>, at: nat, args: seq<Value>)
    requires AllConventional(entries, at + 1) && Holds(args, at, SetArgs(entries))
    ensures Bind(Tokens(Join(EntryTexts(entries, at + 1), ", ")), args) == JoinPieces(FilledEntries(entries), ", ")
  {
    hide Tokens, Bind, Assignment, EntryText, Written, EntryArgs, SetArgs, EntryTexts, Conventional, AllConventional,
      Join, JoinPieces;
    var parts := EntryTexts(entries, at + 1);
    forall k | 0 <= k < |entries| ensures Bind(Tokens(parts[k]), args) ==
      FilledEntries(entries)[k] { EachEntryMeans(entries, at, args, k); }
    BindJoin(parts, FilledEntries(entries), COMMA, args);
  }

  // ---------------------------------------------------------------- the builder

  class UpdateBuilder {
    var sets: seq<Entry>

    constructor ()
      ensures sets == []
    {
      sets := [];
    }

    /** `value` is what toDBValue makes of the argument, None on an error; the code then panics. */
    method Set(column: string, value: Option<Value>) returns (panics: bool)
      modifies this
      ensures panics == value.None?
      ensures sets == if panics then old(sets) else old(sets) + [Entry(column, "", [value.value])]
    {
      if value.None? {
        return true;
      }
      sets := sets + [Entry(column, "", [value.value])];
      panics := false;
    }

    method SetExpr(expr: string, args: seq<Option<Value>>) returns (panics: bool)
      modifies this
      ensures panics <==> None in args
      ensures panics ==> sets == old(sets)
      ensures !panics ==> |sets| == |old(sets)| + 1 && sets[..|old(sets)|] == old(sets)
      ensures !panics ==> var e := sets[|old(sets)|];
                          e.column == "" && e.expr == expr && |e.args| == |args| && forall i ::
                            0 <= i < |args| ==> args[i] == Some(e.args[i])
    {
      var processedArgs: seq<Value> := [];
      for i := 0 to |args|
        invariant |processedArgs| == i && sets == old(sets)
        invariant forall k :: 0 <= k < i ==> args[k] == Some(processedArgs[k])
      {
        if args[i].None? {
          return true;
        }
        processedArgs := processedArgs + [args[i].value];
      }
      sets := sets + [Entry("", expr, processedArgs)];
      panics := false;
    }
  }

  /** The inner loop: one replacement per argument. */
  method Resolve(expr: string, args: seq<Value>, startIdx: nat) returns (resolved: string, idx: nat)
    ensures resolved == Resolved(expr, |args|, startIdx) && idx == startIdx + |args|
  {
    resolved, idx := expr, startIdx;
    var n := 0;
    while n < |args|
      invariant n <= |args| && idx == startIdx + n && resolved == Resolved(expr, n, startIdx)
    {
      resolved := ReplaceOne(resolved, "$" + Digits(idx));
      idx := idx + 1;
      n := n + 1;
    }
  }

  /** One round of the outer loop. */
  method BuildEntry(entry: Entry, startIdx: nat) returns (part: string, args: seq<Value>, idx: nat)
    requires Complete([entry])
    ensures part == EntryText(entry, startIdx) && args == EntryArgs(entry) && idx == startIdx + |args|
  {
    assert entry in [entry];
    if entry.expr == "" {
      part, args, idx := entry.column + " = $" + Digits(startIdx), [entry.args[0]], startIdx + 1;
    } else {
      part, idx := Resolve(entry.expr, entry.args, startIdx);
      args := entry.args;
    }
  }

  lemma NoEntries(idx: nat)
    ensures EntryTexts([], idx) == [] && SetArgs([]) == []
  {
  }

  /** The outer loop. */
  method BuildParts(sets: seq<Entry>, startIdx: nat) returns (parts: seq<string>, allArgs: seq<Value>, idx: nat)
    requires Complete(sets)
    ensures parts == EntryTexts(sets, startIdx) && allArgs == SetArgs(sets) && idx == startIdx + |allArgs|
  {
    hide EntryText, EntryArgs, EntryTexts, SetArgs;
    NoEntries(startIdx);
    parts, allArgs, idx := [], [], startIdx;
    var k := 0;
    while k < |sets|
      invariant k <= |sets|
      invariant parts == EntryTexts(sets[..k], startIdx) && allArgs == SetArgs(sets[..k]) && idx == startIdx + |allArgs|
    {
      assert sets[..k + 1] == sets[..k] + [sets[k]];
      EntriesSnoc(sets[..k], sets[k], startIdx);
      var part, args;
      part, args, idx := BuildEntry(sets[k], idx);
      parts := parts + [part];
      allArgs := allArgs + args;
      k := k + 1;
    }
    assert sets[..k] == sets;
  }

  /** buildSQL, also for a nil builder. The returned index is exactly one past the last argument. */
  method BuildSet(ub: UpdateBuilder?, startIdx: nat) returns (clause: string, allArgs: seq<Value>, idx: nat)
    requires ub != null ==> Complete(ub.sets)
    ensures ub == null || ub.sets == [] ==> clause == "" && allArgs == [] && idx == startIdx
    ensures ub != null && ub.sets != [] ==>
              clause == "SET " + Join(EntryTexts(ub.sets, startIdx), COMMA) && allArgs == SetArgs(ub.sets) &&
                idx == startIdx + |allArgs|
    ensures ub != null && ub.sets != [] ==>
              clause == "SET " + Join(EntryTexts(ub.sets, startIdx), ", ") && |allArgs| == SlotCount(ub.sets) &&
                EachSlotAt(allArgs, ub.sets)
  {
    hide EntryTexts, SetArgs, Join, SlotCount, EachSlotAt;
    if ub != null { SlotsAt(ub.sets); }
    if ub == null || |ub.sets| == 0 {
      return "", [], startIdx;
    }
    var parts;
    parts, allArgs, idx := BuildParts(ub.sets, startIdx);
    clause := "SET " + Join(parts, COMMA);
  }
}
