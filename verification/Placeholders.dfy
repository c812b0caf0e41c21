/** Printed numbers, SQL text as literal characters and `$` placeholders, and what a server makes of a
    statement with arguments. */
module Placeholders {
  import opened Common

  // ---------------------------------------------------------------- decimal numbers

  predicate IsDigit(c: char) {
    '0' <= c <= '9'
  }

  predicate AllDigits(s: string) {
    forall i :: 0 <= i < |s| ==> IsDigit(s[i])
  }

  /** What `%d` prints. */
  function Digits(n: nat): (s: string)
    ensures s != "" && AllDigits(s)
  {
    if n < 10 then [(n + '0' as int) as char] else Digits(n / 10) + [(n % 10 + '0' as int) as char]
  }

  function Parse(s: string): nat
    requires AllDigits(s)
  {
    if s == "" then 0 else 10 * Parse(s[..|s| - 1]) + (s[|s| - 1] as int - '0' as int)
  }

  lemma {:induction false} ParseDigits(n: nat)
    ensures Parse(Digits(n)) == n
  {
    if n >= 10 {
      ParseDigits(n / 10);
      assert Digits(n)[..|Digits(n)| - 1] == Digits(n / 10);
    }
  }

  // ---------------------------------------------------------------- tokens

  lemma Assoc<T>(xs: seq<T>, ys: seq<T>, zs: seq<T>)
    ensures xs + ys + zs == xs + (ys + zs)
  {
  }

  /** A `$` with the digits after it, maybe none, or any other character. */
  datatype Token = Lit(c: char) | Mark(digits: string)

  /** How many digits `s` starts with. */
  function Run(s: string): (j: nat)
    ensures j <= |s| && AllDigits(s[..j]) && (j < |s| ==> !IsDigit(s[j]))
  {
    if s == "" || !IsDigit(s[0]) then 0 else 1 + Run(s[1..])
  }

  lemma {:induction false} RunIs(d: string, rest: string)
    requires AllDigits(d) && (rest != "" ==> !IsDigit(rest[0]))
    ensures Run(d + rest) == |d|
  {
    if d == "" {
      assert d + rest == rest;
    } else {
      assert (d + rest)[1..] == d[1..] + rest;
      RunIs(d[1..], rest);
    }
  }

  function Tokens(s: string): seq<Token>
    decreases |s|
  {
    if s == "" then []
    else if s[0] == '$' then [Mark(s[1..1 + Run(s[1..])])] + Tokens(s[1 + Run(s[1..])..])
    else [Lit(s[0])] + Tokens(s[1..])
  }

  function PrintOne(t: Token): string {
    match t
    case Lit(c) => [c]
    case Mark(d) => "$" + d
  }

  function Print(ts: seq<Token>): string {
    if ts == [] then "" else PrintOne(ts[0]) + Print(ts[1..])
  }

  /** Text after which a placeholder on its left stays the same placeholder. */
  predicate Separate(s: string) {
    s != "" ==> !IsDigit(s[0])
  }

  lemma TokensOfMark(d: string, rest: string)
    requires AllDigits(d) && Separate(rest)
    ensures Tokens("$" + d + rest) == [Mark(d)] + Tokens(rest)
  {
    var s := "$" + d + rest;
    RunIs(d, rest);
    assert s[1..] == d + rest;
    assert s[1..1 + |d|] == d && s[1 + |d|..] == rest;
  }

  lemma TokensOfLit(c: char, rest: string)
    requires c != '$'
    ensures Tokens([c] + rest) == [Lit(c)] + Tokens(rest)
  {
    var s := [c] + rest;
    assert s[0] == c && s[1..] == rest;
  }

  /** The token lists that texts have: no `$` as a literal, and placeholders take every digit that follows. */
  predicate Proper(ts: seq<Token>) {
    ts == [] || (
      && Proper(ts[1..])
      && match ts[0]
         case Lit(c) => c != '$'
         case Mark(d) => AllDigits(d) && StartsPlain(ts[1..]))
  }

  predicate StartsPlain(ts: seq<Token>) {
    ts != [] && ts[0].Lit? ==> !IsDigit(ts[0].c)
  }

  lemma SliceOfTail<T>(s: seq<T>, j: nat)
    requires 1 + j <= |s|
    ensures s[1..][..j] == s[1..1 + j] && s[1..][j..] == s[1 + j..]
    ensures s == [s[0]] + s[1..1 + j] + s[1 + j..]
  {
  }

  lemma SplitMark(s: string)
    requires s != "" && s[0] == '$'
    ensures var j := 1 + Run(s[1..]);
            s == "$" + s[1..j] + s[j..] && AllDigits(s[1..j]) && Separate(s[j..]) &&
              Tokens(s) == [Mark(s[1..j])] + Tokens(s[j..])
  {
    SliceOfTail(s, Run(s[1..]));
  }

  lemma TokensPlain(s: string)
    requires Separate(s)
    ensures StartsPlain(Tokens(s))
  {
    if s != "" && s[0] != '$' { assert Tokens(s)[0] == Lit(s[0]); }
  }

  lemma ProperCons(t: Token, ts: seq<Token>)
    requires Proper(ts) && (match t case Lit(c) => c != '$' case Mark(d) => AllDigits(d) && StartsPlain(ts))
    ensures Proper([t] + ts) && Print([t] + ts) == PrintOne(t) + Print(ts)
  {
    assert ([t] + ts)[1..] == ts;
  }

  lemma {:induction false} TokensProper(s: string)
    ensures Proper(Tokens(s)) && Print(Tokens(s)) == s
    decreases |s|
  {
    if s == "" {
    } else if s[0] == '$' {
      SplitMark(s);
      var d, rest := s[1..1 + Run(s[1..])], s[1 + Run(s[1..])..];
      TokensProper(rest);
      TokensPlain(rest);
      ProperCons(Mark(d), Tokens(rest));
    } else {
      TokensProper(s[1..]);
      ProperCons(Lit(s[0]), Tokens(s[1..]));
    }
  }

  lemma PrintPlain(ts: seq<Token>)
    requires Proper(ts) && StartsPlain(ts)
    ensures Separate(Print(ts))
  {
    if ts != [] { assert Print(ts)[0] == PrintOne(ts[0])[0]; }
  }

  lemma TokensOfOne(t: Token, rest: string)
    requires match t case Lit(c) => c != '$' case Mark(d) => AllDigits(d) && Separate(rest)
    ensures Tokens(PrintOne(t) + rest) == [t] + Tokens(rest)
  {
    hide Tokens;
    match t
    case Lit(c) => TokensOfLit(c, rest);
    case Mark(d) => TokensOfMark(d, rest);
  }

  lemma NoTokens()
    ensures Tokens("") == []
  {
  }

  /** Texts and proper token lists are the same thing. */
  lemma {:induction false} TokensOfPrint(ts: seq<Token>)
    requires Proper(ts)
    ensures Tokens(Print(ts)) == ts
  {
    hide Tokens, PrintOne, AllDigits, Separate, StartsPlain;
    if ts == [] {
      NoTokens();
    } else {
      TokensOfPrint(ts[1..]);
      if ts[0].Mark? { PrintPlain(ts[1..]); }
      TokensOfOne(ts[0], Print(ts[1..]));
    }
  }

  lemma {:induction false} PrintConcat(ts: seq<Token>, us: seq<Token>)
    ensures Print(ts + us) == Print(ts) + Print(us)
  {
    hide PrintOne;
    if ts == [] {
      assert ts + us == us;
    } else {
      PrintConcat(ts[1..], us);
      assert (ts + us)[1..] == ts[1..] + us;
      Assoc(PrintOne(ts[0]), Print(ts[1..]), Print(us));
    }
  }

  lemma {:induction false} ProperConcat(ts: seq<Token>, us: seq<Token>)
    requires Proper(ts) && Proper(us) && StartsPlain(us)
    ensures Proper(ts + us)
  {
    if ts == [] {
      assert ts + us == us;
    } else {
      ProperConcat(ts[1..], us);
      assert (ts + us)[1..] == ts[1..] + us;
    }
  }

  lemma TokensConcat(a: string, b: string)
    requires Separate(b)
    ensures Tokens(a + b) == Tokens(a) + Tokens(b)
  {
    TokensProper(a);
    TokensProper(b);
    ProperConcat(Tokens(a), Tokens(b));
    PrintConcat(Tokens(a), Tokens(b));
    TokensOfPrint(Tokens(a) + Tokens(b));
  }

  // ---------------------------------------------------------------- numbering

  function Marks(ts: seq<Token>): nat {
    if ts == [] then 0 else (if ts[0].Mark? then 1 else 0) + Marks(ts[1..])
  }

  /** Placeholders numbered upwards from `idx`, left to right. */
  function Number(ts: seq<Token>, idx: nat): seq<Token> {
    if ts == [] then []
    else if ts[0].Mark? then [Mark(Digits(idx))] + Number(ts[1..], idx + 1)
    else [ts[0]] + Number(ts[1..], idx)
  }

  /** Every literal stays where it was, and the i-th placeholder gets number idx + i. */
  lemma {:induction false} NumberAt(ts: seq<Token>, idx: nat, i: nat)
    requires i < |ts|
    ensures |Number(ts, idx)| == |ts|
    ensures Number(ts, idx)[i] == if ts[i].Mark? then Mark(Digits(idx + Marks(ts[..i]))) else ts[i]
  {
    if |ts| > 1 { NumberAt(ts[1..], if ts[0].Mark? then idx + 1 else idx, if i > 0 then i - 1 else 0); }
    if i > 0 { assert ts[..i][1..] == ts[1..][..i - 1]; }
  }

  lemma {:induction false} NumberProper(ts: seq<Token>, idx: nat)
    requires Proper(ts)
    ensures Proper(Number(ts, idx)) && Marks(Number(ts, idx)) == Marks(ts)
    ensures StartsPlain(ts) ==> StartsPlain(Number(ts, idx))
  {
    if ts != [] {
      var next := if ts[0].Mark? then idx + 1 else idx;
      NumberProper(ts[1..], next);
      assert Number(ts, idx)[1..] == Number(ts[1..], next);
      if |ts| > 1 { NumberAt(ts[1..], next, 0); }
    }
  }

  lemma {:induction false} NumberTwice(ts: seq<Token>, idx: nat)
    ensures Number(Number(ts, idx), idx) == Number(ts, idx)
  {
    if ts != [] {
      var next := if ts[0].Mark? then idx + 1 else idx;
      NumberTwice(ts[1..], next);
      assert Number(ts, idx)[1..] == Number(ts[1..], next);
    }
  }

  lemma {:induction false} MarksConcat(ts: seq<Token>, us: seq<Token>)
    ensures Marks(ts + us) == Marks(ts) + Marks(us)
  {
    if ts == [] {
      assert ts + us == us;
    } else {
      assert (ts + us)[1..] == ts[1..] + us;
      MarksConcat(ts[1..], us);
    }
  }

  lemma MarksUncons(ts: seq<Token>)
    ensures Marks([]) == 0
    ensures ts != [] ==> Marks(ts) == (if ts[0].Mark? then 1 else 0) + Marks(ts[1..])
  {
  }

  lemma {:induction false} NumberConcat(ts: seq<Token>, us: seq<Token>, idx: nat)
    ensures Number(ts + us, idx) == Number(ts, idx) + Number(us, idx + Marks(ts))
    ensures Marks(ts + us) == Marks(ts) + Marks(us)
  {
    hide Digits, Marks;
    MarksConcat(ts, us);
    if ts == [] {
      assert ts + us == us;
      MarksUncons(ts);
    } else {
      var next := if ts[0].Mark? then idx + 1 else idx;
      NumberConcat(ts[1..], us, next);
      assert (ts + us)[1..] == ts[1..] + us;
      MarksUncons(ts);
      Assoc([if ts[0].Mark? then Mark(Digits(idx)) else ts[0]], Number(ts[1..], next), Number(us, idx + Marks(ts)));
    }
  }

  function Lits(s: string): (r: seq<Token>)
    ensures |r| == |s| && forall i :: 0 <= i < |s| ==> r[i] == Lit(s[i])
  {
    if s == "" then [] else [Lit(s[0])] + Lits(s[1..])
  }

  lemma {:induction false} NumberPlain(ts: seq<Token>, idx: nat)
    requires forall t :: t in ts ==> t.Lit?
    ensures Number(ts, idx) == ts && Marks(ts) == 0
  {
    if ts != [] {
      assert forall t :: t in ts[1..] ==> t in ts;
      NumberPlain(ts[1..], idx);
      assert ts[0] in ts;
    }
  }

  predicate NoDollar(s: string) {
    '$' !in s
  }

  /** Plain text in front keeps its characters. */
  lemma {:induction false} TokensPlainThen(s: string, b: string)
    requires NoDollar(s)
    ensures Tokens(s + b) == Lits(s) + Tokens(b)
  {
    hide Tokens;
    if s == "" {
      assert s + b == b;
    } else {
      TokensPlainThen(s[1..], b);
      assert s + b == [s[0]] + (s[1..] + b);
      TokensOfLit(s[0], s[1..] + b);
      Assoc([Lit(s[0])], Lits(s[1..]), Tokens(b));
    }
  }

  /** Plain text that keeps the texts on both sides apart. */
  predicate Separator(sep: string) {
    NoDollar(sep) && sep != "" && Separate(sep) && !IsDigit(sep[|sep| - 1])
  }

  lemma TokensAround(a: string, sep: string, b: string)
    requires Separator(sep)
    ensures Tokens(a + sep + b) == Tokens(a) + (Lits(sep) + Tokens(b))
  {
    Assoc(a, sep, b);
    TokensConcat(a, sep + b);
    TokensPlainThen(sep, b);
  }

  lemma NumberAround(ts: seq<Token>, sep: string, us: seq<Token>, idx: nat)
    ensures Number(ts + (Lits(sep) + us), idx) == Number(ts, idx) + (Lits(sep) + Number(us, idx + Marks(ts)))
    ensures Marks(ts + (Lits(sep) + us)) == Marks(ts) + Marks(us)
  {
    NumberPlain(Lits(sep), idx + Marks(ts));
    NumberConcat(Lits(sep), us, idx + Marks(ts));
    NumberConcat(ts, Lits(sep) + us, idx);
  }

  // ---------------------------------------------------------------- meaning

  type Opaque(==, !new)

  /** An argument in the driver's form: an integer, or anything else. */
  datatype Value = Int(n: int) | Other(data: Opaque)

  /** What the server sees at one place: a character, an argument, or a placeholder without argument. */
  datatype Piece = Char(c: char) | Arg(v: Value) | Unbound

  function BindOne(t: Token, args: seq<Value>): Piece {
    match t
    case Lit(c) => Char(c)
    case Mark(d) => if AllDigits(d) && 1 <= Parse(d) <= |args| then Arg(args[Parse(d) - 1]) else Unbound
  }

  /** A statement with its arguments: `$n` stands for the n-th argument. */
  function Bind(ts: seq<Token>, args: seq<Value>): seq<Piece> {
    if ts == [] then [] else [BindOne(ts[0], args)] + Bind(ts[1..], args)
  }

  /** A condition or expression with its own arguments: placeholders take them left to right. */
  function Fill(ts: seq<Token>, args: seq<Value>): seq<Piece> {
    if ts == [] then []
    else match ts[0]
         case Lit(c) => [Char(c)] + Fill(ts[1..], args)
         case Mark(_) => if args == [] then [Unbound] + Fill(ts[1..], []) else [Arg(args[0])] + Fill(ts[1..], args[1..])
  }

  lemma {:induction false} BindConcat(ts: seq<Token>, us: seq<Token>, args: seq<Value>)
    ensures Bind(ts + us, args) == Bind(ts, args) + Bind(us, args)
  {
    if ts == [] {
      assert ts + us == us;
    } else {
      BindConcat(ts[1..], us, args);
      assert (ts + us)[1..] == ts[1..] + us;
      Assoc([BindOne(ts[0], args)], Bind(ts[1..], args), Bind(us, args));
    }
  }

  /** The argument at a place, if there is one. */
  function At(args: seq<Value>, i: int): Option<Value> {
    if 0 <= i < |args| then Some(args[i]) else None
  }

  /** `own` stands in `args` from position `at` on. */
  predicate Holds(args: seq<Value>, at: nat, own: seq<Value>) {
    at + |own| <= |args| && forall i :: 0 <= i < |own| ==> args[at + i] == own[i]
  }

  lemma HoldsParts(args: seq<Value>, at: nat, own: seq<Value>, rest: seq<Value>)
    requires Holds(args, at, own + rest)
    ensures Holds(args, at, own) && Holds(args, at + |own|, rest)
  {
    forall i | 0 <= i < |own| ensures args[at + i] == own[i] { assert (own + rest)[i] == own[i]; }
    forall i | 0 <= i < |rest| ensures args[at + |own| + i] == rest[i] { assert (own + rest)[|own| + i] == rest[i]; }
  }

  /** Numbered from the position of its first argument, a text means what it means with its own arguments. */
  lemma {:induction false} BindNumber(ts: seq<Token>, at: nat, args: seq<Value>, own: seq<Value>)
    requires Marks(ts) == |own| && Holds(args, at, own)
    ensures Bind(Number(ts, at + 1), args) == Fill(ts, own)
  {
    if ts != [] {
      if ts[0].Mark? {
        ParseDigits(at + 1);
        BindNumber(ts[1..], at + 1, args, own[1..]);
      } else {
        BindNumber(ts[1..], at, args, own);
      }
    }
  }

  function Chars(s: string): seq<Piece> {
    seq(|s|, i requires 0 <= i < |s| => Char(s[i]))
  }

  lemma {:induction false} BindLits(s: string, args: seq<Value>)
    ensures Bind(Lits(s), args) == Chars(s)
  {
    if s != "" {
      BindLits(s[1..], args);
      assert Lits(s)[1..] == Lits(s[1..]);
      assert Chars(s) == [Char(s[0])] + Chars(s[1..]);
    }
  }

  /** Plain text in front of any text does not change it. */
  lemma PlainThen(s: string, b: string, args: seq<Value>)
    requires NoDollar(s)
    ensures Bind(Tokens(s + b), args) == Chars(s) + Bind(Tokens(b), args)
  {
    TokensPlainThen(s, b);
    BindConcat(Lits(s), Tokens(b), args);
    BindLits(s, args);
  }

  lemma BindPlain(s: string, args: seq<Value>)
    requires NoDollar(s)
    ensures Bind(Tokens(s), args) == Chars(s)
  {
    PlainThen(s, "", args);
    assert s + "" == s;
  }

  lemma BindBefore(a: string, b: string, args: seq<Value>)
    requires NoDollar(b) && Separate(b)
    ensures Bind(Tokens(a + b), args) == Bind(Tokens(a), args) + Chars(b)
  {
    TokensConcat(a, b);
    BindConcat(Tokens(a), Tokens(b), args);
    BindPlain(b, args);
  }

  // ---------------------------------------------------------------- joining

  function Join(parts: seq<string>, sep: string): string {
    if parts == [] then ""
    else if |parts| == 1 then parts[0]
    else Join(parts[..|parts| - 1], sep) + sep + parts[|parts| - 1]
  }

  function JoinPieces(parts: seq<seq<Piece>>, sep: string): seq<Piece> {
    if parts == [] then []
    else if |parts| == 1 then parts[0]
    else JoinPieces(parts[..|parts| - 1], sep) + Chars(sep) + parts[|parts| - 1]
  }

  lemma BindAround(a: string, sep: string, b: string, args: seq<Value>)
    requires Separator(sep)
    ensures Bind(Tokens(a + sep + b), args) == Bind(Tokens(a), args) + Chars(sep) + Bind(Tokens(b), args)
  {
    TokensAround(a, sep, b);
    BindConcat(Tokens(a), Lits(sep) + Tokens(b), args);
    BindConcat(Lits(sep), Tokens(b), args);
    BindLits(sep, args);
    Assoc(Bind(Tokens(a), args), Chars(sep), Bind(Tokens(b), args));
  }

  /** Joined texts are understood one by one. */
  lemma {:induction false} BindJoin(parts: seq<string>, filled: seq<seq<Piece>>, sep: string, args: seq<Value>)
    requires Separator(sep) && |parts| == |filled|
    requires forall k :: 0 <= k < |parts| ==> Bind(Tokens(parts[k]), args) == filled[k]
    ensures Bind(Tokens(Join(parts, sep)), args) == JoinPieces(filled, sep)
  {
    if |parts| > 1 {
      var i := |parts| - 1;
      BindJoin(parts[..i], filled[..i], sep, args);
      BindAround(Join(parts[..i], sep), sep, parts[i], args);
    }
  }
}
