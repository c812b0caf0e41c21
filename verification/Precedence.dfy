/** What the server makes of conditions joined by AND without parentheses (pgsql/where.go). */
module Precedence {
  import opened Placeholders
  import opened WhereClauses

  /** A condition outside its parentheses: comparisons, and the connectives between them. */
  datatype Word = Atom(id: nat) | And | Or

  /** AND binds tighter than OR: the value of `ws` behind a product that is `product` so far. */
  predicate Satisfied(ws: seq<Word>, product: bool, facts: set<nat>) {
    if ws == [] then product
    else match ws[0]
         case Atom(a) => Satisfied(ws[1..], product && a in facts, facts)
         case And => Satisfied(ws[1..], product, facts)
         case Or => product || Satisfied(ws[1..], true, facts)
  }

  predicate WellFormed(ws: seq<Word>) {
    && ws != [] && ws[0].Atom?
    && (|ws| == 1 || (|ws| > 2 && !ws[1].Atom? && WellFormed(ws[2..])))
  }

  /** The conditions with AND between them. */
  function Joined(conds: seq<seq<Word>>): seq<Word> {
    if conds == [] then []
    else if |conds| == 1 then conds[0]
    else conds[0] + ([And] + Joined(conds[1..]))
  }

  ghost predicate Unshared(xs: seq<Word>, ys: seq<Word>) {
    forall w :: w in xs && w in ys ==> !w.Atom?
  }

  /** Different conditions test different things. */
  ghost predicate Independent(conds: seq<seq<Word>>) {
    forall i, j :: 0 <= i < j < |conds| ==> Unshared(conds[i], conds[j])
  }

  ghost predicate True(ws: seq<Word>, facts: set<nat>) {
    forall w :: w in ws && w.Atom? ==> w.id in facts
  }

  lemma {:induction false} HoldsWithoutOr(ws: seq<Word>, product: bool, facts: set<nat>)
    requires Or !in ws
    ensures Satisfied(ws, product, facts) <==> product && True(ws, facts)
  {
    if ws != [] {
      assert ws == [ws[0]] + ws[1..];
      assert ws[0] in ws && forall w :: w in ws <==> w == ws[0] || w in ws[1..];
      HoldsWithoutOr(ws[1..], if ws[0].Atom? then product && ws[0].id in facts else product, facts);
    }
  }

  lemma {:induction false} HoldsAtOr(xs: seq<Word>, ys: seq<Word>, product: bool, facts: set<nat>)
    ensures Satisfied(xs + ([Or] + ys), product, facts) <==> Satisfied(xs, product, facts) || Satisfied(ys, true, facts)
  {
    if xs == [] {
      assert xs + ([Or] + ys) == [Or] + ys;
      assert ([Or] + ys)[1..] == ys;
    } else {
      assert (xs + ([Or] + ys))[1..] == xs[1..] + ([Or] + ys);
      HoldsAtOr(xs[1..], ys, if xs[0].Atom? then product && xs[0].id in facts else product, facts);
      if xs[0] == Or { HoldsAtOr(xs[1..], ys, true, facts); }
    }
  }

  lemma {:induction false} FalseWithoutFacts(ws: seq<Word>, product: bool, facts: set<nat>)
    requires WellFormed(ws) && forall w :: w in ws && w.Atom? ==> w.id !in facts
    ensures !Satisfied(ws, product, facts)
  {
    assert ws[0] in ws;
    if |ws| > 1 {
      assert ws[1..][0] == ws[1] && ws[1..][1..] == ws[2..];
      assert forall w :: w in ws[2..] ==> w in ws;
      FalseWithoutFacts(ws[2..], false, facts);
      FalseWithoutFacts(ws[2..], true, facts);
    }
  }

  function AtomsOf(ws: seq<Word>): (r: set<nat>)
    ensures forall a :: a in r <==> Atom(a) in ws
  {
    if ws == [] then {}
    else
      assert forall w :: w in ws <==> w == ws[0] || w in ws[1..];
      (if ws[0].Atom? then {ws[0].id} else {}) + AtomsOf(ws[1..])
  }

  lemma {:induction false} FirstOr(ws: seq<Word>) returns (before: seq<Word>, after: seq<Word>)
    requires Or in ws
    ensures ws == before + ([Or] + after) && Or !in before
  {
    if ws[0] == Or {
      before, after := [], ws[1..];
    } else {
      assert ws == [ws[0]] + ws[1..];
      before, after := FirstOr(ws[1..]);
      before := [ws[0]] + before;
    }
  }

  lemma {:induction false} LastOr(ws: seq<Word>) returns (before: seq<Word>, after: seq<Word>)
    requires Or in ws
    ensures ws == before + ([Or] + after) && Or !in after
  {
    var i := |ws| - 1;
    if ws[i] == Or {
      before, after := ws[..i], [];
    } else {
      assert ws == ws[..i] + [ws[i]];
      before, after := LastOr(ws[..i]);
      after := after + [ws[i]];
    }
  }

  lemma {:induction false} WordsOfJoined(conds: seq<seq<Word>>)
    ensures forall w ::
            w in Joined(conds) <==> (exists i :: 0 <= i < |conds| && w in conds[i]) || (w == And && |conds| > 1)
  {
    if |conds| > 1 {
      var rest := conds[1..];
      WordsOfJoined(rest);
      assert Joined(conds) == conds[0] + ([And] + Joined(rest));
      forall w
        ensures w in Joined(conds) <==> (exists i :: 0 <= i < |conds| && w in conds[i]) || (w == And && |conds| > 1)
      {
        assert w in Joined(conds) <==> w in conds[0] || w == And || w in Joined(rest);
        if i :| 0 <= i < |conds| && w in conds[i] { if i > 0 { assert rest[i - 1] == conds[i]; } }
        if i :| 0 <= i < |rest| && w in rest[i] { assert conds[i + 1] == rest[i]; }
      }
    }
  }

  ghost predicate IsConjunction(conds: seq<seq<Word>>, facts: set<nat>) {
    Satisfied(Joined(conds), true, facts) <==> forall i :: 0 <= i < |conds| ==> Satisfied(conds[i], true, facts)
  }

  lemma WithoutOrConjunction(conds: seq<seq<Word>>, facts: set<nat>)
    requires forall i :: 0 <= i < |conds| ==> Or !in conds[i]
    ensures IsConjunction(conds, facts)
  {
    WordsOfJoined(conds);
    HoldsWithoutOr(Joined(conds), true, facts);
    forall i | 0 <= i < |conds| ensures Satisfied(conds[i], true, facts) <==>
      True(conds[i], facts) { HoldsWithoutOr(conds[i], true, facts); }
    if !True(Joined(conds), facts) {
      var w :| w in Joined(conds) && w.Atom? && w.id !in facts;
      var i :| 0 <= i < |conds| && w in conds[i];
      assert !True(conds[i], facts);
    }
  }

  /** An OR in a later condition lets the whole hold although the first condition does not. */
  lemma OrInRest(conds: seq<seq<Word>>) returns (facts: set<nat>)
    requires |conds| > 1 && Independent(conds) && WellFormed(conds[0]) && Or in Joined(conds[1..])
    ensures Satisfied(Joined(conds), true, facts) && !Satisfied(conds[0], true, facts)
  {
    var rest := conds[1..];
    var before, after := LastOr(Joined(rest));
    facts := AtomsOf(after);
    assert Joined(conds) == (conds[0] + [And] + before) + ([Or] + after);
    HoldsAtOr(conds[0] + [And] + before, after, true, facts);
    HoldsWithoutOr(after, true, facts);
    WordsOfJoined(rest);
    forall w | w in after && w.Atom? ensures w !in conds[0] {
      assert w in Joined(rest);
      var i :| 0 <= i < |rest| && w in rest[i];
      assert Unshared(conds[0], conds[i + 1]);
    }
    FalseWithoutFacts(conds[0], true, facts);
  }

  /** An OR in the first condition lets the whole hold although the second does not. */
  lemma OrInFirst(conds: seq<seq<Word>>) returns (facts: set<nat>)
    requires |conds| > 1 && Independent(conds) && WellFormed(conds[1]) && Or in conds[0]
    ensures Satisfied(Joined(conds), true, facts) && !Satisfied(conds[1], true, facts)
  {
    var before, after := FirstOr(conds[0]);
    facts := AtomsOf(before);
    assert Joined(conds) == before + ([Or] + (after + [And] + Joined(conds[1..])));
    HoldsAtOr(before, after + [And] + Joined(conds[1..]), true, facts);
    HoldsWithoutOr(before, true, facts);
    forall w | w in conds[1] && w.Atom? ensures w.id !in facts {
      assert Unshared(conds[0], conds[1]);
      assert forall u :: u in before ==> u in conds[0];
    }
    FalseWithoutFacts(conds[1], true, facts);
  }

  /** Joining with a bare AND means the conjunction, for whatever is true of the row, if and only if there is at
      most one condition or no condition has an OR outside parentheses. */
  lemma JoinIsConjunction(conds: seq<seq<Word>>)
    requires Independent(conds) && forall i :: 0 <= i < |conds| ==> WellFormed(conds[i])
    ensures (forall facts :: IsConjunction(conds, facts)) <==> |conds| <= 1 || forall i ::
            0 <= i < |conds| ==> Or !in conds[i]
  {
    if |conds| <= 1 {
      assert forall facts :: IsConjunction(conds, facts);
    } else if i :| 0 <= i < |conds| && Or in conds[i] {
      var facts;
      if i == 0 {
        facts := OrInFirst(conds);
      } else {
        WordsOfJoined(conds[1..]);
        assert conds[1..][i - 1] == conds[i];
        facts := OrInRest(conds);
      }
      assert !IsConjunction(conds, facts);
    } else {
      forall facts ensures IsConjunction(conds, facts) { WithoutOrConjunction(conds, facts); }
    }
  }

  // ---------------------------------------------------------------- comparisons that occur in several conditions

  /** The alternatives an OR separates, each as the comparisons it needs; the first goes on from `product`. */
  function Alternatives(ws: seq<Word>, product: set<nat>): seq<set<nat>> {
    if ws == [] then [product]
    else match ws[0]
         case Atom(a) => Alternatives(ws[1..], product + {a})
         case And => Alternatives(ws[1..], product)
         case Or => [product] + Alternatives(ws[1..], {})
  }

  /** Some alternative needs nothing but `facts`. */
  predicate Met(alternatives: seq<set<nat>>, facts: set<nat>) {
    exists i :: 0 <= i < |alternatives| && alternatives[i] <= facts
  }

  lemma MetCons(first: set<nat>, rest: seq<set<nat>>, facts: set<nat>)
    ensures Met([first] + rest, facts) <==> first <= facts || Met(rest, facts)
  {
    var all := [first] + rest;
    if first <= facts { assert all[0] <= facts; }
    if i :| 0 <= i < |rest| && rest[i] <= facts { assert all[i + 1] <= facts; }
    if i :| 0 <= i < |all| && all[i] <= facts { if i > 0 { assert rest[i - 1] <= facts; } }
  }

  lemma {:induction false} SatisfiedIsMet(ws: seq<Word>, product: set<nat>, facts: set<nat>)
    ensures Satisfied(ws, product <= facts, facts) <==> Met(Alternatives(ws, product), facts)
  {
    if ws == [] {
      MetCons(product, [], facts);
    } else {
      match ws[0]
      case Atom(a) =>
        assert product + {a} <= facts <==> product <= facts && a in facts;
        SatisfiedIsMet(ws[1..], product + {a}, facts);
      case And => SatisfiedIsMet(ws[1..], product, facts);
      case Or =>
        assert {} <= facts;
        SatisfiedIsMet(ws[1..], {}, facts);
        MetCons(product, Alternatives(ws[1..], {}), facts);
    }
  }

  lemma {:induction false} BothHold(xs: seq<Word>, ys: seq<Word>, product: bool, facts: set<nat>)
    requires Satisfied(xs, product, facts) && Satisfied(ys, true, facts)
    ensures Satisfied(xs + ([And] + ys), product, facts)
  {
    if xs == [] {
      assert xs + ([And] + ys) == [And] + ys;
      assert ([And] + ys)[1..] == ys;
    } else {
      assert (xs + ([And] + ys))[1..] == xs[1..] + ([And] + ys);
      match xs[0]
      case Atom(a) => BothHold(xs[1..], ys, product && a in facts, facts);
      case And => BothHold(xs[1..], ys, product, facts);
      case Or => if !product { BothHold(xs[1..], ys, true, facts); }
    }
  }

  /** One direction always holds: where every condition holds, so does the joined text. */
  lemma {:induction false} JoinAdmitsConjunction(conds: seq<seq<Word>>, facts: set<nat>)
    requires forall i :: 0 <= i < |conds| ==> Satisfied(conds[i], true, facts)
    ensures Satisfied(Joined(conds), true, facts)
  {
    if |conds| > 1 {
      assert forall i :: 0 <= i < |conds[1..]| ==> conds[1..][i] == conds[i + 1];
      JoinAdmitsConjunction(conds[1..], facts);
      BothHold(conds[0], Joined(conds[1..]), true, facts);
    } else if |conds| == 1 {
      assert Joined(conds) == conds[0];
    }
  }

  /** Every alternative of the joined text needs all that some alternative of each condition needs. */
  ghost predicate Contained(conds: seq<seq<Word>>) {
    forall j, i :: 0 <= j < |Alternatives(Joined(conds), {})| && 0 <= i < |conds| ==>
      Met(Alternatives(conds[i], {}), Alternatives(Joined(conds), {})[j])
  }

  /** For any conditions, with comparisons shared or not: joining with a bare AND means the conjunction, for whatever
      is true of the row, if and only if each alternative of the joined text contains one of each condition. */
  lemma JoinIsConjunctionExactly(conds: seq<seq<Word>>)
    ensures (forall facts :: IsConjunction(conds, facts)) <==> Contained(conds)
  {
    var joined := Alternatives(Joined(conds), {});
    if Contained(conds) {
      forall facts ensures IsConjunction(conds, facts) {
        SatisfiedIsMet(Joined(conds), {}, facts);
        if Satisfied(Joined(conds), true, facts) {
          var j :| 0 <= j < |joined| && joined[j] <= facts;
          forall i | 0 <= i < |conds| ensures Satisfied(conds[i], true, facts) {
            SatisfiedIsMet(conds[i], {}, facts);
            assert Met(Alternatives(conds[i], {}), joined[j]);
          }
        } else if forall i :: 0 <= i < |conds| ==> Satisfied(conds[i], true, facts) {
          JoinAdmitsConjunction(conds, facts);
        }
      }
    } else {
      var j, i :| 0 <= j < |joined| && 0 <= i < |conds| && !Met(Alternatives(conds[i], {}), joined[j]);
      SatisfiedIsMet(Joined(conds), {}, joined[j]);
      SatisfiedIsMet(conds[i], {}, joined[j]);
      assert !IsConjunction(conds, joined[j]);
    }
  }

  // ---------------------------------------------------------------- the same on the texts

  /** A condition as text, given the text of each comparison. */
  function Text(ws: seq<Word>, atoms: nat -> string): string {
    if ws == [] then ""
    else WordText(ws[0], atoms) + Text(ws[1..], atoms)
  }

  function WordText(w: Word, atoms: nat -> string): string {
    match w
    case Atom(a) => atoms(a)
    case And => " AND "
    case Or => " OR "
  }

  lemma {:induction false} TextConcat(xs: seq<Word>, ys: seq<Word>, atoms: nat -> string)
    ensures Text(xs + ys, atoms) == Text(xs, atoms) + Text(ys, atoms)
  {
    hide WordText;
    if xs == [] {
      assert xs + ys == ys;
    } else {
      TextConcat(xs[1..], ys, atoms);
      assert (xs + ys)[1..] == xs[1..] + ys;
      Assoc(WordText(xs[0], atoms), Text(xs[1..], atoms), Text(ys, atoms));
    }
  }

  function TextsOf(conds: seq<seq<Word>>, atoms: nat -> string): seq<string> {
    seq(|conds|, i requires 0 <= i < |conds| => Text(conds[i], atoms))
  }

  lemma {:induction false} JoinedSnoc(conds: seq<seq<Word>>, last: seq<Word>)
    requires conds != []
    ensures Joined(conds + [last]) == Joined(conds) + ([And] + last)
  {
    if |conds| == 1 {
      assert (conds + [last])[1..] == [last];
    } else {
      JoinedSnoc(conds[1..], last);
      assert (conds + [last])[1..] == conds[1..] + [last];
      Assoc(conds[0], [And] + Joined(conds[1..]), [And] + last);
      Assoc([And], Joined(conds[1..]), [And] + last);
    }
  }

  lemma TextAnd(ws: seq<Word>, atoms: nat -> string)
    ensures Text([And] + ws, atoms) == " AND " + Text(ws, atoms)
  {
    assert ([And] + ws)[1..] == ws;
  }

  /** The builder's text of the joined conditions is the text of the joined words. */
  lemma {:induction false} JoinTexts(conds: seq<seq<Word>>, atoms: nat -> string)
    ensures Join(TextsOf(conds, atoms), " AND ") == Text(Joined(conds), atoms)
  {
    hide WordText;
    if |conds| > 1 {
      var i := |conds| - 1;
      var front, last := conds[..i], conds[i];
      JoinTexts(front, atoms);
      assert conds == front + [last];
      JoinedSnoc(front, last);
      TextConcat(Joined(front), [And] + last, atoms);
      TextAnd(last, atoms);
      assert TextsOf(conds, atoms)[..i] == TextsOf(front, atoms);
      Assoc(Text(Joined(front), atoms), " AND ", Text(last, atoms));
    }
  }

  // ---------------------------------------------------------------- the clause that is sent

  /** Joining the numbered conditions gives the joined text, numbered. */
  lemma NumberedJoin(conds: seq<string>, idx: nat)
    ensures Join(Conditions(conds, idx), " AND ") == Renumbered(Join(conds, " AND "), idx)
  {
    hide Tokens, Join, Conditions;
    NumberedWithoutGaps(conds, " AND ", idx);
    TokensProper(Join(Conditions(conds, idx), " AND "));
  }

  /** `clause` says WHERE, then the words `ws`, with placeholders numbered from `idx`, and then `rest`. */
  ghost predicate Says(clause: string, ws: seq<Word>, atoms: nat -> string, idx: nat, rest: string) {
    clause == " WHERE " + Renumbered(Text(ws, atoms), idx) + rest
  }

  /** The clause built from conditions says, behind WHERE, their words joined by AND. */
  lemma ClauseSays(conds: seq<seq<Word>>, atoms: nat -> string, orderBy: string, limit: int, offset: int, idx: nat)
    requires conds != []
    ensures Says(ClauseText(TextsOf(conds, atoms), orderBy, limit, offset, idx), Joined(conds), atoms, idx,
                 Tail(orderBy, limit, offset))
  {
    hide Renumbered, Text, Conditions, Join, Tail, Joined;
    NumberedJoin(TextsOf(conds, atoms), idx);
    JoinTexts(conds, atoms);
  }

  /** The words hold of exactly the rows of which all conditions hold, whatever is true of a row. */
  ghost predicate MeansAll(ws: seq<Word>, conds: seq<seq<Word>>) {
    forall facts ::
      Satisfied(ws, true, facts) <==> forall i :: 0 <= i < |conds| ==> Satisfied(conds[i], true, facts)
  }

  /** So what the clause sent says is the conjunction of the conditions if and only if each alternative of the joined
      text contains one of each condition; and for conditions that share no comparison, if and only if there is at
      most one or none has an OR outside parentheses. */
  lemma ClauseIsConjunction(conds: seq<seq<Word>>, atoms: nat -> string, orderBy: string, limit: int, offset: int,
          idx: nat)
    requires conds != []
    ensures exists ws ::
            && Says(ClauseText(TextsOf(conds, atoms), orderBy, limit, offset, idx), ws, atoms, idx,
                    Tail(orderBy, limit, offset))
            && (MeansAll(ws, conds) <==> Contained(conds))
            && (Independent(conds) && (forall i :: 0 <= i < |conds| ==> WellFormed(conds[i])) ==>
                 (MeansAll(ws, conds) <==> |conds| <= 1 || forall i :: 0 <= i < |conds| ==> Or !in conds[i]))
  {
    hide Says, Satisfied, ClauseText, Joined, WellFormed, Contained, Independent;
    ClauseSays(conds, atoms, orderBy, limit, offset, idx);
    JoinIsConjunctionExactly(conds);
    if Independent(conds) && forall i :: 0 <= i < |conds| ==> WellFormed(conds[i]) { JoinIsConjunction(conds); }
    MeansAllIs(conds);
  }

  lemma MeansAllIs(conds: seq<seq<Word>>)
    ensures MeansAll(Joined(conds), conds) <==> forall facts :: IsConjunction(conds, facts)
  {
    hide Satisfied, Joined;
    if forall facts :: IsConjunction(conds, facts) {
      forall facts
        ensures Satisfied(Joined(conds), true, facts) <==>
                forall i :: 0 <= i < |conds| ==> Satisfied(conds[i], true, facts)
      {
        assert IsConjunction(conds, facts);
      }
    } else {
      var facts :| !IsConjunction(conds, facts);
      assert !(Satisfied(Joined(conds), true, facts) <==>
               forall i :: 0 <= i < |conds| ==> Satisfied(conds[i], true, facts));
    }
  }
}
