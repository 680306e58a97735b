/**
 * The browser's dice roller (diceRoller.js): percentile dice with bonus and
 * penalty dice, and dice expressions such as "2D10+1D4-3".
 *
 * Every random draw is an input. `draw(n)` is the n-th value the page's
 * random source produces, as an arbitrary natural number; a die of `s`
 * sides shows `draw(n) % s + 1` and a ten-sided digit `draw(n) % 10`, so
 * every face is reachable and nothing else is assumed about the source.
 */
module DiceRoller {
  import opened Wrappers
  import opened Strings

  /** The page's random source: the n-th draw. */
  type Draws = nat -> nat

  /** `Math.floor(Math.random() * sides) + 1`; a die with no sides shows 1. */
  function Face(d: nat, sides: nat): (f: nat)
    ensures 1 <= f
    ensures sides > 0 ==> f <= sides
  {
    if sides == 0 then 1 else d % sides + 1
  }

  /** `Math.floor(Math.random() * 10) * 10`. */
  function TensOf(d: nat): (t: nat)
    ensures t % 10 == 0 && t <= 90
  {
    d % 10 * 10
  }

  function Sum(s: seq<int>): int {
    if |s| == 0 then 0 else s[0] + Sum(s[1..])
  }

  lemma {:induction false} SumSnoc(s: seq<int>, x: int)
    ensures Sum(s + [x]) == Sum(s) + x
  {
    if |s| > 0 {
      assert (s + [x])[1..] == s[1..] + [x];
      SumSnoc(s[1..], x);
    }
  }

  // ---------------------------------------------------- percentile dice

  /** The object `rollPercentDice` returns. */
  datatype PercentRoll = PercentRoll(
    result: int,
    tens: int,
    units: int,
    bonusRolls: seq<int>,
    penaltyRolls: seq<int>,
    effectiveBonus: nat,
    effectivePenalty: nat)

  /** `Math.min(x, ...s)`. */
  function Least(x: int, s: seq<int>): (m: int)
    ensures m <= x && forall i :: 0 <= i < |s| ==> m <= s[i]
    ensures m == x || m in s
  {
    if |s| == 0 then x
    else
      var rest := Least(x, s[1..]);
      assert forall i :: 1 <= i < |s| ==> s[1..][i - 1] == s[i];
      if s[0] < rest then s[0] else rest
  }

  /** `Math.max(x, ...s)`. */
  function Greatest(x: int, s: seq<int>): (m: int)
    ensures m >= x && forall i :: 0 <= i < |s| ==> m >= s[i]
    ensures m == x || m in s
  {
    if |s| == 0 then x
    else
      var rest := Greatest(x, s[1..]);
      assert forall i :: 1 <= i < |s| ==> s[1..][i - 1] == s[i];
      if s[0] > rest then s[0] else rest
  }

  predicate TensValue(t: int) { 0 <= t <= 90 && t % 10 == 0 }

  /** The extra tens dice, drawn after the tens (draw 0) and the units
      (draw 1). */
  function ExtraTens(draw: Draws, n: nat): (r: seq<int>)
    ensures |r| == n
    ensures forall i :: 0 <= i < n ==> r[i] == TensOf(draw(2 + i)) && TensValue(r[i])
  {
    seq(n, i requires 0 <= i < n => TensOf(draw(2 + i)))
  }

  /** The tens die kept: the least with bonus dice, the greatest with
      penalty dice. */
  function KeptTens(tens: int, bonusRolls: seq<int>, penaltyRolls: seq<int>): (k: int)
    requires TensValue(tens)
    requires forall i :: 0 <= i < |bonusRolls| ==> TensValue(bonusRolls[i])
    requires forall i :: 0 <= i < |penaltyRolls| ==> TensValue(penaltyRolls[i])
    ensures TensValue(k)
  {
    if |bonusRolls| > 0 then Least(tens, bonusRolls)
    else if |penaltyRolls| > 0 then Greatest(tens, penaltyRolls)
    else tens
  }

  /** What `rollPercentDice(numBonus, numPenalty)` returns for the draws. */
  function PercentOf(numBonus: int, numPenalty: int, draw: Draws): PercentRoll {
    var tens := TensOf(draw(0));
    var units := draw(1) % 10;
    var diff := numBonus - numPenalty;
    var bonus: nat := if diff > 0 then diff else 0;
    var penalty: nat := if diff < 0 then -diff else 0;
    var bonusRolls := ExtraTens(draw, bonus);
    var penaltyRolls := ExtraTens(draw, penalty);
    PercentRoll(Displayed(KeptTens(tens, bonusRolls, penaltyRolls), units), tens, units, bonusRolls, penaltyRolls, bonus, penalty)
  }

  /** The displayed value of a tens die and a units digit: `tens + units`,
      with 00 and 0 shown as 100. */
  function Displayed(tens: int, units: int): int {
    if tens + units == 0 then 100 else tens + units
  }

  /** The tens and the units digit that were actually used: the displayed
      result read back with 100 as 00. */
  function Underlying(r: PercentRoll): int {
    r.result % 100
  }

  /** The result lies in 1..100; the tens values are multiples of ten below
      100 and the units a digit. */
  lemma PercentInRange(numBonus: int, numPenalty: int, draw: Draws)
    ensures var r := PercentOf(numBonus, numPenalty, draw);
      && 1 <= r.result <= 100
      && TensValue(r.tens) && 0 <= r.units < 10
      && (forall i :: 0 <= i < |r.bonusRolls| ==> TensValue(r.bonusRolls[i]))
      && (forall i :: 0 <= i < |r.penaltyRolls| ==> TensValue(r.penaltyRolls[i]))
  {
  }

  /** Only the net number of bonus dice counts: at most one kind of extra
      dice is rolled, exactly as many as the difference. */
  lemma PercentNetOnly(numBonus: int, numPenalty: int, k: int, draw: Draws)
    ensures PercentOf(numBonus + k, numPenalty + k, draw) == PercentOf(numBonus, numPenalty, draw)
    ensures var r := PercentOf(numBonus, numPenalty, draw);
      && (r.effectiveBonus == 0 || r.effectivePenalty == 0)
      && r.effectiveBonus - r.effectivePenalty == numBonus - numPenalty
      && |r.bonusRolls| == r.effectiveBonus && |r.penaltyRolls| == r.effectivePenalty
  {
  }

  /** Bonus dice keep the lowest tens, so they never raise the roll;
      penalty dice keep the highest, so they never lower it. Equal numbers
      of each roll no extra dice and use the tens as rolled. */
  lemma PercentBonusPenalty(numBonus: int, numPenalty: int, draw: Draws)
    ensures var r := PercentOf(numBonus, numPenalty, draw);
      && (r.effectiveBonus > 0 ==>
            && Underlying(r) == Least(r.tens, r.bonusRolls) + r.units
            && Underlying(r) <= r.tens + r.units
            && (forall i :: 0 <= i < |r.bonusRolls| ==> Underlying(r) <= r.bonusRolls[i] + r.units))
      && (r.effectivePenalty > 0 ==>
            && Underlying(r) == Greatest(r.tens, r.penaltyRolls) + r.units
            && Underlying(r) >= r.tens + r.units
            && (forall i :: 0 <= i < |r.penaltyRolls| ==> Underlying(r) >= r.penaltyRolls[i] + r.units))
      && (numBonus == numPenalty ==> r.bonusRolls == [] && r.penaltyRolls == [] && Underlying(r) == r.tens + r.units)
  {
    var r := PercentOf(numBonus, numPenalty, draw);
    var kept := KeptTens(r.tens, r.bonusRolls, r.penaltyRolls);
    assert 0 <= kept + r.units < 100;
    assert Underlying(r) == kept + r.units;
  }

  /** `rollPercentDice`. */
  method RollPercentDice(numBonus: int, numPenalty: int, draw: Draws) returns (r: PercentRoll)
    ensures r == PercentOf(numBonus, numPenalty, draw)
  {
    var tens := TensOf(draw(0));
    var units := draw(1) % 10;
    var diff := numBonus - numPenalty;
    var effectiveBonus: nat := 0;
    var effectivePenalty: nat := 0;
    var bonusRolls: seq<int> := [];
    var penaltyRolls: seq<int> := [];
    if diff > 0 {
      effectiveBonus := diff;
      for i := 0 to effectiveBonus
        invariant bonusRolls == ExtraTens(draw, i)
      {
        bonusRolls := bonusRolls + [TensOf(draw(2 + i))];
      }
    } else if diff < 0 {
      effectivePenalty := -diff;
      for i := 0 to effectivePenalty
        invariant penaltyRolls == ExtraTens(draw, i)
      {
        penaltyRolls := penaltyRolls + [TensOf(draw(2 + i))];
      }
    }
    var finalTens := tens;
    if effectiveBonus > 0 {
      finalTens := Least(tens, bonusRolls);
    } else if effectivePenalty > 0 {
      finalTens := Greatest(tens, penaltyRolls);
    }
    var result := finalTens + units;
    var displayResult := if result == 0 then 100 else result;
    r := PercentRoll(displayResult, tens, units, bonusRolls, penaltyRolls, effectiveBonus, effectivePenalty);
  }

  // ------------------------------- bonus dice and a units digit of zero

  /** As written, a bonus die can raise the displayed result: tens 90,
      units 0 and a bonus die of 00 show 90 without the bonus die and 100,
      the worst roll, with it, because `Math.min` keeps 00. */
  lemma BonusDieCanRaise(draw: Draws)
    requires draw(0) % 10 == 9 && draw(1) % 10 == 0 && draw(2) % 10 == 0
    ensures PercentOf(0, 0, draw).result == 90
    ensures PercentOf(1, 0, draw).result == 100
  {
    assert ExtraTens(draw, 1) == [0];
  }

  /** As written, a penalty die can lower the displayed result: tens 00,
      units 0 and a penalty die of 90 show 100 without the penalty die and
      90 with it. */
  lemma PenaltyDieCanLower(draw: Draws)
    requires draw(0) % 10 == 0 && draw(1) % 10 == 0 && draw(2) % 10 == 9
    ensures PercentOf(0, 0, draw).result == 100
    ensures PercentOf(0, 1, draw).result == 90
  {
    assert ExtraTens(draw, 1) == [90];
  }

  /** The tens die among `x` and `s` whose displayed total with `units` is
      lowest: the bonus die rule read on the displayed result. */
  function BestTens(x: int, s: seq<int>, units: int): (m: int)
    ensures Displayed(m, units) <= Displayed(x, units)
    ensures forall i :: 0 <= i < |s| ==> Displayed(m, units) <= Displayed(s[i], units)
    ensures m == x || m in s
  {
    if |s| == 0 then x
    else
      var rest := BestTens(x, s[1..], units);
      assert forall i :: 1 <= i < |s| ==> s[1..][i - 1] == s[i];
      if Displayed(s[0], units) < Displayed(rest, units) then s[0] else rest
  }

  /** The tens die among `x` and `s` whose displayed total with `units` is
      highest: the penalty die rule read on the displayed result. */
  function WorstTens(x: int, s: seq<int>, units: int): (m: int)
    ensures Displayed(m, units) >= Displayed(x, units)
    ensures forall i :: 0 <= i < |s| ==> Displayed(m, units) >= Displayed(s[i], units)
    ensures m == x || m in s
  {
    if |s| == 0 then x
    else
      var rest := WorstTens(x, s[1..], units);
      assert forall i :: 1 <= i < |s| ==> s[1..][i - 1] == s[i];
      if Displayed(s[0], units) > Displayed(rest, units) then s[0] else rest
  }

  /** `rollPercentDice` keeping the tens die with the better displayed
      total (bonus dice) or the worse one (penalty dice), so that 00 with
      a units digit of 0 counts as 100. */
  function CorrectedPercentOf(numBonus: int, numPenalty: int, draw: Draws): PercentRoll {
    var tens := TensOf(draw(0));
    var units := draw(1) % 10;
    var diff := numBonus - numPenalty;
    var bonus: nat := if diff > 0 then diff else 0;
    var penalty: nat := if diff < 0 then -diff else 0;
    var bonusRolls := ExtraTens(draw, bonus);
    var penaltyRolls := ExtraTens(draw, penalty);
    var kept :=
      if bonus > 0 then BestTens(tens, bonusRolls, units)
      else if penalty > 0 then WorstTens(tens, penaltyRolls, units)
      else tens;
    PercentRoll(Displayed(kept, units), tens, units, bonusRolls, penaltyRolls, bonus, penalty)
  }

  /** With the correction, bonus dice never raise the displayed result and
      penalty dice never lower it: the result is the best (or worst)
      displayed total among the tens die and the extra dice, and equal
      numbers of each roll as written. */
  lemma CorrectedBonusPenalty(numBonus: int, numPenalty: int, draw: Draws)
    ensures var r := CorrectedPercentOf(numBonus, numPenalty, draw);
      && 1 <= r.result <= 100
      && (r.effectiveBonus > 0 ==>
            && r.result <= Displayed(r.tens, r.units)
            && (forall i :: 0 <= i < |r.bonusRolls| ==> r.result <= Displayed(r.bonusRolls[i], r.units))
            && (r.result == Displayed(r.tens, r.units)
                || exists i :: 0 <= i < |r.bonusRolls| && r.result == Displayed(r.bonusRolls[i], r.units)))
      && (r.effectivePenalty > 0 ==>
            && r.result >= Displayed(r.tens, r.units)
            && (forall i :: 0 <= i < |r.penaltyRolls| ==> r.result >= Displayed(r.penaltyRolls[i], r.units))
            && (r.result == Displayed(r.tens, r.units)
                || exists i :: 0 <= i < |r.penaltyRolls| && r.result == Displayed(r.penaltyRolls[i], r.units)))
      && (numBonus == numPenalty ==> r == PercentOf(numBonus, numPenalty, draw))
  {
    var r := CorrectedPercentOf(numBonus, numPenalty, draw);
    if r.effectiveBonus > 0 {
      var m := BestTens(r.tens, r.bonusRolls, r.units);
      if m != r.tens {
        var i :| 0 <= i < |r.bonusRolls| && r.bonusRolls[i] == m;
      }
    } else if r.effectivePenalty > 0 {
      var m := WorstTens(r.tens, r.penaltyRolls, r.units);
      if m != r.tens {
        var i :| 0 <= i < |r.penaltyRolls| && r.penaltyRolls[i] == m;
      }
    }
  }

  /** Keeping the better displayed total and keeping the lowest tens agree
      when the units digit is not 0. */
  lemma {:induction false} BestIsLeast(x: int, s: seq<int>, units: int)
    requires 0 <= x && 1 <= units && forall i :: 0 <= i < |s| ==> 0 <= s[i]
    ensures BestTens(x, s, units) == Least(x, s)
  {
    if |s| > 0 {
      assert forall i :: 0 <= i < |s[1..]| ==> 0 <= s[1..][i] by {
        assert forall i :: 0 <= i < |s[1..]| ==> s[1..][i] == s[i + 1];
      }
      BestIsLeast(x, s[1..], units);
    }
  }

  /** Keeping the worse displayed total and keeping the highest tens agree
      when the units digit is not 0. */
  lemma {:induction false} WorstIsGreatest(x: int, s: seq<int>, units: int)
    requires 0 <= x && 1 <= units && forall i :: 0 <= i < |s| ==> 0 <= s[i]
    ensures WorstTens(x, s, units) == Greatest(x, s)
  {
    if |s| > 0 {
      assert forall i :: 0 <= i < |s[1..]| ==> 0 <= s[1..][i] by {
        assert forall i :: 0 <= i < |s[1..]| ==> s[1..][i] == s[i + 1];
      }
      WorstIsGreatest(x, s[1..], units);
    }
  }

  /** The correction changes nothing unless the units digit is 0. */
  lemma CorrectedAgrees(numBonus: int, numPenalty: int, draw: Draws)
    requires draw(1) % 10 != 0
    ensures CorrectedPercentOf(numBonus, numPenalty, draw) == PercentOf(numBonus, numPenalty, draw)
  {
    var r := PercentOf(numBonus, numPenalty, draw);
    BestIsLeast(r.tens, r.bonusRolls, r.units);
    WorstIsGreatest(r.tens, r.penaltyRolls, r.units);
  }

  // --------------------------------------------------- dice expressions

  function UpperChar(c: char): char {
    if 'a' <= c <= 'z' then (c as int - 32) as char else c
  }

  /** `expression.toUpperCase().replace(/\s+/g, '')`, for ASCII. */
  function Clean(s: string): (r: string)
    ensures forall i :: 0 <= i < |r| ==> !IsSpace(r[i]) && !('a' <= r[i] <= 'z')
  {
    if |s| == 0 then []
    else if IsSpace(s[0]) then Clean(s[1..])
    else [UpperChar(s[0])] + Clean(s[1..])
  }

  /** Length of the run of digits that starts the text. */
  function DigitPrefix(t: string): (j: nat)
    ensures j <= |t| && AllDigits(t[..j])
    ensures j == |t| || !IsDigit(t[j])
  {
    if |t| == 0 || !IsDigit(t[0]) then 0
    else
      var j := 1 + DigitPrefix(t[1..]);
      assert forall i :: 1 <= i < j ==> t[i] == t[1..][i - 1];
      j
  }

  /** One "NdS" term: `parseInt` of the digits on either side of the D. */
  datatype DiceTerm = DiceTerm(count: nat, sides: nat)

  /** A match and the length of the text up to its end. */
  datatype DiceMatch = DiceMatch(term: DiceTerm, end: nat)

  datatype ModMatch = ModMatch(amount: int, end: nat)

  /** A match found after skipping `n` characters. */
  function ShiftDice(m: Option<DiceMatch>, n: nat): (r: Option<DiceMatch>)
    ensures r.Some? <==> m.Some?
    ensures r.Some? ==> r.value == DiceMatch(m.value.term, m.value.end + n)
  {
    if m.Some? then Some(DiceMatch(m.value.term, m.value.end + n)) else None
  }

  function ShiftMod(m: Option<ModMatch>, n: nat): (r: Option<ModMatch>)
    ensures r.Some? <==> m.Some?
    ensures r.Some? ==> r.value == ModMatch(m.value.amount, m.value.end + n)
  {
    if m.Some? then Some(ModMatch(m.value.amount, m.value.end + n)) else None
  }

  /** The next match of `/(\d+)D(\d+)/` in the text, with the length of
      the text up to the end of the match. A match starts at a run of
      digits followed by "D" and a digit; a run that is not, is skipped
      whole, since no match can start inside it either. */
  function NextDice(t: string): (m: Option<DiceMatch>)
    ensures m.Some? ==> 0 < m.value.end <= |t|
    decreases |t|
  {
    if |t| == 0 then None
    else if !IsDigit(t[0]) then ShiftDice(NextDice(t[1..]), 1)
    else
      var here := DiceAt(t);
      if here.Some? then here
      else
        var j := DigitPrefix(t);
        ShiftDice(NextDice(t[j..]), j)
  }

  /** The match of the dice pattern at the start of a text that starts
      with a digit, if there is one. */
  function DiceAt(t: string): (m: Option<DiceMatch>)
    requires |t| > 0 && IsDigit(t[0])
    ensures m.Some? ==> 0 < m.value.end <= |t|
  {
    var j := DigitPrefix(t);
    if j + 1 < |t| && t[j] == 'D' && IsDigit(t[j + 1]) then
      var k := DigitPrefix(t[j + 1..]);
      Some(DiceMatch(DiceTerm(DigitsValue(t[..j]), DigitsValue(t[j + 1..][..k])), j + 1 + k))
    else None
  }

  /** Every match of the dice pattern, left to right. */
  function DiceTerms(t: string): seq<DiceTerm>
    decreases |t|
  {
    var m := NextDice(t);
    if m.None? then [] else [m.value.term] + DiceTerms(t[m.value.end..])
  }

  /** The next match of `/([+-](?!\d*D)\d+)/`: a sign and the digits after
      it, unless those digits run into a "D" (then the sign starts a dice
      term and is skipped). */
  function NextModifier(t: string): (m: Option<ModMatch>)
    ensures m.Some? ==> 0 < m.value.end <= |t|
    decreases |t|
  {
    if |t| == 0 then None
    else if t[0] != '+' && t[0] != '-' then ShiftMod(NextModifier(t[1..]), 1)
    else
      var j := DigitPrefix(t[1..]);
      if j == 0 || (j < |t| - 1 && t[1 + j] == 'D') then ShiftMod(NextModifier(t[1..]), 1)
      else
        var v: int := DigitsValue(t[1..][..j]);
        Some(ModMatch(if t[0] == '-' then -v else v, 1 + j))
  }

  /** Every signed modifier, left to right. */
  function Modifiers(t: string): seq<int>
    decreases |t|
  {
    var m := NextModifier(t);
    if m.None? then [] else [m.value.amount] + Modifiers(t[m.value.end..])
  }

  /** One entry of `rolls`: the term as written back, its dice and their
      sum. */
  datatype DiceOutput = DiceOutput(kind: string, rolls: seq<int>, subtotal: int)

  /** The object `rollDiceExpression` returns. */
  datatype DiceResult = DiceResult(total: int, rolls: seq<DiceOutput>, modifier: int, expression: string)

  /** `${num}D${sides}`. */
  function Label(t: DiceTerm): string {
    NatToString(t.count) + ("D" + NatToString(t.sides))
  }

  /** The dice a term rolls, from draw `start` on. */
  function TermRolls(t: DiceTerm, draw: Draws, start: nat): (r: seq<int>)
    ensures |r| == t.count
    ensures forall i :: 0 <= i < |r| ==> r[i] == Face(draw(start + i), t.sides)
  {
    seq(t.count, i requires 0 <= i < t.count => Face(draw(start + i), t.sides))
  }

  function Entry(t: DiceTerm, draw: Draws, start: nat): DiceOutput {
    var rolls := TermRolls(t, draw, start);
    DiceOutput(Label(t), rolls, Sum(rolls))
  }

  /** The entries for the terms, each term's dice drawn after the previous
      term's. */
  function Outputs(terms: seq<DiceTerm>, draw: Draws, start: nat): (r: seq<DiceOutput>)
    ensures |r| == |terms|
  {
    if |terms| == 0 then []
    else [Entry(terms[0], draw, start)] + Outputs(terms[1..], draw, start + terms[0].count)
  }

  function Subtotals(outs: seq<DiceOutput>): int {
    if |outs| == 0 then 0 else outs[0].subtotal + Subtotals(outs[1..])
  }

  /** What `rollDiceExpression(expression)` returns for the draws. */
  function DiceExpressionOf(expression: string, draw: Draws): DiceResult {
    var s := Clean(expression);
    var outs := Outputs(DiceTerms(s), draw, 0);
    var modifier := Sum(Modifiers(s));
    DiceResult(Subtotals(outs) + modifier, outs, modifier, expression)
  }

  /** One entry per dice term, in the order written; each holds as many
      dice as the term asks for, every die within its sides, and their sum;
      the total is the dice plus the modifiers. */
  lemma DiceResultShape(expression: string, draw: Draws)
    ensures var r := DiceExpressionOf(expression, draw);
      var terms := DiceTerms(Clean(expression));
      && |r.rolls| == |terms|
      && (forall k :: 0 <= k < |terms| ==>
            && r.rolls[k].kind == Label(terms[k])
            && |r.rolls[k].rolls| == terms[k].count
            && r.rolls[k].subtotal == Sum(r.rolls[k].rolls)
            && (forall i :: 0 <= i < |r.rolls[k].rolls| ==>
                  1 <= r.rolls[k].rolls[i] && (terms[k].sides > 0 ==> r.rolls[k].rolls[i] <= terms[k].sides)))
      && r.modifier == Sum(Modifiers(Clean(expression)))
      && r.total == Subtotals(r.rolls) + r.modifier
  {
    OutputsShape(DiceTerms(Clean(expression)), draw, 0);
  }

  lemma {:induction false} OutputsShape(terms: seq<DiceTerm>, draw: Draws, start: nat)
    ensures var outs := Outputs(terms, draw, start);
      forall k :: 0 <= k < |terms| ==>
        && outs[k].kind == Label(terms[k])
        && |outs[k].rolls| == terms[k].count
        && outs[k].subtotal == Sum(outs[k].rolls)
        && (forall i :: 0 <= i < |outs[k].rolls| ==>
              1 <= outs[k].rolls[i] && (terms[k].sides > 0 ==> outs[k].rolls[i] <= terms[k].sides))
  {
    if |terms| > 0 {
      OutputsShape(terms[1..], draw, start + terms[0].count);
      var outs := Outputs(terms, draw, start);
      assert forall k :: 1 <= k < |terms| ==> outs[k] == Outputs(terms[1..], draw, start + terms[0].count)[k - 1];
    }
  }

  /** One `exec` of the dice pattern, from the rest of the text on. */
  lemma DiceStep(t: string)
    requires NextDice(t).Some?
    ensures DiceTerms(t) == [NextDice(t).value.term] + DiceTerms(t[NextDice(t).value.end..])
  {
  }

  lemma OutputsCons(term: DiceTerm, later: seq<DiceTerm>, draw: Draws, start: nat, next: nat)
    requires next == start + term.count
    ensures Outputs([term] + later, draw, start) == [Entry(term, draw, start)] + Outputs(later, draw, next)
  {
    assert ([term] + later)[1..] == later;
  }

  /** One pass of the dice loop: the term matched at `at` rolls next, and
      the terms after it follow from its last die on. */
  lemma DiceLoopStep(clean: string, at: nat, m: DiceMatch, next: nat, draw: Draws, used: nat, nextUsed: nat)
    requires at <= |clean| && NextDice(clean[at..]) == Some(m)
    requires next == at + m.end && nextUsed == used + m.term.count
    ensures next <= |clean|
    ensures Outputs(DiceTerms(clean[at..]), draw, used)
      == [Entry(m.term, draw, used)] + Outputs(DiceTerms(clean[next..]), draw, nextUsed)
  {
    var t := clean[at..];
    DiceStep(t);
    assert t[m.end..] == clean[next..];
    OutputsCons(m.term, DiceTerms(clean[next..]), draw, used, nextUsed);
  }

  /** The inner loop of `rollDiceExpression`: the dice of one term. */
  method RollTerm(term: DiceTerm, draw: Draws, used: nat) returns (diceRolls: seq<int>, diceTotal: int)
    ensures diceRolls == TermRolls(term, draw, used) && diceTotal == Sum(diceRolls)
  {
    diceRolls := [];
    diceTotal := 0;
    for i := 0 to term.count
      invariant diceRolls == TermRolls(term, draw, used)[..i]
      invariant diceTotal == Sum(diceRolls)
    {
      var roll := Face(draw(used + i), term.sides);
      SumSnoc(diceRolls, roll);
      diceRolls := diceRolls + [roll];
      diceTotal := diceTotal + roll;
    }
  }

  /** `rollDiceExpression`: every dice match rolls its dice in turn, then
      every modifier match is added. */
  method RollDiceExpression(expression: string, draw: Draws) returns (r: DiceResult)
    ensures r == DiceExpressionOf(expression, draw)
  {
    var clean := Clean(expression);
    var output, diceTotal := RollDiceTerms(clean, draw);
    var modTotal := ApplyModifiers(clean);
    r := DiceResult(diceTotal + modTotal, output, modTotal, expression);
  }

  /** The dice loop of `rollDiceExpression`. */
  method RollDiceTerms(clean: string, draw: Draws) returns (output: seq<DiceOutput>, total: int)
    ensures output == Outputs(DiceTerms(clean), draw, 0) && total == Subtotals(output)
  {
    total := 0;
    output := [];
    var used: nat := 0;
    var at := 0;
    var diceMatch := NextDice(clean);
    ghost var rest := Outputs(DiceTerms(clean), draw, 0);
    while diceMatch.Some?
      invariant at <= |clean| && diceMatch == NextDice(clean[at..])
      invariant rest == Outputs(DiceTerms(clean[at..]), draw, used)
      invariant output + rest == Outputs(DiceTerms(clean), draw, 0)
      invariant total + Subtotals(rest) == Subtotals(output + rest)
      decreases |clean| - at
    {
      var m := diceMatch.value;
      var term := m.term;
      var next := at + m.end;
      var nextUsed := used + term.count;
      var diceRolls, diceTotal := RollTerm(term, draw, used);
      DiceLoopStep(clean, at, m, next, draw, used, nextUsed);
      var entry := DiceOutput(Label(term), diceRolls, diceTotal);
      assert entry == Entry(term, draw, used);
      ghost var later := Outputs(DiceTerms(clean[next..]), draw, nextUsed);
      assert rest == [entry] + later;
      assert (output + [entry]) + later == output + rest;
      total := total + diceTotal;
      output := output + [entry];
      used := nextUsed;
      at := next;
      rest := later;
      diceMatch := NextDice(clean[at..]);
    }
  }

  /** The modifier loop of `rollDiceExpression`. */
  method ApplyModifiers(clean: string) returns (modTotal: int)
    ensures modTotal == Sum(Modifiers(clean))
  {
    modTotal := 0;
    var at := 0;
    var modMatch := NextModifier(clean);
    while modMatch.Some?
      invariant at <= |clean| && modMatch == NextModifier(clean[at..])
      invariant modTotal + Sum(Modifiers(clean[at..])) == Sum(Modifiers(clean))
      decreases |clean| - at
    {
      assert Modifiers(clean[at..]) == [modMatch.value.amount] + Modifiers(clean[at..][modMatch.value.end..]);
      assert clean[at..][modMatch.value.end..] == clean[at + modMatch.value.end..];
      modTotal := modTotal + modMatch.value.amount;
      at := at + modMatch.value.end;
      modMatch := NextModifier(clean[at..]);
    }
  }

  // ------------------------------------------------- writing expressions

  /** "NdS" terms joined with "+": the expressions the roller is written
      for. */
  function Render(terms: seq<DiceTerm>): string {
    if |terms| == 0 then ""
    else if |terms| == 1 then Label(terms[0])
    else Label(terms[0]) + ("+" + Render(terms[1..]))
  }

  /** The modifier with its sign, and nothing when it is zero. */
  function ModifierText(m: int): string {
    if m == 0 then "" else if m > 0 then "+" + NatToString(m) else "-" + NatToString(-m)
  }

  function ExpressionOf(terms: seq<DiceTerm>, modifier: int): string {
    Render(terms) + ModifierText(modifier)
  }

  predicate Plain(c: char) { IsDigit(c) || c == 'D' || c == '+' || c == '-' }

  lemma {:induction false} CleanPlain(s: string)
    requires forall i :: 0 <= i < |s| ==> Plain(s[i])
    ensures Clean(s) == s
  {
    if |s| > 0 {
      CleanPlain(s[1..]);
    }
  }

  lemma {:induction false} RenderPlain(terms: seq<DiceTerm>)
    ensures forall i :: 0 <= i < |Render(terms)| ==> Plain(Render(terms)[i])
  {
    if |terms| > 1 {
      RenderPlain(terms[1..]);
    }
  }

  /** A run of digits ended by a non-digit, or by the end, is the digit
      prefix. */
  lemma {:induction false} DigitPrefixOf(digits: string, rest: string)
    requires AllDigits(digits) && (|rest| == 0 || !IsDigit(rest[0]))
    ensures DigitPrefix(digits + rest) == |digits|
  {
    if |digits| > 0 {
      assert (digits + rest)[1..] == digits[1..] + rest;
      DigitPrefixOf(digits[1..], rest);
    }
  }

  /** Digits, a D and digits, followed by a non-digit, make one match. */
  lemma NextDiceAt(t: string)
    requires |t| > 0 && IsDigit(t[0]) && DiceAt(t).Some?
    ensures NextDice(t) == DiceAt(t)
  {
  }

  lemma TermMatched(a: string, b: string, rest: string, term: DiceTerm, end: nat)
    requires |a| > 0 && AllDigits(a) && |b| > 0 && AllDigits(b)
    requires DigitsValue(a) == term.count && DigitsValue(b) == term.sides
    requires |rest| == 0 || !IsDigit(rest[0])
    requires end == |a| + 1 + |b|
    ensures NextDice(a + ("D" + (b + rest))) == Some(DiceMatch(term, end))
  {
    var s := a + ("D" + (b + rest));
    DigitPrefixOf(a, "D" + (b + rest));
    var tail := s[|a| + 1..];
    assert tail == b + rest;
    DigitPrefixOf(b, rest);
    assert s[..|a|] == a;
    assert tail[..|b|] == b;
    var j := DigitPrefix(s);
    assert j == |a|;
    assert s[j + 1..] == tail;
    var k := DigitPrefix(tail);
    assert k == |b|;
    var m := DiceAt(s);
    assert m.Some? && m.value.end == end && m.value.term.count == term.count && m.value.term.sides == term.sides;
    var v := m.value;
    assert v.term == term;
    assert v == DiceMatch(term, end);
    assert m == Some(v);
    NextDiceAt(s);
  }

  lemma LabelSplit(t: DiceTerm, rest: string)
    ensures Label(t) + rest == NatToString(t.count) + ("D" + (NatToString(t.sides) + rest))
    ensures |Label(t)| == |NatToString(t.count)| + 1 + |NatToString(t.sides)|
  {
    var a, b := NatToString(t.count), NatToString(t.sides);
    assert (a + ("D" + b)) + rest == a + ("D" + (b + rest));
  }

  /** What follows the first written term. */
  function AfterFirst(terms: seq<DiceTerm>, tail: string): string
    requires |terms| > 0
  {
    if |terms| == 1 then tail else "+" + (Render(terms[1..]) + tail)
  }

  lemma RenderFront(terms: seq<DiceTerm>, tail: string)
    requires |terms| > 0
    ensures Render(terms) + tail == Label(terms[0]) + AfterFirst(terms, tail)
  {
    if |terms| > 1 {
      var l, r := Label(terms[0]), Render(terms[1..]);
      assert (l + ("+" + r)) + tail == l + ("+" + (r + tail));
    }
  }

  /** A written term followed by a non-digit is matched as that term. */
  lemma LabelMatched(t: DiceTerm, rest: string)
    requires |rest| == 0 || !IsDigit(rest[0])
    ensures NextDice(Label(t) + rest) == Some(DiceMatch(t, |Label(t)|))
  {
    var a, b := NatToString(t.count), NatToString(t.sides);
    LabelSplit(t, rest);
    NatToStringValue(t.count);
    NatToStringValue(t.sides);
    TermMatched(a, b, rest, t, |Label(t)|);
  }

  /** A leading non-digit is skipped by the dice pattern. */
  lemma DiceSkipOne(t: string)
    requires |t| > 0 && !IsDigit(t[0])
    ensures DiceTerms(t) == DiceTerms(t[1..])
  {
    var m := NextDice(t[1..]);
    if m.Some? {
      assert t[m.value.end + 1..] == t[1..][m.value.end..];
    }
  }

  /** A sign and digits to the end hold no dice term. */
  lemma SignedHasNoDice(sign: char, digits: string)
    requires sign == '+' || sign == '-'
    requires AllDigits(digits)
    ensures DiceTerms([sign] + digits) == []
  {
    var s := [sign] + digits;
    DiceSkipOne(s);
    assert s[1..] == digits;
    if |digits| > 0 {
      DigitPrefixOf(digits, "");
      assert digits + "" == digits;
      assert digits[|digits|..] == [];
    }
  }

  lemma ModifierHasNoDice(modifier: int)
    ensures DiceTerms(ModifierText(modifier)) == []
  {
    if modifier > 0 {
      SignedHasNoDice('+', NatToString(modifier));
    } else if modifier < 0 {
      SignedHasNoDice('-', NatToString(-modifier));
    }
  }

  /** The dice terms of a written expression are the terms it was written
      from. */
  lemma {:induction false} RenderDice(terms: seq<DiceTerm>, modifier: int)
    ensures DiceTerms(Render(terms) + ModifierText(modifier)) == terms
  {
    var tail := ModifierText(modifier);
    ModifierHasNoDice(modifier);
    if |terms| > 0 {
      var after := AfterFirst(terms, tail);
      var s := Render(terms) + tail;
      RenderFront(terms, tail);
      var n := |Label(terms[0])|;
      LabelMatched(terms[0], after);
      assert NextDice(s) == Some(DiceMatch(terms[0], n));
      assert s[n..] == after;
      DiceStep(s);
      assert DiceTerms(s) == [terms[0]] + DiceTerms(after);
      if |terms| > 1 {
        DiceSkipOne(after);
        assert after[1..] == Render(terms[1..]) + tail;
        RenderDice(terms[1..], modifier);
        assert terms == [terms[0]] + terms[1..];
      } else {
        assert terms == [terms[0]];
      }
    } else {
      assert Render(terms) + tail == tail;
    }
  }

  /** A leading character that starts no modifier is skipped. */
  lemma ModSkipOne(t: string)
    requires |t| > 0 && NextModifier(t) == ShiftMod(NextModifier(t[1..]), 1)
    ensures Modifiers(t) == Modifiers(t[1..])
  {
    var m := NextModifier(t[1..]);
    if m.Some? {
      assert t[m.value.end + 1..] == t[1..][m.value.end..];
    }
  }

  /** A text free of signs is skipped by the modifier pattern. */
  lemma {:induction false} SkipUnsigned(p: string, rest: string)
    requires forall i :: 0 <= i < |p| ==> p[i] != '+' && p[i] != '-'
    ensures Modifiers(p + rest) == Modifiers(rest)
  {
    if |p| > 0 {
      assert (p + rest)[1..] == p[1..] + rest;
      ModSkipOne(p + rest);
      SkipUnsigned(p[1..], rest);
    } else {
      assert p + rest == rest;
    }
  }

  /** A sign whose digits run into a D starts no modifier. */
  lemma SignBeforeDigitsD(a: string, rest: string)
    requires |a| > 0 && AllDigits(a)
    ensures Modifiers("+" + (a + ("D" + rest))) == Modifiers(a + ("D" + rest))
  {
    var s := "+" + (a + ("D" + rest));
    assert s[1..] == a + ("D" + rest);
    DigitPrefixOf(a, "D" + rest);
    assert s[1 + |a|] == 'D';
    ModSkipOne(s);
  }

  /** The written terms add no modifier of their own. */
  lemma {:induction false} RenderModifiers(terms: seq<DiceTerm>, modifier: int)
    ensures Modifiers(Render(terms) + ModifierText(modifier)) == Modifiers(ModifierText(modifier))
  {
    var tail := ModifierText(modifier);
    if |terms| > 0 {
      var after := AfterFirst(terms, tail);
      var written := Label(terms[0]);
      RenderFront(terms, tail);
      assert forall i :: 0 <= i < |written| ==> written[i] != '+' && written[i] != '-';
      SkipUnsigned(written, after);
      if |terms| > 1 {
        var inner := Render(terms[1..]) + tail;
        assert after == "+" + inner;
        var rest1 := "D" + (NatToString(terms[1].sides) + AfterFirst(terms[1..], tail));
        RenderFront(terms[1..], tail);
        LabelSplit(terms[1], AfterFirst(terms[1..], tail));
        assert inner == NatToString(terms[1].count) + rest1;
        SignBeforeDigitsD(NatToString(terms[1].count), NatToString(terms[1].sides) + AfterFirst(terms[1..], tail));
        RenderModifiers(terms[1..], modifier);
      }
    } else {
      assert Render(terms) + tail == tail;
    }
  }

  lemma ModifierRead(modifier: int)
    ensures Sum(Modifiers(ModifierText(modifier))) == modifier
  {
    var s := ModifierText(modifier);
    if modifier != 0 {
      var n: nat := if modifier > 0 then modifier else -modifier;
      var digits := NatToString(n);
      assert s[1..] == digits + "";
      DigitPrefixOf(digits, "");
      NatToStringValue(n);
      assert s[1..][..|digits|] == digits;
      assert s[1 + |digits|..] == [];
    }
  }

  /** Rolling an expression written from dice terms and a modifier rolls
      exactly those terms, in order, and adds exactly that modifier. */
  lemma RollWritten(terms: seq<DiceTerm>, modifier: int, draw: Draws)
    ensures var r := DiceExpressionOf(ExpressionOf(terms, modifier), draw);
      && r.rolls == Outputs(terms, draw, 0)
      && r.modifier == modifier
      && r.total == Subtotals(Outputs(terms, draw, 0)) + modifier
  {
    var s := ExpressionOf(terms, modifier);
    RenderPlain(terms);
    assert forall i :: 0 <= i < |s| ==> Plain(s[i]);
    CleanPlain(s);
    RenderDice(terms, modifier);
    RenderModifiers(terms, modifier);
    ModifierRead(modifier);
  }

  // ------------------------------------------------------------ display

  function RollLine(o: DiceOutput): string {
    o.kind + ": " + Join(seq(|o.rolls|, i requires 0 <= i < |o.rolls| => IntToString(o.rolls[i])), ", ")
      + " (" + IntToString(o.subtotal) + ")"
  }

  /** The lines `formatDiceResult` joins with `<br>`. */
  method FormatDiceLines(r: DiceResult) returns (lines: seq<string>)
    ensures |lines| == |r.rolls| + (if r.modifier != 0 then 1 else 0)
    ensures forall k :: 0 <= k < |r.rolls| ==> lines[k] == RollLine(r.rolls[k])
    ensures r.modifier != 0 ==> lines[|r.rolls|] == "Mod: " + IntToString(r.modifier)
  {
    lines := [];
    for k := 0 to |r.rolls|
      invariant |lines| == k
      invariant forall j :: 0 <= j < k ==> lines[j] == RollLine(r.rolls[j])
    {
      lines := lines + [RollLine(r.rolls[k])];
    }
    if r.modifier != 0 {
      lines := lines + ["Mod: " + IntToString(r.modifier)];
    }
  }

  /** The "Mod:" line reads back as the modifier. */
  lemma ModLineReadsBack(modifier: int)
    ensures var line := "Mod: " + IntToString(modifier);
      ParseIntLiteral(line[5..]) == Some(modifier)
  {
    var line := "Mod: " + IntToString(modifier);
    assert line[5..] == IntToString(modifier);
    IntRoundTrip(modifier);
  }
}
