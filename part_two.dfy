/**
  src/bin/part2.rs: for each game the fewest cubes of each colour that make
  all its draws possible, the product of those three counts (the game's
  power), and the sum of the powers over all lines.
 */
module PartTwo {
  import opened Games
  import PartOne

  /** Colour by colour the larger count: the step of the `reduce`. */
  function MaxCombo(a: ColorCombo, b: ColorCombo): (r: ColorCombo)
    ensures Fits(a, r) && Fits(b, r)
    ensures forall bag :: Fits(a, bag) && Fits(b, bag) ==> Fits(r, bag)
  {
    ColorCombo(
      if a.red >= b.red then a.red else b.red,
      if a.green >= b.green then a.green else b.green,
      if a.blue >= b.blue then a.blue else b.blue)
  }

  /** Every draw of `sets` fits in `bag`. */
  predicate AllFit(sets: seq<ColorCombo>, bag: ColorCombo)
  {
    forall i :: 0 <= i < |sets| ==> Fits(sets[i], bag)
  }

  /** `m` is the least bag every draw fits in: every draw fits in it, and it
      fits in every bag every draw fits in. */
  ghost predicate LeastBag(sets: seq<ColorCombo>, m: ColorCombo)
  {
    AllFit(sets, m) && forall bag :: AllFit(sets, bag) ==> Fits(m, bag)
  }

  /** The `reduce` of `game_power`: the draws folded from the first one with
      `MaxCombo`; no value for a game without draws. */
  function Minimum(sets: seq<ColorCombo>): (m: ColorCombo)
    requires |sets| > 0
    ensures AllFit(sets, m)
    ensures exists i :: 0 <= i < |sets| && sets[i].red == m.red
    ensures exists i :: 0 <= i < |sets| && sets[i].green == m.green
    ensures exists i :: 0 <= i < |sets| && sets[i].blue == m.blue
    decreases |sets|
  {
    if |sets| == 1 then sets[0]
    else
      var n := |sets| - 1;
      var prefix := sets[..n];
      assert forall i :: 0 <= i < n ==> prefix[i] == sets[i];
      MaxCombo(Minimum(prefix), sets[n])
  }

  /** The product of the three colour counts. */
  function Power(c: ColorCombo): nat
  {
    c.red * c.green * c.blue
  }

  /** `game_power`: the product of the fewest cubes of each colour; a game
      without draws has none (`reduce` yields nothing). */
  function GamePower(g: Game): (r: Result<nat>)
    ensures r.Err? <==> |g.sets| == 0
    ensures r.Err? ==> r.error == EmptyGame
  {
    if |g.sets| == 0 then Err(EmptyGame)
    else
      Ok(Power(Minimum(g.sets)))
  }

  // ---------------------------------------------------------------------
  // The fewest cubes

  /** The fold is the least bag: a bag holds every draw exactly when it holds
      the minimum. */
  lemma MinimumIsLeast(sets: seq<ColorCombo>)
    requires |sets| > 0
    ensures LeastBag(sets, Minimum(sets))
  {
    var m := Minimum(sets);
    forall bag | AllFit(sets, bag)
      ensures Fits(m, bag)
    {
      var r :| 0 <= r < |sets| && sets[r].red == m.red;
      var g :| 0 <= g < |sets| && sets[g].green == m.green;
      var b :| 0 <= b < |sets| && sets[b].blue == m.blue;
      assert Fits(sets[r], bag) && Fits(sets[g], bag) && Fits(sets[b], bag);
    }
  }

  /** There is only one least bag. */
  lemma LeastBagUnique(sets: seq<ColorCombo>, m1: ColorCombo, m2: ColorCombo)
    requires LeastBag(sets, m1) && LeastBag(sets, m2)
    ensures m1 == m2
  {
    assert Fits(m1, m2) && Fits(m2, m1);
  }

  /** The minimum is the one bag that is least. */
  lemma MinimumIff(sets: seq<ColorCombo>, m: ColorCombo)
    requires |sets| > 0
    ensures LeastBag(sets, m) <==> m == Minimum(sets)
  {
    MinimumIsLeast(sets);
    if LeastBag(sets, m) {
      LeastBagUnique(sets, m, Minimum(sets));
    }
  }

  /** A bag holds every draw exactly when it holds the minimum. */
  lemma MinimumFits(sets: seq<ColorCombo>, bag: ColorCombo)
    requires |sets| > 0
    ensures AllFit(sets, bag) <==> Fits(Minimum(sets), bag)
  {
    MinimumIsLeast(sets);
  }

  /** Lists with the same elements are empty together. */
  lemma SameDrawsEmpty(a: seq<ColorCombo>, b: seq<ColorCombo>)
    requires forall c :: c in a <==> c in b
    ensures |a| == 0 <==> |b| == 0
  {
    if |a| > 0 {
      assert a[0] in b;
    }
    if |b| > 0 {
      assert b[0] in a;
    }
  }

  /** The draws' order and repetition do not matter: games with the same
      set of draws have the same minimum. */
  lemma MinimumOrderFree(a: seq<ColorCombo>, b: seq<ColorCombo>)
    requires |a| > 0 && forall c :: c in a <==> c in b
    ensures |b| > 0 && Minimum(a) == Minimum(b)
  {
    SameDrawsEmpty(a, b);
    forall bag ensures AllFit(a, bag) <==> AllFit(b, bag) {
      if AllFit(a, bag) {
        forall j | 0 <= j < |b| ensures Fits(b[j], bag) {
          assert b[j] in a;
        }
      }
      if AllFit(b, bag) {
        forall j | 0 <= j < |a| ensures Fits(a[j], bag) {
          assert a[j] in b;
        }
      }
    }
    MinimumIsLeast(a);
    MinimumIsLeast(b);
    LeastBagUnique(a, Minimum(a), Minimum(b));
  }

  // ---------------------------------------------------------------------
  // The power

  lemma MulMono(x: nat, y: nat, z: nat)
    requires x <= y
    ensures x * z <= y * z
  {
  }

  /** A bag with at most as many cubes of every colour has at most the power. */
  lemma PowerMono(c: ColorCombo, d: ColorCombo)
    requires Fits(c, d)
    ensures Power(c) <= Power(d)
  {
    MulMono(c.red, d.red, c.green);
    MulMono(c.green, d.green, d.red);
    assert c.red * c.green <= d.red * d.green;
    MulMono(c.red * c.green, d.red * d.green, c.blue);
    MulMono(c.blue, d.blue, d.red * d.green);
  }

  /** The power is the smallest product over all bags that hold every draw. */
  lemma PowerIsLeast(g: Game, bag: ColorCombo)
    requires |g.sets| > 0 && AllFit(g.sets, bag)
    ensures GamePower(g).value <= Power(bag)
  {
    MinimumFits(g.sets, bag);
    PowerMono(Minimum(g.sets), bag);
  }

  /** The power is attained: the minimum is itself a bag holding every draw. */
  lemma PowerAttained(g: Game)
    requires |g.sets| > 0
    ensures exists bag :: AllFit(g.sets, bag) && GamePower(g) == Ok(Power(bag))
  {
    var m := Minimum(g.sets);
    assert AllFit(g.sets, m);
  }

  /** A game of one draw has that draw's product as its power. */
  lemma PowerSingleDraw(id: nat, c: ColorCombo)
    ensures GamePower(Game(id, [c])) == Ok(Power(c))
  {
  }

  /** Reordering or repeating draws does not change the power: games with the
      same set of draws have the same power. */
  lemma PowerOrderFree(g: Game, h: Game)
    requires forall c :: c in g.sets <==> c in h.sets
    ensures GamePower(g) == GamePower(h)
  {
    SameDrawsEmpty(g.sets, h.sets);
    if |g.sets| > 0 {
      MinimumOrderFree(g.sets, h.sets);
    }
  }

  /** A game that parsed always has a power: parsing gives one draw or more. */
  lemma ParsedHasPower(line: string)
    requires ParseGame(line).Ok?
    ensures GamePower(ParseGame(line).value).Ok?
  {
  }

  /** In the bag of part one a game is possible exactly when its fewest cubes
      fit in that bag. */
  lemma PossibleIffMinimumFits(g: Game)
    requires |g.sets| > 0
    ensures PartOne.Possible(g) <==> Fits(Minimum(g.sets), PartOne.Bag)
  {
    MinimumFits(g.sets, PartOne.Bag);
    forall i | 0 <= i < |g.sets|
      ensures PartOne.ComboIsValid(g.sets[i]) <==> Fits(g.sets[i], PartOne.Bag)
    {
      PartOne.ComboIsValidFits(g.sets[i]);
    }
  }

  // ---------------------------------------------------------------------
  // The whole run

  /** One line's contribution: parse it, then take its power; the first
      failure of the two is the line's. */
  function LinePower(line: string): Result<nat>
  {
    match ParseGame(line)
    case Err(e) => Err(e)
    case Ok(g) => GamePower(g)
  }

  function LinePowers(lines: seq<string>): (r: seq<Result<nat>>)
    ensures |r| == |lines| && forall i :: 0 <= i < |lines| ==> r[i] == LinePower(lines[i])
  {
    seq(|lines|, i requires 0 <= i < |lines| => LinePower(lines[i]))
  }

  function Sum(ns: seq<nat>): nat
    decreases |ns|
  {
    if ns == [] then 0 else Sum(ns[..|ns| - 1]) + ns[|ns| - 1]
  }

  /** The answer for results already computed per line. */
  function PowerTotalOf(rs: seq<Result<nat>>): Result<nat>
  {
    var all := AllOk(rs);
    if all.Err? then Err(all.error) else Ok(Sum(all.value))
  }

  /** The program's answer: every line must parse and have a power (each
      `unwrap` failure stops the run), and the powers are added up. */
  function PowerTotal(lines: seq<string>): Result<nat>
  {
    PowerTotalOf(LinePowers(lines))
  }

  /** A line contributes a power exactly when it parses. */
  lemma LinePowerOkIff(line: string)
    ensures LinePower(line).Ok? <==> ParseGame(line).Ok?
    ensures LinePower(line).Err? ==> LinePower(line).error != EmptyGame
  {
    if ParseGame(line).Err? {
      ParseGameErrorKinds(line);
    }
  }

  lemma {:induction false} SumAppend(a: seq<nat>, b: seq<nat>)
    ensures Sum(a + b) == Sum(a) + Sum(b)
    decreases |b|
  {
    if b == [] {
      assert a + b == a;
    } else {
      var n := |b| - 1;
      SumAppend(a, b[..n]);
      assert (a + b)[..|a + b| - 1] == a + b[..n];
      assert (a + b)[|a + b| - 1] == b[n];
    }
  }

  /** A run whose results all succeed with the values `vs` answers their sum. */
  lemma PowerTotalOfOk(rs: seq<Result<nat>>, vs: seq<nat>)
    requires AllOk(rs) == Ok(vs)
    ensures PowerTotalOf(rs) == Ok(Sum(vs))
  {
  }

  /** Two runs that both succeed: the answer for both is the sum of their answers. */
  lemma PowerTotalOfAppendOk(ra: seq<Result<nat>>, rb: seq<Result<nat>>)
    requires AllOk(ra).Ok? && AllOk(rb).Ok?
    ensures PowerTotalOf(ra + rb) == Ok(Sum(AllOk(ra).value) + Sum(AllOk(rb).value))
  {
    var va, vb := AllOk(ra).value, AllOk(rb).value;
    AllOkAppendOk(ra, rb);
    SumAppend(va, vb);
    PowerTotalOfOk(ra + rb, va + vb);
  }

  /** Two runs of which one fails: the answer for both is the first failure. */
  lemma PowerTotalOfAppendErr(ra: seq<Result<nat>>, rb: seq<Result<nat>>)
    requires AllOk(ra).Err? || AllOk(rb).Err?
    ensures PowerTotalOf(ra + rb) ==
      if AllOk(ra).Err? then Err(AllOk(ra).error) else Err(AllOk(rb).error)
  {
    AllOkAppendErr(ra, rb);
  }

  /** Parsed lines in two runs: the sum of the two answers, or the first failure. */
  lemma PowerTotalOfAppend(ra: seq<Result<nat>>, rb: seq<Result<nat>>)
    ensures PowerTotalOf(ra + rb) == AddTotals(PowerTotalOf(ra), PowerTotalOf(rb))
  {
    if AllOk(ra).Ok? && AllOk(rb).Ok? {
      PowerTotalOfAppendOk(ra, rb);
      PowerTotalOfOk(ra, AllOk(ra).value);
      PowerTotalOfOk(rb, AllOk(rb).value);
    } else {
      PowerTotalOfAppendErr(ra, rb);
    }
  }

  lemma LinePowersAppend(a: seq<string>, b: seq<string>)
    ensures LinePowers(a + b) == LinePowers(a) + LinePowers(b)
  {
    MapAppend(LinePower, a, b, LinePowers(a), LinePowers(b), LinePowers(a + b));
  }

  /** The answer for two runs of lines in a row is the sum of the two answers,
      or the first failure. */
  lemma PowerTotalAppend(a: seq<string>, b: seq<string>)
    ensures PowerTotal(a + b) == AddTotals(PowerTotal(a), PowerTotal(b))
  {
    LinePowersAppend(a, b);
    PowerTotalOfAppend(LinePowers(a), LinePowers(b));
  }

  /** The answer for a single line is that line's power or its error. */
  lemma PowerTotalSingle(line: string)
    ensures PowerTotal([line]) == LinePower(line)
  {
    var rs := LinePowers([line]);
    assert rs == [LinePower(line)];
    assert rs[..0] == [];
    assert AllOk(rs[..0]) == Ok([]);
    if rs[0].Ok? {
      var v := rs[0].value;
      assert AllOk(rs) == Ok([] + [v]);
      assert [] + [v] == [v];
      assert [v][..0] == [];
      PowerTotalOfOk(rs, [v]);
    } else {
      assert AllOk(rs) == Err(rs[0].error);
    }
  }



  /** The run succeeds exactly when every line parses: a parsed game never
      lacks a power. */
  lemma PowerTotalOkIff(lines: seq<string>)
    ensures PowerTotal(lines).Ok? <==> forall i :: 0 <= i < |lines| ==> ParseGame(lines[i]).Ok?
  {
    var rs := LinePowers(lines);
    AllOkIff(rs);
    forall i | 0 <= i < |lines| ensures rs[i].Ok? <==> ParseGame(lines[i]).Ok? {
      LinePowerOkIff(lines[i]);
    }
  }

  /** A failing run fails with the error of its first bad line, and that
      error is a parse error, never a missing power. */
  lemma PowerTotalFirstError(lines: seq<string>, k: nat)
    requires k < |lines|
    requires forall i :: 0 <= i < k ==> ParseGame(lines[i]).Ok?
    requires ParseGame(lines[k]).Err?
    ensures PowerTotal(lines) == Err(ParseGame(lines[k]).error)
  {
    var rs := LinePowers(lines);
    forall i | 0 <= i < k ensures rs[i].Ok? {
      LinePowerOkIff(lines[i]);
    }
    AllOkFirstError(rs, k);
  }
}
