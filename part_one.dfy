/**
  src/bin/part1.rs: the sum of the numbers of the games that are possible
  with a bag of 12 red, 13 green and 14 blue cubes.
 */
module PartOne {
  import opened Strings
  import opened Games

  /** The bag the draws are checked against. */
  const Bag := ColorCombo(12, 13, 14)

  /** `combo_is_valid`: no colour of the draw exceeds the bag's count. */
  predicate ComboIsValid(c: ColorCombo)
  {
    c.red <= 12 && c.green <= 13 && c.blue <= 14
  }

  /** A game is possible when every one of its draws is valid. */
  predicate Possible(g: Game)
  {
    forall i :: 0 <= i < |g.sets| ==> ComboIsValid(g.sets[i])
  }

  /** The numbers of the possible games, added up
      (`filter(..all(combo_is_valid)).map(|g| g.id).sum()`). */
  function PossibleIdSum(games: seq<Game>): nat
    decreases |games|
  {
    if games == [] then 0
    else
      var last := games[|games| - 1];
      PossibleIdSum(games[..|games| - 1]) + (if Possible(last) then last.id else 0)
  }

  /** The program's answer for the input lines: every line must parse (an
      `unwrap` failure stops the run), and the possible games' numbers are
      added up. */
  function Total(lines: seq<string>): Result<nat>
  {
    TotalOf(ParseGames(lines))
  }

  /** The answer for lines already parsed into `rs`. */
  function TotalOf(rs: seq<Result<Game>>): Result<nat>
  {
    match AllOk(rs)
    case Err(e) => Err(e)
    case Ok(games) => Ok(PossibleIdSum(games))
  }

  // ---------------------------------------------------------------------
  // Validity

  /** A draw is valid exactly when it fits in the bag. */
  lemma ComboIsValidFits(c: ColorCombo)
    ensures ComboIsValid(c) <==> Fits(c, Bag)
  {
  }

  /** Drawing fewer cubes of every colour keeps a valid draw valid. */
  lemma ValidDownwardClosed(c: ColorCombo, d: ColorCombo)
    requires Fits(c, d) && ComboIsValid(d)
    ensures ComboIsValid(c)
  {
  }

  // ---------------------------------------------------------------------
  // The sum

  /** The sum over two lists of games is the sum of the two sums. */
  lemma {:induction false} PossibleIdSumAppend(a: seq<Game>, b: seq<Game>)
    ensures PossibleIdSum(a + b) == PossibleIdSum(a) + PossibleIdSum(b)
    decreases |b|
  {
    if b == [] {
      assert a + b == a;
    } else {
      var n := |b| - 1;
      PossibleIdSumAppend(a, b[..n]);
      assert (a + b)[..|a + b| - 1] == a + b[..n];
      assert (a + b)[|a + b| - 1] == b[n];
    }
  }

  /** An impossible game adds nothing wherever it stands. */
  lemma ImpossibleAddsNothing(before: seq<Game>, g: Game, after: seq<Game>)
    requires !Possible(g)
    ensures PossibleIdSum(before + [g] + after) == PossibleIdSum(before + after)
  {
    PossibleIdSumAppend(before + [g], after);
    PossibleIdSumAppend(before, [g]);
    PossibleIdSumAppend(before, after);
    assert [g][..0] == [];
  }

  /** A possible game adds its number wherever it stands. */
  lemma PossibleAddsId(before: seq<Game>, g: Game, after: seq<Game>)
    requires Possible(g)
    ensures PossibleIdSum(before + [g] + after) == PossibleIdSum(before + after) + g.id
  {
    PossibleIdSumAppend(before + [g], after);
    PossibleIdSumAppend(before, [g]);
    PossibleIdSumAppend(before, after);
    assert [g][..0] == [];
  }

  /** The sum of the numbers of all the games in the list. */
  function IdSum(games: seq<Game>): nat
    decreases |games|
  {
    if games == [] then 0 else IdSum(games[..|games| - 1]) + games[|games| - 1].id
  }

  /** The sum never exceeds the sum of all numbers, and reaches it exactly
      when no game with a positive number is impossible. */
  lemma {:induction false} PossibleIdSumBound(games: seq<Game>)
    ensures PossibleIdSum(games) <= IdSum(games)
    ensures PossibleIdSum(games) == IdSum(games) <==>
      forall i :: 0 <= i < |games| && games[i].id > 0 ==> Possible(games[i])
    decreases |games|
  {
    if games != [] {
      var n := |games| - 1;
      PossibleIdSumBound(games[..n]);
      assert forall i :: 0 <= i < n ==> games[..n][i] == games[i];
    }
  }

  // ---------------------------------------------------------------------
  // The whole run

  /** The run succeeds exactly when every line parses. */
  lemma TotalOkIff(lines: seq<string>)
    ensures Total(lines).Ok? <==> forall i :: 0 <= i < |lines| ==> ParseGame(lines[i]).Ok?
  {
    AllOkIff(ParseGames(lines));
  }

  /** A failing run fails with the error of its first bad line. */
  lemma TotalFirstError(lines: seq<string>, k: nat)
    requires k < |lines|
    requires forall i :: 0 <= i < k ==> ParseGame(lines[i]).Ok?
    requires ParseGame(lines[k]).Err?
    ensures Total(lines) == Err(ParseGame(lines[k]).error)
  {
    AllOkFirstError(ParseGames(lines), k);
  }

  /** Parsed lines in two runs: the sum of the two answers, or the first failure. */
  lemma TotalOfAppend(ra: seq<Result<Game>>, rb: seq<Result<Game>>)
    ensures TotalOf(ra + rb) == AddTotals(TotalOf(ra), TotalOf(rb))
  {
    AllOkAppend(ra, rb);
    if AllOk(ra).Ok? && AllOk(rb).Ok? {
      PossibleIdSumAppend(AllOk(ra).value, AllOk(rb).value);
    }
  }

  /** The answer for two runs of lines in a row is the sum of the two answers,
      or the first failure. */
  lemma TotalAppend(a: seq<string>, b: seq<string>)
    ensures Total(a + b) == AddTotals(Total(a), Total(b))
  {
    ParseGamesAppend(a, b);
    TotalOfAppend(ParseGames(a), ParseGames(b));
  }

  /** The answer for one parsed result: the game's number if it is possible,
      0 if not, or the parse error. */
  lemma TotalOfSingle(r: Result<Game>)
    ensures TotalOf([r]) ==
      match r
      case Err(e) => Err(e)
      case Ok(g) => Ok(if Possible(g) then g.id else 0)
  {
    assert [r][..0] == [];
    assert AllOk([r][..0]) == Ok([]);
    if r.Ok? {
      assert AllOk([r]) == Ok([] + [r.value]);
      assert [] + [r.value] == [r.value];
      assert [r.value][..0] == [];
      assert PossibleIdSum([r.value]) == PossibleIdSum([]) + (if Possible(r.value) then r.value.id else 0);
    } else {
      assert AllOk([r]) == Err(r.error);
    }
  }

  /** The answer for a single line: its number if its game is possible, 0 if
      not, or its parse error. */
  lemma TotalSingle(line: string)
    ensures Total([line]) ==
      match ParseGame(line)
      case Err(e) => Err(e)
      case Ok(g) => Ok(if Possible(g) then g.id else 0)
  {
    assert ParseGames([line]) == [ParseGame(line)];
    TotalOfSingle(ParseGame(line));
  }

}
