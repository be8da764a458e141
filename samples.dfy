/**
  The five game records of the unit test in src/bin/part2.rs, with the
  games they parse to, whether part one counts them, their powers, and
  the answers of both parts for the five lines as one input.

  Each sample line is written as the "Game N: " header followed by its
  draws joined by "; ", each draw as its records joined by ", ": the
  same characters as the test's line, grouped the way `FormatLine`
  builds them.
 */
module Samples {
  import opened Strings
  import opened Games
  import PartOne
  import PartTwo

  // ---------------------------------------------------------------------
  // Writing small records, draws and lines

  lemma Assoc(x: string, y: string, z: string)
    ensures x + (y + z) == x + y + z
  {
  }

  lemma RecordText(n: nat, c: Colour, text: string)
    requires n < 10 && text == [DigitChar(n)] + " " + ColourName(c)
    ensures FormatRecord(Record(n, c)) == text
  {
  }

  lemma RecordTextTwoDigits(n: nat, c: Colour, text: string)
    requires 10 <= n < 100 && text == [DigitChar(n / 10), DigitChar(n % 10)] + " " + ColourName(c)
    ensures FormatRecord(Record(n, c)) == text
  {
    assert NatToString(n) == [DigitChar(n / 10)] + [DigitChar(n % 10)];
  }

  lemma JoinTwo(p: string, a: string, b: string, sep: string)
    ensures p + Join([a, b], sep) == p + a + sep + b
  {
    assert [a, b][1..] == [b];
    Assoc(p, a + sep, b);
    Assoc(p, a, sep);
  }

  lemma JoinThree(p: string, a: string, b: string, c: string, sep: string)
    ensures p + Join([a, b, c], sep) == p + a + sep + b + sep + c
  {
    assert [a, b, c][1..] == [b, c];
    assert [b, c][1..] == [c];
    assert Join([b, c], sep) == b + sep + c;
    calc {
      p + Join([a, b, c], sep);
      p + (a + sep + Join([b, c], sep));
      { Assoc(p, a + sep, b + sep + c); }
      p + (a + sep) + (b + sep + c);
      { Assoc(p, a, sep); }
      p + a + sep + (b + sep + c);
      { Assoc(p + a + sep, b + sep, c); }
      p + a + sep + (b + sep) + c;
      { Assoc(p + a + sep, b, sep); }
      p + a + sep + b + sep + c;
    }
  }

  lemma DrawOne(r: Record, t: string)
    requires FormatRecord(r) == t
    ensures FormatDraw([r]) == t
  {
    assert FormatRecords([r]) == [t];
  }

  lemma DrawTwo(r0: Record, r1: Record, t0: string, t1: string, text: string)
    requires FormatRecord(r0) == t0 && FormatRecord(r1) == t1
    requires t0 + ", " + t1 == text
    ensures FormatDraw([r0, r1]) == text
  {
    assert FormatRecords([r0, r1]) == [t0, t1];
    JoinTwo("", t0, t1, ", ");
    assert "" + t0 == t0;
  }

  lemma DrawThree(r0: Record, r1: Record, r2: Record, t0: string, t1: string, t2: string, text: string)
    requires FormatRecord(r0) == t0 && FormatRecord(r1) == t1 && FormatRecord(r2) == t2
    requires t0 + ", " + t1 + ", " + t2 == text
    ensures FormatDraw([r0, r1, r2]) == text
  {
    assert FormatRecords([r0, r1, r2]) == [t0, t1, t2];
    JoinThree("", t0, t1, t2, ", ");
    assert "" + t0 == t0;
  }

  lemma LineTwo(id: nat, d0: seq<Record>, d1: seq<Record>, idText: string, t0: string, t1: string)
    requires NatToString(id) == idText
    requires FormatDraw(d0) == t0 && FormatDraw(d1) == t1
    ensures FormatLine(id, [d0, d1]) == "Game " + idText + ": " + t0 + "; " + t1
  {
    assert FormatDraws([d0, d1]) == [t0, t1];
    JoinTwo("Game " + idText + ": ", t0, t1, "; ");
  }

  lemma LineThree(id: nat, d0: seq<Record>, d1: seq<Record>, d2: seq<Record>,
                  idText: string, t0: string, t1: string, t2: string)
    requires NatToString(id) == idText
    requires FormatDraw(d0) == t0 && FormatDraw(d1) == t1 && FormatDraw(d2) == t2
    ensures FormatLine(id, [d0, d1, d2]) == "Game " + idText + ": " + t0 + "; " + t1 + "; " + t2
  {
    assert FormatDraws([d0, d1, d2]) == [t0, t1, t2];
    JoinThree("Game " + idText + ": ", t0, t1, t2, "; ");
  }

  // ---------------------------------------------------------------------
  // Adding up small draws and taking small minima

  lemma CombineOne(a: Record)
    ensures Combine([a]) == AddRecord(ColorCombo(0, 0, 0), a)
  {
    assert [a][..0] == [];
  }

  lemma CombineTwo(a: Record, b: Record)
    ensures Combine([a, b]) == AddRecord(AddRecord(ColorCombo(0, 0, 0), a), b)
  {
    assert [a, b][..1] == [a];
    CombineOne(a);
  }

  lemma CombineThree(a: Record, b: Record, c: Record)
    ensures Combine([a, b, c]) == AddRecord(AddRecord(AddRecord(ColorCombo(0, 0, 0), a), b), c)
  {
    assert [a, b, c][..2] == [a, b];
    CombineTwo(a, b);
  }

  lemma CombineAllOf(draws: seq<seq<Record>>, sets: seq<ColorCombo>)
    requires |draws| == |sets| && forall i :: 0 <= i < |draws| ==> Combine(draws[i]) == sets[i]
    ensures CombineAll(draws) == sets
  {
  }

  lemma MinimumTwo(a: ColorCombo, b: ColorCombo)
    ensures PartTwo.Minimum([a, b]) == PartTwo.MaxCombo(a, b)
  {
    assert [a, b][..1] == [a];
  }

  lemma MinimumThree(a: ColorCombo, b: ColorCombo, c: ColorCombo)
    ensures PartTwo.Minimum([a, b, c]) == PartTwo.MaxCombo(PartTwo.MaxCombo(a, b), c)
  {
    assert [a, b, c][..2] == [a, b];
    MinimumTwo(a, b);
  }

  lemma PowerOf(line: string, g: Game, m: ColorCombo)
    requires ParseGame(line) == Ok(g) && |g.sets| > 0 && PartTwo.Minimum(g.sets) == m
    ensures PartTwo.LinePower(line) == Ok(PartTwo.Power(m))
  {
  }

  // ---------------------------------------------------------------------
  // Game 1: "Game 1: 3 blue, 4 red; 1 red, 2 green, 6 blue; 2 green"

  function Sample1(): string
  {
    "Game 1: " + ("3 blue" + ", " + "4 red") + "; " + ("1 red" + ", " + "2 green" + ", " + "6 blue") + "; " + "2 green"
  }

  function Draws1(): seq<seq<Record>>
  {
    [[Record(3, Blue), Record(4, Red)], [Record(1, Red), Record(2, Green), Record(6, Blue)], [Record(2, Green)]]
  }

  function Game1(): Game
  {
    Game(1, [ColorCombo(4, 0, 3), ColorCombo(1, 2, 6), ColorCombo(0, 2, 0)])
  }

  lemma Sample1Draw1()
    ensures FormatDraw(Draws1()[0]) == "3 blue" + ", " + "4 red"
  {
    RecordText(3, Blue, "3 blue");
    RecordText(4, Red, "4 red");
    DrawTwo(Record(3, Blue), Record(4, Red), "3 blue", "4 red", "3 blue" + ", " + "4 red");
  }

  lemma Sample1Draw2()
    ensures FormatDraw(Draws1()[1]) == "1 red" + ", " + "2 green" + ", " + "6 blue"
  {
    RecordText(1, Red, "1 red");
    RecordText(2, Green, "2 green");
    RecordText(6, Blue, "6 blue");
    DrawThree(Record(1, Red), Record(2, Green), Record(6, Blue), "1 red", "2 green", "6 blue", "1 red" + ", " + "2 green" + ", " + "6 blue");
  }

  lemma Sample1Draw3()
    ensures FormatDraw(Draws1()[2]) == "2 green"
  {
    RecordText(2, Green, "2 green");
    DrawOne(Record(2, Green), "2 green");
  }

  lemma Sample1Text()
    ensures FormatLine(1, Draws1()) == Sample1()
  {
    Sample1Draw1();
    Sample1Draw2();
    Sample1Draw3();
    LineThree(1, Draws1()[0], Draws1()[1], Draws1()[2], "1", "3 blue" + ", " + "4 red", "1 red" + ", " + "2 green" + ", " + "6 blue", "2 green");
    assert "Game " + "1" + ": " == "Game 1: ";
  }

  lemma Sample1Combined()
    ensures CombineAll(Draws1()) == Game1().sets
  {
    CombineTwo(Record(3, Blue), Record(4, Red));
    CombineThree(Record(1, Red), Record(2, Green), Record(6, Blue));
    CombineOne(Record(2, Green));
    CombineAllOf(Draws1(), Game1().sets);
  }

  /** `parse_game` on the test's line for game 1 gives its 3 draws. */
  lemma Sample1Parses()
    ensures ParseGame(Sample1()) == Ok(Game1())
  {
    Sample1Text();
    ParseFormattedLine(1, Draws1());
    Sample1Combined();
  }

  /** `game_power` of game 1 is 48, as the test expects. */
  lemma Sample1Power()
    ensures PartTwo.LinePower(Sample1()) == Ok(48)
  {
    Sample1Parses();
    MinimumThree(Game1().sets[0], Game1().sets[1], Game1().sets[2]);
    PowerOf(Sample1(), Game1(), ColorCombo(4, 2, 6));
  }

  lemma Sample1Possible()
    ensures PartOne.Possible(Game1())
  {
  }

  // ---------------------------------------------------------------------
  // Game 2: "Game 2: 1 blue, 2 green; 3 green, 4 blue, 1 red; 1 green, 1 blue"

  function Sample2(): string
  {
    "Game 2: " + ("1 blue" + ", " + "2 green") + "; " + ("3 green" + ", " + "4 blue" + ", " + "1 red") + "; " + ("1 green" + ", " + "1 blue")
  }

  function Draws2(): seq<seq<Record>>
  {
    [[Record(1, Blue), Record(2, Green)], [Record(3, Green), Record(4, Blue), Record(1, Red)], [Record(1, Green), Record(1, Blue)]]
  }

  function Game2(): Game
  {
    Game(2, [ColorCombo(0, 2, 1), ColorCombo(1, 3, 4), ColorCombo(0, 1, 1)])
  }

  lemma Sample2Draw1()
    ensures FormatDraw(Draws2()[0]) == "1 blue" + ", " + "2 green"
  {
    RecordText(1, Blue, "1 blue");
    RecordText(2, Green, "2 green");
    DrawTwo(Record(1, Blue), Record(2, Green), "1 blue", "2 green", "1 blue" + ", " + "2 green");
  }

  lemma Sample2Draw2()
    ensures FormatDraw(Draws2()[1]) == "3 green" + ", " + "4 blue" + ", " + "1 red"
  {
    RecordText(3, Green, "3 green");
    RecordText(4, Blue, "4 blue");
    RecordText(1, Red, "1 red");
    DrawThree(Record(3, Green), Record(4, Blue), Record(1, Red), "3 green", "4 blue", "1 red", "3 green" + ", " + "4 blue" + ", " + "1 red");
  }

  lemma Sample2Draw3()
    ensures FormatDraw(Draws2()[2]) == "1 green" + ", " + "1 blue"
  {
    RecordText(1, Green, "1 green");
    RecordText(1, Blue, "1 blue");
    DrawTwo(Record(1, Green), Record(1, Blue), "1 green", "1 blue", "1 green" + ", " + "1 blue");
  }

  lemma Sample2Text()
    ensures FormatLine(2, Draws2()) == Sample2()
  {
    Sample2Draw1();
    Sample2Draw2();
    Sample2Draw3();
    LineThree(2, Draws2()[0], Draws2()[1], Draws2()[2], "2", "1 blue" + ", " + "2 green", "3 green" + ", " + "4 blue" + ", " + "1 red", "1 green" + ", " + "1 blue");
    assert "Game " + "2" + ": " == "Game 2: ";
  }

  lemma Sample2Combined()
    ensures CombineAll(Draws2()) == Game2().sets
  {
    CombineTwo(Record(1, Blue), Record(2, Green));
    CombineThree(Record(3, Green), Record(4, Blue), Record(1, Red));
    CombineTwo(Record(1, Green), Record(1, Blue));
    CombineAllOf(Draws2(), Game2().sets);
  }

  /** `parse_game` on the test's line for game 2 gives its 3 draws. */
  lemma Sample2Parses()
    ensures ParseGame(Sample2()) == Ok(Game2())
  {
    Sample2Text();
    ParseFormattedLine(2, Draws2());
    Sample2Combined();
  }

  /** `game_power` of game 2 is 12, as the test expects. */
  lemma Sample2Power()
    ensures PartTwo.LinePower(Sample2()) == Ok(12)
  {
    Sample2Parses();
    MinimumThree(Game2().sets[0], Game2().sets[1], Game2().sets[2]);
    PowerOf(Sample2(), Game2(), ColorCombo(1, 3, 4));
  }

  lemma Sample2Possible()
    ensures PartOne.Possible(Game2())
  {
  }

  // ---------------------------------------------------------------------
  // Game 3: "Game 3: 8 green, 6 blue, 20 red; 5 blue, 4 red, 13 green; 5 green, 1 red"

  function Sample3(): string
  {
    "Game 3: " + ("8 green" + ", " + "6 blue" + ", " + "20 red") + "; " + ("5 blue" + ", " + "4 red" + ", " + "13 green") + "; " + ("5 green" + ", " + "1 red")
  }

  function Draws3(): seq<seq<Record>>
  {
    [[Record(8, Green), Record(6, Blue), Record(20, Red)], [Record(5, Blue), Record(4, Red), Record(13, Green)], [Record(5, Green), Record(1, Red)]]
  }

  function Game3(): Game
  {
    Game(3, [ColorCombo(20, 8, 6), ColorCombo(4, 13, 5), ColorCombo(1, 5, 0)])
  }

  lemma Sample3Draw1()
    ensures FormatDraw(Draws3()[0]) == "8 green" + ", " + "6 blue" + ", " + "20 red"
  {
    RecordText(8, Green, "8 green");
    RecordText(6, Blue, "6 blue");
    RecordTextTwoDigits(20, Red, "20 red");
    DrawThree(Record(8, Green), Record(6, Blue), Record(20, Red), "8 green", "6 blue", "20 red", "8 green" + ", " + "6 blue" + ", " + "20 red");
  }

  lemma Sample3Draw2()
    ensures FormatDraw(Draws3()[1]) == "5 blue" + ", " + "4 red" + ", " + "13 green"
  {
    RecordText(5, Blue, "5 blue");
    RecordText(4, Red, "4 red");
    RecordTextTwoDigits(13, Green, "13 green");
    DrawThree(Record(5, Blue), Record(4, Red), Record(13, Green), "5 blue", "4 red", "13 green", "5 blue" + ", " + "4 red" + ", " + "13 green");
  }

  lemma Sample3Draw3()
    ensures FormatDraw(Draws3()[2]) == "5 green" + ", " + "1 red"
  {
    RecordText(5, Green, "5 green");
    RecordText(1, Red, "1 red");
    DrawTwo(Record(5, Green), Record(1, Red), "5 green", "1 red", "5 green" + ", " + "1 red");
  }

  lemma Sample3Text()
    ensures FormatLine(3, Draws3()) == Sample3()
  {
    Sample3Draw1();
    Sample3Draw2();
    Sample3Draw3();
    LineThree(3, Draws3()[0], Draws3()[1], Draws3()[2], "3", "8 green" + ", " + "6 blue" + ", " + "20 red", "5 blue" + ", " + "4 red" + ", " + "13 green", "5 green" + ", " + "1 red");
    assert "Game " + "3" + ": " == "Game 3: ";
  }

  lemma Sample3Combined()
    ensures CombineAll(Draws3()) == Game3().sets
  {
    CombineThree(Record(8, Green), Record(6, Blue), Record(20, Red));
    CombineThree(Record(5, Blue), Record(4, Red), Record(13, Green));
    CombineTwo(Record(5, Green), Record(1, Red));
    CombineAllOf(Draws3(), Game3().sets);
  }

  /** `parse_game` on the test's line for game 3 gives its 3 draws. */
  lemma Sample3Parses()
    ensures ParseGame(Sample3()) == Ok(Game3())
  {
    Sample3Text();
    ParseFormattedLine(3, Draws3());
    Sample3Combined();
  }

  /** `game_power` of game 3 is 1560, as the test expects. */
  lemma Sample3Power()
    ensures PartTwo.LinePower(Sample3()) == Ok(1560)
  {
    Sample3Parses();
    MinimumThree(Game3().sets[0], Game3().sets[1], Game3().sets[2]);
    PowerOf(Sample3(), Game3(), ColorCombo(20, 13, 6));
  }

  lemma Sample3Impossible()
    ensures !PartOne.Possible(Game3())
  {
    assert !PartOne.ComboIsValid(Game3().sets[0]);
  }

  // ---------------------------------------------------------------------
  // Game 4: "Game 4: 1 green, 3 red, 6 blue; 3 green, 6 red; 3 green, 15 blue, 14 red"

  function Sample4(): string
  {
    "Game 4: " + ("1 green" + ", " + "3 red" + ", " + "6 blue") + "; " + ("3 green" + ", " + "6 red") + "; " + ("3 green" + ", " + "15 blue" + ", " + "14 red")
  }

  function Draws4(): seq<seq<Record>>
  {
    [[Record(1, Green), Record(3, Red), Record(6, Blue)], [Record(3, Green), Record(6, Red)], [Record(3, Green), Record(15, Blue), Record(14, Red)]]
  }

  function Game4(): Game
  {
    Game(4, [ColorCombo(3, 1, 6), ColorCombo(6, 3, 0), ColorCombo(14, 3, 15)])
  }

  lemma Sample4Draw1()
    ensures FormatDraw(Draws4()[0]) == "1 green" + ", " + "3 red" + ", " + "6 blue"
  {
    RecordText(1, Green, "1 green");
    RecordText(3, Red, "3 red");
    RecordText(6, Blue, "6 blue");
    DrawThree(Record(1, Green), Record(3, Red), Record(6, Blue), "1 green", "3 red", "6 blue", "1 green" + ", " + "3 red" + ", " + "6 blue");
  }

  lemma Sample4Draw2()
    ensures FormatDraw(Draws4()[1]) == "3 green" + ", " + "6 red"
  {
    RecordText(3, Green, "3 green");
    RecordText(6, Red, "6 red");
    DrawTwo(Record(3, Green), Record(6, Red), "3 green", "6 red", "3 green" + ", " + "6 red");
  }

  lemma Sample4Draw3()
    ensures FormatDraw(Draws4()[2]) == "3 green" + ", " + "15 blue" + ", " + "14 red"
  {
    RecordText(3, Green, "3 green");
    RecordTextTwoDigits(15, Blue, "15 blue");
    RecordTextTwoDigits(14, Red, "14 red");
    DrawThree(Record(3, Green), Record(15, Blue), Record(14, Red), "3 green", "15 blue", "14 red", "3 green" + ", " + "15 blue" + ", " + "14 red");
  }

  lemma Sample4Text()
    ensures FormatLine(4, Draws4()) == Sample4()
  {
    Sample4Draw1();
    Sample4Draw2();
    Sample4Draw3();
    LineThree(4, Draws4()[0], Draws4()[1], Draws4()[2], "4", "1 green" + ", " + "3 red" + ", " + "6 blue", "3 green" + ", " + "6 red", "3 green" + ", " + "15 blue" + ", " + "14 red");
    assert "Game " + "4" + ": " == "Game 4: ";
  }

  lemma Sample4Combined()
    ensures CombineAll(Draws4()) == Game4().sets
  {
    CombineThree(Record(1, Green), Record(3, Red), Record(6, Blue));
    CombineTwo(Record(3, Green), Record(6, Red));
    CombineThree(Record(3, Green), Record(15, Blue), Record(14, Red));
    CombineAllOf(Draws4(), Game4().sets);
  }

  /** `parse_game` on the test's line for game 4 gives its 3 draws. */
  lemma Sample4Parses()
    ensures ParseGame(Sample4()) == Ok(Game4())
  {
    Sample4Text();
    ParseFormattedLine(4, Draws4());
    Sample4Combined();
  }

  /** `game_power` of game 4 is 630, as the test expects. */
  lemma Sample4Power()
    ensures PartTwo.LinePower(Sample4()) == Ok(630)
  {
    Sample4Parses();
    MinimumThree(Game4().sets[0], Game4().sets[1], Game4().sets[2]);
    PowerOf(Sample4(), Game4(), ColorCombo(14, 3, 15));
  }

  lemma Sample4Impossible()
    ensures !PartOne.Possible(Game4())
  {
    assert !PartOne.ComboIsValid(Game4().sets[2]);
  }

  // ---------------------------------------------------------------------
  // Game 5: "Game 5: 6 red, 1 blue, 3 green; 2 blue, 1 red, 2 green"

  function Sample5(): string
  {
    "Game 5: " + ("6 red" + ", " + "1 blue" + ", " + "3 green") + "; " + ("2 blue" + ", " + "1 red" + ", " + "2 green")
  }

  function Draws5(): seq<seq<Record>>
  {
    [[Record(6, Red), Record(1, Blue), Record(3, Green)], [Record(2, Blue), Record(1, Red), Record(2, Green)]]
  }

  function Game5(): Game
  {
    Game(5, [ColorCombo(6, 3, 1), ColorCombo(1, 2, 2)])
  }

  lemma Sample5Draw1()
    ensures FormatDraw(Draws5()[0]) == "6 red" + ", " + "1 blue" + ", " + "3 green"
  {
    RecordText(6, Red, "6 red");
    RecordText(1, Blue, "1 blue");
    RecordText(3, Green, "3 green");
    DrawThree(Record(6, Red), Record(1, Blue), Record(3, Green), "6 red", "1 blue", "3 green", "6 red" + ", " + "1 blue" + ", " + "3 green");
  }

  lemma Sample5Draw2()
    ensures FormatDraw(Draws5()[1]) == "2 blue" + ", " + "1 red" + ", " + "2 green"
  {
    RecordText(2, Blue, "2 blue");
    RecordText(1, Red, "1 red");
    RecordText(2, Green, "2 green");
    DrawThree(Record(2, Blue), Record(1, Red), Record(2, Green), "2 blue", "1 red", "2 green", "2 blue" + ", " + "1 red" + ", " + "2 green");
  }

  lemma Sample5Text()
    ensures FormatLine(5, Draws5()) == Sample5()
  {
    Sample5Draw1();
    Sample5Draw2();
    LineTwo(5, Draws5()[0], Draws5()[1], "5", "6 red" + ", " + "1 blue" + ", " + "3 green", "2 blue" + ", " + "1 red" + ", " + "2 green");
    assert "Game " + "5" + ": " == "Game 5: ";
  }

  lemma Sample5Combined()
    ensures CombineAll(Draws5()) == Game5().sets
  {
    CombineThree(Record(6, Red), Record(1, Blue), Record(3, Green));
    CombineThree(Record(2, Blue), Record(1, Red), Record(2, Green));
    CombineAllOf(Draws5(), Game5().sets);
  }

  /** `parse_game` on the test's line for game 5 gives its 2 draws. */
  lemma Sample5Parses()
    ensures ParseGame(Sample5()) == Ok(Game5())
  {
    Sample5Text();
    ParseFormattedLine(5, Draws5());
    Sample5Combined();
  }

  /** `game_power` of game 5 is 36, as the test expects. */
  lemma Sample5Power()
    ensures PartTwo.LinePower(Sample5()) == Ok(36)
  {
    Sample5Parses();
    MinimumTwo(Game5().sets[0], Game5().sets[1]);
    PowerOf(Sample5(), Game5(), ColorCombo(6, 3, 2));
  }

  lemma Sample5Possible()
    ensures PartOne.Possible(Game5())
  {
  }

  // ---------------------------------------------------------------------
  // All five lines as one input

  /** For a run answer that splits over runs in a row, the answer for five
      lines is the sum of the five one-line answers. */
  lemma FiveLines(total: seq<string> -> Result<nat>, l1: string, l2: string, l3: string, l4: string,
                  l5: string, n1: nat, n2: nat, n3: nat, n4: nat, n5: nat)
    requires forall x, y :: total(x + y) == AddTotals(total(x), total(y))
    requires total([l1]) == Ok(n1) && total([l2]) == Ok(n2) && total([l3]) == Ok(n3)
    requires total([l4]) == Ok(n4) && total([l5]) == Ok(n5)
    ensures total([l1, l2, l3, l4, l5]) == Ok(n1 + n2 + n3 + n4 + n5)
  {
    var s2 := [l1] + [l2];
    assert total(s2) == Ok(n1 + n2);
    var s3 := s2 + [l3];
    assert total(s3) == Ok(n1 + n2 + n3);
    var s4 := s3 + [l4];
    assert total(s4) == Ok(n1 + n2 + n3 + n4);
    var s5 := s4 + [l5];
    assert s5 == [l1, l2, l3, l4, l5];
  }

  /** Sample 1 as an input of one line. */
  lemma Sample1Alone()
    ensures PartOne.Total([Sample1()]) == Ok(1)
    ensures PartTwo.PowerTotal([Sample1()]) == Ok(48)
  {
    Sample1Parses();
    Sample1Possible();
    PartOne.TotalSingle(Sample1());
    Sample1Power();
    PartTwo.PowerTotalSingle(Sample1());
  }

  /** Sample 2 as an input of one line. */
  lemma Sample2Alone()
    ensures PartOne.Total([Sample2()]) == Ok(2)
    ensures PartTwo.PowerTotal([Sample2()]) == Ok(12)
  {
    Sample2Parses();
    Sample2Possible();
    PartOne.TotalSingle(Sample2());
    Sample2Power();
    PartTwo.PowerTotalSingle(Sample2());
  }

  /** Sample 3 as an input of one line. */
  lemma Sample3Alone()
    ensures PartOne.Total([Sample3()]) == Ok(0)
    ensures PartTwo.PowerTotal([Sample3()]) == Ok(1560)
  {
    Sample3Parses();
    Sample3Impossible();
    PartOne.TotalSingle(Sample3());
    Sample3Power();
    PartTwo.PowerTotalSingle(Sample3());
  }

  /** Sample 4 as an input of one line. */
  lemma Sample4Alone()
    ensures PartOne.Total([Sample4()]) == Ok(0)
    ensures PartTwo.PowerTotal([Sample4()]) == Ok(630)
  {
    Sample4Parses();
    Sample4Impossible();
    PartOne.TotalSingle(Sample4());
    Sample4Power();
    PartTwo.PowerTotalSingle(Sample4());
  }

  /** Sample 5 as an input of one line. */
  lemma Sample5Alone()
    ensures PartOne.Total([Sample5()]) == Ok(5)
    ensures PartTwo.PowerTotal([Sample5()]) == Ok(36)
  {
    Sample5Parses();
    Sample5Possible();
    PartOne.TotalSingle(Sample5());
    Sample5Power();
    PartTwo.PowerTotalSingle(Sample5());
  }

  /** Part one's answer splits over runs of lines in a row. */
  lemma TotalSplits()
    ensures forall x, y :: PartOne.Total(x + y) == AddTotals(PartOne.Total(x), PartOne.Total(y))
  {
    forall x, y ensures PartOne.Total(x + y) == AddTotals(PartOne.Total(x), PartOne.Total(y)) {
      PartOne.TotalAppend(x, y);
    }
  }

  /** Part two's answer splits over runs of lines in a row. */
  lemma PowerTotalSplits()
    ensures forall x, y :: PartTwo.PowerTotal(x + y) == AddTotals(PartTwo.PowerTotal(x), PartTwo.PowerTotal(y))
  {
    forall x, y ensures PartTwo.PowerTotal(x + y) == AddTotals(PartTwo.PowerTotal(x), PartTwo.PowerTotal(y)) {
      PartTwo.PowerTotalAppend(x, y);
    }
  }

  /** Part two's answer for the five sample lines. */
  lemma SampleTotalPower()
    ensures PartTwo.PowerTotal([Sample1(), Sample2(), Sample3(), Sample4(), Sample5()]) == Ok(2286)
  {
    PowerTotalSplits();
    Sample1Alone();
    Sample2Alone();
    Sample3Alone();
    Sample4Alone();
    Sample5Alone();
    FiveLines(PartTwo.PowerTotal, Sample1(), Sample2(), Sample3(), Sample4(), Sample5(), 48, 12, 1560, 630, 36);
  }

  /** Part one's answer for the five sample lines: games 1, 2 and 5 count. */
  lemma SampleTotal()
    ensures PartOne.Total([Sample1(), Sample2(), Sample3(), Sample4(), Sample5()]) == Ok(8)
  {
    TotalSplits();
    Sample1Alone();
    Sample2Alone();
    Sample3Alone();
    Sample4Alone();
    Sample5Alone();
    FiveLines(PartOne.Total, Sample1(), Sample2(), Sample3(), Sample4(), Sample5(), 1, 2, 0, 0, 5);
  }
}
