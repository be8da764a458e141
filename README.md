# Cube Conundrum (aoc2023-day02) in Dafny

A model of the two Rust binaries of aoc2023-day02. Each input line records one game:
`Game <id>: <draw>; <draw>; ...`. A draw is a list of records, `<count> <colour>, ...`, for
cubes of three colours: red, green and blue.

- `src/bin/part1.rs` adds up the numbers of the games that a bag of 12 red, 13 green and
  14 blue cubes could have produced.
- `src/bin/part2.rs` takes, for each game, the fewest cubes of each colour that allow every
  draw. It multiplies those three counts (the game's *power*) and adds up the powers.

The five modules:

- `Strings` (`strings.dfy`) models the library calls the parser depends on:
  - `str::split` and its inverse `Join`;
  - `str::split_once`;
  - `usize::from_str` and the decimal text of a number;
  - the pattern `^Game (\d+): (.+)$`, as a hand-written matcher.
- `Games` (`games.dfy`) models the shared types and the parser shared by both binaries:
  - the types `ColorCombo`, `Game`, a `Result` and the error kinds;
  - `parse_set`, as the method `ParseSet`, a loop over the records proved equal to the
    fold `SetValue`;
  - `parse_game`, as a function;
  - a formatter `FormatLine`/`FormatGame`, the partner of the parser for the round-trip
    lemmas.
- `PartOne` (`part_one.dfy`) models `combo_is_valid`, the possibility of a game, and the
  fold that adds up the numbers of the possible games.
- `PartTwo` (`part_two.dfy`) models `game_power`, as the component-wise maximum of the
  draws (`Minimum`) times `Power`, and the fold that adds up the powers.
- `Samples` (`samples.dfy`) holds the five unit-test lines of `src/bin/part2.rs`. Each one
  parses to the expected game and has the expected power (48, 12, 1560, 630 and 36). As
  one input, the five lines answer 8 in part 1 and 2286 in part 2.

The whole run of either binary is a function of the list of input lines: `PartOne.Total`
and `PartTwo.PowerTotal`. The run fails (`Err`) as soon as any line fails, because every
`unwrap` panics. Otherwise it gives the sum.

## Model

| member | source | states |
|---|---|---|
| Strings.FindFrom | src/bin/part2.rs:31 | the first occurrence of a separator at or after a position; none before it; `None` only when there is none |
| Strings.FindNoneIff | src/bin/part2.rs:31 | the search finds nothing exactly when the separator does not occur |
| Strings.FindAfterPiece | src/bin/part2.rs:31 | in `p + sep + rest`, with `sep` absent from `p`, the first occurrence is right after `p` |
| Strings.Split | src/bin/part2.rs:31 | `str::split` always yields at least one piece |
| Strings.JoinSplit | src/bin/part2.rs:31 | joining the pieces of a split with its separator gives back the text |
| Strings.SplitPiecesFree | src/bin/part2.rs:31 | no piece of a split contains the separator |
| Strings.SplitJoin | src/bin/part2.rs:51 | splitting a join of separator-free pieces gives back the pieces |
| Strings.SplitOnce | src/bin/part2.rs:32-34 | `None` exactly when the separator is absent; otherwise the text is `head + sep + tail`, with no separator in `head` |
| Strings.SplitOnceAt | src/bin/part2.rs:32-34 | `split_once` on `a + sep + b`, with `sep` absent from `a`, gives `(a, b)` |
| Strings.AbsentFirstChar | src/bin/part2.rs:31 | a text without the separator's first character does not contain the separator |
| Strings.JoinAvoids | src/bin/part2.rs:51 | a character in neither the pieces nor the separator is absent from the join |
| Strings.DigitChar | src/bin/part2.rs:35 | the digit character of `d < 10` is a digit whose value is `d` |
| Strings.NatToString | src/bin/part2.rs:54 | the decimal text of a number is a non-empty string of digits |
| Strings.DecimalOfNatToString | src/bin/part2.rs:54 | the value of a number's decimal text is the number |
| Strings.ParseUnsigned | src/bin/part2.rs:35 | `usize::from_str`: an optional `+` and one or more ASCII digits; `ParseUnsignedRoundTrip` states that it reads every number's decimal text back, and `ParseRecordOk` how a record's count is read with it |
| Strings.ParseUnsignedRoundTrip | src/bin/part2.rs:35 | `usize::from_str` of a number's decimal text gives the number |
| Strings.DigitsAvoid | src/bin/part2.rs:51 | a digit string contains no separator that starts with a non-digit |
| Strings.DigitRunEnd | src/bin/part2.rs:11 | the greedy `\d+` run: all digits, and it stops at the end of the text or at a non-digit |
| Strings.MatchLine | src/bin/part2.rs:11 | a match splits the line into `"Game " + digits + ": " + rest`, with non-empty digits and a non-empty rest free of line feeds |
| Strings.MatchLineComplete | src/bin/part2.rs:11 | every line of that shape matches, with exactly those digits and that rest |
| Games.ColourNamed | src/bin/part2.rs:36-41 | it gives a colour only for that colour's own name, and fails for every other text |
| Games.AddRecord | src/bin/part2.rs:37-39 | `+=` adds the count to the named colour and leaves the other two colours unchanged |
| Games.AllOk | src/bin/part2.rs:51 | a successful collect has one value per result, each the value of its result |
| Games.AllOkIff | src/bin/part2.rs:51 | the collect succeeds exactly when every result succeeds |
| Games.AllOkFirstError | src/bin/part2.rs:51 | with results before index k all good and result k an error, the collect fails with that error |
| Games.AllOkErrorIsOne | src/bin/part2.rs:51 | a failed collect carries the error of one of its results |
| Games.AllOkValues | src/bin/part2.rs:51 | results that are `Ok` of the given values collect to exactly those values |
| Games.AllOkAppend | src/bin/part2.rs:51 | collecting two runs in a row gives the concatenated values, or the first failure |
| Games.AllOkAppendOk | src/bin/part2.rs:51 | two successful runs collect to the concatenation of their values |
| Games.AllOkAppendErr | src/bin/part2.rs:51 | when one of two runs fails, the joint collect fails with the first run's error if it has one, else the second's |
| Games.ParseRecord | src/bin/part2.rs:32-41 | one pass of the loop body: split at the first space, read the count, name the colour; its meaning is stated by `ParseRecordOk`, `ParseRecordRoundTrip` and `TallyErrorKinds` |
| Games.ParseRecordOk | src/bin/part2.rs:32-41 | a record parses to `(count, colour)` exactly when it splits at its first space into a text that `usize::from_str` reads as the count and the colour's own name |
| Games.PrefixParsedSnoc | src/bin/part2.rs:31-42 | the loop invariant grows by one record that parses |
| Games.CombineSnoc | src/bin/part2.rs:37-39 | adding one more record to the totals is `AddRecord` |
| Games.Combine | src/bin/part2.rs:37-39 | the totals of a list of records, added one by one from zero; `CombineCounts` states that each colour's total is the sum of the counts naming it |
| Games.Tally | src/bin/part2.rs:31-44 | the loop as a fold over the records: the first failing record's error, or the totals; `TallyOkIff`, `TallyFirstError` and `TallyCounts` state its meaning |
| Games.TallyAllParsed | src/bin/part2.rs:31-44 | when every record parses, the fold gives the sum of the records |
| Games.TallyFailsAt | src/bin/part2.rs:31-42 | the fold stops at the first record that fails, with that record's error |
| Games.SetValue | src/bin/part2.rs:26-45 | `parse_set` as a function: split on `", "`, then the fold; `ParseSet` is proved equal to it, and `TallyCounts` and `TallyErrorKinds` state what it gives |
| Games.ParseSet | src/bin/part2.rs:26-45 | the loop over the records returns what `SetValue` (split on `", "`, then the fold) gives |
| Games.TallyOkIff | src/bin/part2.rs:31-44 | a draw parses exactly when each of its records does |
| Games.TallyFirstError | src/bin/part2.rs:31-42 | a failing draw fails with the error of its first bad record |
| Games.TallyErrorKinds | src/bin/part2.rs:32-41 | a draw fails only for a record without a space, a bad number or an unknown colour |
| Games.CombineCounts | src/bin/part2.rs:37-39 | each colour's total is the sum of the counts of the records naming that colour |
| Games.NamedAppend | src/bin/part2.rs:37-39 | per-colour sums add up over two runs of records |
| Games.NamedAbsent | src/bin/part2.rs:37-39 | a colour no record names has total 0 |
| Games.TallyCounts | src/bin/part2.rs:26-45 | a parsed draw's count for each colour is the sum over the records naming that colour |
| Games.ParseSets | src/bin/part2.rs:51 | the `unwrap`ped `parse_set` of each `"; "` segment, collected in order; `ParseSetsMeaning` and `ParseSetsRoundTrip` state its meaning |
| Games.ParseSetsMeaning | src/bin/part2.rs:51 | the draws parse exactly when each one does, and then the values are theirs, in order |
| Games.ParseGame | src/bin/part2.rs:47-57 | a parsed game has at least one draw; a line that does not match the pattern fails with `LineFormat` |
| Games.ParseGameMeaning | src/bin/part2.rs:47-57 | for a matching line, parsing succeeds exactly when every `"; "`-separated draw parses; the id is the digits' value; the draws are the parsed segments, in order |
| Games.ParseGameErrorKinds | src/bin/part2.rs:47-57 | a line fails only with a line-format, record-format, number or colour error |
| Games.ParseGameOf | src/bin/part2.rs:47-57 | a matching line whose draws parse gives the game with that id and those draws |
| Games.ParseGameSegmentError | src/bin/part2.rs:51 | a line fails with the error of its first bad draw |
| Games.MapAppend | src/bin/part2.rs:76 | mapping over two runs in a row gives the two mapped runs in a row |
| Games.ParseGamesAppend | src/bin/part2.rs:76 | parsing two runs of lines in a row gives the two parsed runs in a row |
| Games.ParseRecordRoundTrip | src/bin/part2.rs:32-41 | a formatted record parses back to itself |
| Games.TallyRoundTrip | src/bin/part2.rs:31-44 | the fold over formatted records gives their totals |
| Games.FormatRecordAvoids | src/bin/part2.rs:31 | a formatted record has no `,`, `;` or line feed |
| Games.FormatDrawAvoids | src/bin/part2.rs:51 | a formatted draw has no `;` or line feed |
| Games.SetValueRoundTrip | src/bin/part2.rs:26-45 | a formatted non-empty draw parses to its totals |
| Games.ParseSetsRoundTrip | src/bin/part2.rs:51 | formatted non-empty draws parse to their totals |
| Games.JoinedDraws | src/bin/part2.rs:51 | the `"; "`-join of formatted draws is non-empty, has no line feed, and splits back into the draws |
| Games.ParseFormattedLine | src/bin/part2.rs:47-57 | a formatted line with non-empty draws parses to its id and the draws' totals |
| Games.CombineCanonical | src/bin/part2.rs:37-39 | the record list written for a draw adds up to that draw |
| Games.CombineCanonicalDraws | src/bin/part2.rs:51 | the written record lists add up to the draws |
| Games.ParseGameRoundTrip | src/bin/part2.rs:47-57 | every game with at least one draw, formatted as a line, parses back to itself |
| PartOne.ComboIsValid | src/bin/part1.rs:23-25 | `combo_is_valid`; `ComboIsValidFits` and `ValidDownwardClosed` state its meaning |
| PartOne.Possible | src/bin/part1.rs:64 | the `filter` condition: every draw is valid; `PossibleIffMinimumFits`, `ImpossibleAddsNothing` and `PossibleAddsId` state its effect |
| PartOne.PossibleIdSum | src/bin/part1.rs:64-66 | the numbers of the possible games, added up; `PossibleIdSumAppend`, `ImpossibleAddsNothing`, `PossibleAddsId` and `PossibleIdSumBound` state its meaning |
| PartOne.TotalOf | src/bin/part1.rs:63-66 | the answer for parsed lines; `TotalOfAppend` and `TotalOfSingle` state its meaning |
| PartOne.Total | src/bin/part1.rs:60-66 | the run over a list of lines; `TotalOkIff`, `TotalFirstError`, `TotalAppend` and `TotalSingle` state its meaning |
| PartOne.ComboIsValidFits | src/bin/part1.rs:23-25 | a draw is valid exactly when it fits in the bag of 12 red, 13 green, 14 blue |
| PartOne.ValidDownwardClosed | src/bin/part1.rs:23-25 | a draw with no more cubes of each colour than a valid draw is valid |
| PartOne.PossibleIdSumAppend | src/bin/part1.rs:64-66 | the sum over two runs of games is the sum of the two sums |
| PartOne.ImpossibleAddsNothing | src/bin/part1.rs:64 | an impossible game adds nothing to the sum, wherever it stands |
| PartOne.PossibleAddsId | src/bin/part1.rs:64-66 | a possible game adds its number, wherever it stands |
| PartOne.PossibleIdSumBound | src/bin/part1.rs:64-66 | the sum is at most the sum of all numbers, and equals it exactly when every game with a positive number is possible |
| PartOne.TotalOkIff | src/bin/part1.rs:60-66 | the run succeeds exactly when every line parses |
| PartOne.TotalFirstError | src/bin/part1.rs:63 | a failing run fails with the error of its first bad line |
| PartOne.TotalOfAppend | src/bin/part1.rs:63-66 | over parsed results in two runs, the answer is the sum of the two answers, or the first failure |
| PartOne.TotalAppend | src/bin/part1.rs:60-66 | over two runs of lines in a row, the answer is the sum of the two answers, or the first failure |
| PartOne.TotalOfSingle | src/bin/part1.rs:63-66 | one parsed result answers its game's number if the game is possible, 0 if not, or its error |
| PartOne.TotalSingle | src/bin/part1.rs:60-66 | a one-line input answers that game's number if it is possible, 0 if not, or the line's parse error |
| PartTwo.MaxCombo | src/bin/part2.rs:63-67 | the reduce step is the least combo that both draws fit into |
| PartTwo.Minimum | src/bin/part2.rs:60-68 | every draw fits into the reduced combo, and each of its colours is that colour's count in some draw |
| PartTwo.GamePower | src/bin/part2.rs:59-71 | it fails exactly when the game has no draws, and then with `EmptyGame` |
| PartTwo.MinimumIsLeast | src/bin/part2.rs:60-68 | the reduced combo is the least bag that all the draws fit into |
| PartTwo.LeastBagUnique | src/bin/part2.rs:60-68 | there is only one least bag |
| PartTwo.MinimumIff | src/bin/part2.rs:60-68 | a combo is the least bag exactly when it is the reduced combo |
| PartTwo.MinimumFits | src/bin/part2.rs:60-68 | all draws fit into a bag exactly when the reduced combo does |
| PartTwo.SameDrawsEmpty | src/bin/part2.rs:60-68 | two lists with the same elements are empty together, so `reduce` fails on both or on neither |
| PartTwo.MinimumOrderFree | src/bin/part2.rs:60-68 | lists with the same elements, whatever their order and repetition, have the same reduced combo |
| PartTwo.Power | src/bin/part2.rs:70 | `red * green * blue`; `PowerMono` states that it grows with each count |
| PartTwo.PowerMono | src/bin/part2.rs:70 | a smaller combo has no larger product |
| PartTwo.PowerIsLeast | src/bin/part2.rs:59-71 | the power is at most the product of any bag that all the draws fit into |
| PartTwo.PowerAttained | src/bin/part2.rs:59-71 | the power is the product of a bag that all the draws fit into |
| PartTwo.PowerSingleDraw | src/bin/part2.rs:59-71 | a game of one draw has power red × green × blue |
| PartTwo.PowerOrderFree | src/bin/part2.rs:59-71 | games with the same draws, whatever their order and repetition, have the same power |
| PartTwo.ParsedHasPower | src/bin/part2.rs:76-77 | every parsed game has a power, so the second `unwrap` never fails after the first succeeds |
| PartTwo.PossibleIffMinimumFits | src/bin/part1.rs:64 | a game is possible exactly when its reduced combo fits the bag |
| PartTwo.LinePower | src/bin/part2.rs:76-77 | `game_power(parse_game(line).unwrap()).unwrap()` for one line; `LinePowerOkIff` states when it fails, and `PowerOf` what it gives |
| PartTwo.Sum | src/bin/part2.rs:78 | the `sum` of the powers; `SumAppend` states that it splits over runs |
| PartTwo.PowerTotalOf | src/bin/part2.rs:77-78 | the answer for the lines' powers; `PowerTotalOfOk` and `PowerTotalOfAppend` state its meaning |
| PartTwo.PowerTotal | src/bin/part2.rs:73-82 | the run over a list of lines; `PowerTotalOkIff`, `PowerTotalFirstError`, `PowerTotalAppend` and `PowerTotalSingle` state its meaning |
| PartTwo.LinePowerOkIff | src/bin/part2.rs:76-77 | a line has a power exactly when it parses, and never fails with `EmptyGame` |
| PartTwo.SumAppend | src/bin/part2.rs:78 | the sum over two runs is the sum of the two sums |
| PartTwo.PowerTotalOfOk | src/bin/part2.rs:77-78 | results that all succeed answer the sum of their values |
| PartTwo.PowerTotalOfAppendOk | src/bin/part2.rs:77-78 | two successful runs answer the sum of their sums |
| PartTwo.PowerTotalOfAppendErr | src/bin/part2.rs:77-78 | when one of two runs fails, the answer is the first failure |
| PartTwo.PowerTotalOfAppend | src/bin/part2.rs:77-78 | over results in two runs, the answer is the sum of the two answers, or the first failure |
| PartTwo.LinePowersAppend | src/bin/part2.rs:76-77 | the powers of two runs of lines in a row are the two runs of powers in a row |
| PartTwo.PowerTotalAppend | src/bin/part2.rs:73-82 | over two runs of lines in a row, the answer is the sum of the two answers, or the first failure |
| PartTwo.PowerTotalSingle | src/bin/part2.rs:73-82 | a one-line input answers that line's power, or its error |
| PartTwo.PowerTotalOkIff | src/bin/part2.rs:73-82 | the run succeeds exactly when every line parses |
| PartTwo.PowerTotalFirstError | src/bin/part2.rs:76 | a failing run fails with the error of its first bad line |
| Samples.PowerOf | src/bin/part2.rs:89-93 | a line parsing to a game with the given reduced combo has that combo's product as its power |
| Samples.Sample1Text | src/bin/part2.rs:90 | the first test line is the formatted line of game 1 and its draws |
| Samples.Sample1Parses | src/bin/part2.rs:90 | the first test line parses to game 1 with draws (4,0,3), (1,2,6), (0,2,0) |
| Samples.Sample1Power | src/bin/part2.rs:88-95 | the first test line has power 48 |
| Samples.Sample1Possible | src/bin/part1.rs:64 | game 1 is possible |
| Samples.Sample2Text | src/bin/part2.rs:99 | the second test line is the formatted line of game 2 and its draws |
| Samples.Sample2Parses | src/bin/part2.rs:99 | the second test line parses to game 2 with draws (0,2,1), (1,3,4), (0,1,1) |
| Samples.Sample2Power | src/bin/part2.rs:96-105 | the second test line has power 12 |
| Samples.Sample2Possible | src/bin/part1.rs:64 | game 2 is possible |
| Samples.Sample3Text | src/bin/part2.rs:109 | the third test line is the formatted line of game 3 and its draws |
| Samples.Sample3Parses | src/bin/part2.rs:109 | the third test line parses to game 3 with draws (20,8,6), (4,13,5), (1,5,0) |
| Samples.Sample3Power | src/bin/part2.rs:106-115 | the third test line has power 1560 |
| Samples.Sample3Impossible | src/bin/part1.rs:64 | game 3 is impossible, with 20 red cubes in one draw |
| Samples.Sample4Text | src/bin/part2.rs:119 | the fourth test line is the formatted line of game 4 and its draws |
| Samples.Sample4Parses | src/bin/part2.rs:119 | the fourth test line parses to game 4 with draws (3,1,6), (6,3,0), (14,3,15) |
| Samples.Sample4Power | src/bin/part2.rs:116-125 | the fourth test line has power 630 |
| Samples.Sample4Impossible | src/bin/part1.rs:64 | game 4 is impossible, with 14 red and 15 blue cubes in one draw |
| Samples.Sample5Text | src/bin/part2.rs:128 | the fifth test line is the formatted line of game 5 and its draws |
| Samples.Sample5Parses | src/bin/part2.rs:128 | the fifth test line parses to game 5 with draws (6,3,1), (1,2,2) |
| Samples.Sample5Power | src/bin/part2.rs:126-133 | the fifth test line has power 36 |
| Samples.Sample5Possible | src/bin/part1.rs:64 | game 5 is possible |
| Samples.Sample1Alone | src/bin/part2.rs:90 | the first test line alone answers 1 in part 1 and 48 in part 2 |
| Samples.Sample2Alone | src/bin/part2.rs:99 | the second test line alone answers 2 in part 1 and 12 in part 2 |
| Samples.Sample3Alone | src/bin/part2.rs:109 | the third test line alone answers 0 in part 1 and 1560 in part 2 |
| Samples.Sample4Alone | src/bin/part2.rs:119 | the fourth test line alone answers 0 in part 1 and 630 in part 2 |
| Samples.Sample5Alone | src/bin/part2.rs:128 | the fifth test line alone answers 5 in part 1 and 36 in part 2 |
| Samples.TotalSplits | src/bin/part1.rs:60-66 | part 1's answer for any two runs of lines in a row is the sum of their answers, or the first failure |
| Samples.PowerTotalSplits | src/bin/part2.rs:73-82 | part 2's answer for any two runs of lines in a row is the sum of their answers, or the first failure |
| Samples.FiveLines | src/bin/part2.rs:73-82 | for an answer that splits over runs in a row, five lines answer the sum of their one-line answers |
| Samples.SampleTotal | src/bin/part1.rs:60-66 | the five test lines as one input answer 8 in part 1, from games 1, 2 and 5 |
| Samples.SampleTotalPower | src/bin/part2.rs:73-82 | the five test lines as one input answer 48 + 12 + 1560 + 630 + 36 = 2286 in part 2 |

The two binaries hold the same text for the structs `Game` and `ColorCombo`, for
`parse_set` and for `parse_game` (src/bin/part1.rs:13-21 and 27-58, src/bin/part2.rs:14-57).
The only difference is the `#[allow(dead_code)]` on `Game.id` in src/bin/part2.rs. `Games`
models that text once, and the rows above cite the src/bin/part2.rs copy.

Notes on what the code accepts:

- A count may carry a leading `+` (`"+3 red"`), because `usize::from_str` accepts one.
- Every line is parsed, the empty line included. An empty line does not match the line
  pattern, so it fails the run.

## Left out

- Reading `input.txt`, `BufRead::lines` and its `unwrap`, and `println!`. The run is a
  function, `Total` or `PowerTotal`, of the list of lines.
- The `regex` and `lazy_static` crates. `MatchLine` covers only the pattern
  `^Game (\d+): (.+)$`, with ASCII digits.
  - In Rust `\d` also matches non-ASCII decimal digits. The model fails such a line with
    `LineFormat`.
  - Rust fails it too, but differently. It collects the segments with an `unwrap`
    (src/bin/part2.rs:51) before it reads the id (src/bin/part2.rs:54). So a line with a
    bad segment fails with that segment's error. Only a line whose segments all parse fails
    with a number error, when `usize::from_str` rejects the id.
- Strings.ParseUnsigned: the `usize` range is not modelled. A count above `usize::MAX` fails
  in Rust but parses here.
- Games.ParseGame: the id is read as an unbounded number (`DecimalValue`). An id above
  `usize::MAX` fails in Rust but parses here.
- PartOne.TotalOf, PartTwo.PowerTotalOf, Games.AddRecord and PartTwo.Power: `usize`
  overflow is not modelled. In Rust, `+=`, `sum` and the product overflow (a panic in debug
  builds, wrap-around in release builds). Here they are unbounded.
- Panics and `Err` values are not told apart, and the `anyhow` context messages are not
  modelled. Failing on `unwrap` and failing through `?` are both `Err` with the same error
  kind.
- In part 1 the `filter` and `sum` are lazy: lines after the first failure are never read.
  In the model, `Total` gives the first failure, so the result is the same.
- `Game.id` is unused in part 2 (`#[allow(dead_code)]`). It is still parsed, as in the code.
