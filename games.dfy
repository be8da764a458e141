/**
  The data model and the line parser shared by both binaries
  (src/bin/part1.rs and src/bin/part2.rs hold the same text for
  `ColorCombo`, `Game`, `parse_set` and `parse_game`).

  A line `Game <id>: <segment>; <segment>; ...` describes one game; each
  segment `<count> <colour>, <count> <colour>, ...` describes one draw.
 */
module Games {
  import opened Strings

  datatype Colour = Red | Green | Blue

  /** The cubes of each colour shown in one draw (a `ColorCombo`). */
  datatype ColorCombo = ColorCombo(red: nat, green: nat, blue: nat)

  /** One parsed line: its number and its draws in the order of the line. */
  datatype Game = Game(id: nat, sets: seq<ColorCombo>)

  /** The ways parsing or reducing can fail; `?` errors and `unwrap` panics
      are both failures here, and the context messages are dropped. */
  datatype ErrorKind =
    | LineFormat      // the line does not match `^Game (\d+): (.+)$`
    | SegmentFormat   // a colour record has no space
    | NumberFormat    // a count is not an unsigned integer
    | UnknownColour   // a colour other than red, green or blue
    | EmptyGame       // a game without draws has no power

  datatype Result<T> = Ok(value: T) | Err(error: ErrorKind)

  /** One `<count> <colour>` record of a segment. */
  datatype Record = Record(count: nat, colour: Colour)

  function Get(c: ColorCombo, colour: Colour): nat
  {
    match colour
    case Red => c.red
    case Green => c.green
    case Blue => c.blue
  }

  /** Every colour of `c` is within the same colour of `bag`. */
  predicate Fits(c: ColorCombo, bag: ColorCombo)
  {
    c.red <= bag.red && c.green <= bag.green && c.blue <= bag.blue
  }

  function ColourName(colour: Colour): string
  {
    match colour
    case Red => "red"
    case Green => "green"
    case Blue => "blue"
  }

  /** The colour a name stands for: only the three exact, lower-case names. */
  function ColourNamed(name: string): (r: Option<Colour>)
    ensures r.Some? ==> ColourName(r.value) == name
    ensures r.None? ==> forall colour :: ColourName(colour) != name
  {
    if name == "red" then Some(Red)
    else if name == "green" then Some(Green)
    else if name == "blue" then Some(Blue)
    else None
  }

  /** `c` with the record's count added to the record's colour. */
  function AddRecord(c: ColorCombo, rec: Record): (r: ColorCombo)
    ensures forall colour :: Get(r, colour) == Get(c, colour) + (if colour == rec.colour then rec.count else 0)
  {
    match rec.colour
    case Red => c.(red := c.red + rec.count)
    case Green => c.(green := c.green + rec.count)
    case Blue => c.(blue := c.blue + rec.count)
  }

  // ---------------------------------------------------------------------
  // parse_set

  /** One record of `parse_set`'s loop body: split at the first space, parse
      the count, then match the colour name; the first check that fails
      decides the error. */
  function ParseRecord(s: string): Result<Record>
  {
    match SplitOnce(s, " ")
    case None => Err(SegmentFormat)
    case Some((num, name)) =>
      match ParseUnsigned(num)
      case None => Err(NumberFormat)
      case Some(n) =>
        match ColourNamed(name)
        case None => Err(UnknownColour)
        case Some(colour) => Ok(Record(n, colour))
  }

  /** The results taken in order: all their values, or the error of the
      first one that failed. This is what `?` and `unwrap` inside an
      iteration amount to: the first failure stops everything. */
  function AllOk<T>(rs: seq<Result<T>>): (r: Result<seq<T>>)
    ensures r.Ok? ==> |r.value| == |rs|
    ensures r.Ok? ==> forall i :: 0 <= i < |rs| ==> rs[i] == Ok(r.value[i])
    decreases |rs|
  {
    if rs == [] then Ok([])
    else
      var n := |rs| - 1;
      match AllOk(rs[..n])
      case Err(e) => Err(e)
      case Ok(vs) =>
        match rs[n]
        case Err(e) => Err(e)
        case Ok(v) => Ok(vs + [v])
  }

  /** The results all succeed exactly when each one does. */
  lemma {:induction false} AllOkIff<T>(rs: seq<Result<T>>)
    ensures AllOk(rs).Ok? <==> forall i :: 0 <= i < |rs| ==> rs[i].Ok?
    decreases |rs|
  {
    if rs != [] {
      var n := |rs| - 1;
      AllOkIff(rs[..n]);
      assert forall i :: 0 <= i < n ==> rs[..n][i] == rs[i];
    }
  }

  /** A failure is the failure of the first result that failed. */
  lemma {:induction false} AllOkFirstError<T>(rs: seq<Result<T>>, k: nat)
    requires k < |rs|
    requires forall i :: 0 <= i < k ==> rs[i].Ok?
    requires rs[k].Err?
    ensures AllOk(rs) == Err(rs[k].error)
    decreases |rs|
  {
    var n := |rs| - 1;
    assert forall i :: 0 <= i < n ==> rs[..n][i] == rs[i];
    if k == n {
      AllOkIff(rs[..n]);
    } else {
      AllOkFirstError(rs[..n], k);
    }
  }

  /** A failure is the failure of one of the results. */
  lemma {:induction false} AllOkErrorIsOne<T>(rs: seq<Result<T>>)
    requires AllOk(rs).Err?
    ensures exists i :: 0 <= i < |rs| && rs[i] == Err(AllOk(rs).error)
    decreases |rs|
  {
    var n := |rs| - 1;
    if AllOk(rs[..n]).Err? {
      AllOkErrorIsOne(rs[..n]);
      var i :| 0 <= i < n && rs[..n][i] == Err(AllOk(rs[..n]).error);
      assert rs[i] == rs[..n][i];
    } else {
      assert rs[n] == Err(AllOk(rs).error);
    }
  }

  /** Results that are all known to succeed yield exactly their values. */
  lemma AllOkValues<T>(rs: seq<Result<T>>, vs: seq<T>)
    requires |rs| == |vs| && forall i :: 0 <= i < |rs| ==> rs[i] == Ok(vs[i])
    ensures AllOk(rs) == Ok(vs)
  {
    assert forall i :: 0 <= i < |rs| ==> rs[i].Ok?;
    AllOkIff(rs);
    var ws := AllOk(rs).value;
    assert forall i :: 0 <= i < |rs| ==> ws[i] == vs[i];
    assert ws == vs;
  }

  /** Running over two lists in a row: both values, or the first failure. */
  lemma {:induction false} AllOkAppend<T>(a: seq<Result<T>>, b: seq<Result<T>>)
    ensures AllOk(a + b) ==
      match AllOk(a)
      case Err(e) => Err(e)
      case Ok(va) =>
        match AllOk(b)
        case Err(e) => Err(e)
        case Ok(vb) => Ok(va + vb)
    decreases |b|
  {
    if b == [] {
      assert a + b == a;
      assert AllOk(b) == Ok([]);
      assert AllOk(a).Ok? ==> AllOk(a).value + [] == AllOk(a).value;
    } else {
      var n := |b| - 1;
      AllOkAppend(a, b[..n]);
      assert (a + b)[..|a + b| - 1] == a + b[..n];
      assert (a + b)[|a + b| - 1] == b[n];
      var ab := a + b;
      assert ab[..|ab| - 1] == a + b[..n];
      if AllOk(a).Err? {
        assert AllOk(ab[..|ab| - 1]).Err?;
      } else if AllOk(b[..n]).Err? {
        assert AllOk(ab[..|ab| - 1]).Err?;
      } else if b[n].Ok? {
        var va, vb := AllOk(a).value, AllOk(b[..n]).value;
        assert AllOk(ab[..|ab| - 1]) == Ok(va + vb);
        assert va + (vb + [b[n].value]) == (va + vb) + [b[n].value];
      }
    }
  }

  /** Both runs succeed: the values of the joined run are the two runs' values. */
  lemma AllOkAppendOk<T>(a: seq<Result<T>>, b: seq<Result<T>>)
    requires AllOk(a).Ok? && AllOk(b).Ok?
    ensures AllOk(a + b) == Ok(AllOk(a).value + AllOk(b).value)
  {
    AllOkAppend(a, b);
  }

  /** A run fails: the joined run fails with the first run's failure if there
      is one, else with the second's. */
  lemma AllOkAppendErr<T>(a: seq<Result<T>>, b: seq<Result<T>>)
    requires AllOk(a).Err? || AllOk(b).Err?
    ensures AllOk(a + b).Err?
    ensures AllOk(a + b).error == if AllOk(a).Err? then AllOk(a).error else AllOk(b).error
  {
    AllOkAppend(a, b);
  }

  /** The combo a list of records adds up to. */
  function Combine(recs: seq<Record>): ColorCombo
    decreases |recs|
  {
    if recs == [] then ColorCombo(0, 0, 0)
    else AddRecord(Combine(recs[..|recs| - 1]), recs[|recs| - 1])
  }

  /** One result per record string, in order. */
  function ParseRecords(records: seq<string>): (r: seq<Result<Record>>)
    ensures |r| == |records| && forall i :: 0 <= i < |records| ==> r[i] == ParseRecord(records[i])
  {
    seq(|records|, i requires 0 <= i < |records| => ParseRecord(records[i]))
  }

  /** The records taken in order, adding each count to its colour and
      stopping at the first record that fails. */
  function Tally(records: seq<string>): Result<ColorCombo>
  {
    match AllOk(ParseRecords(records))
    case Err(e) => Err(e)
    case Ok(recs) => Ok(Combine(recs))
  }

  /** What `parse_set` computes for one segment. */
  function SetValue(segment: string): Result<ColorCombo>
  {
    Tally(Split(segment, ", "))
  }

  /** `rec` is what the record text `s` parses to, stated step by step: it
      splits at a space into a count and a colour name. */
  predicate ParsesTo(s: string, rec: Record)
  {
    var halves := SplitOnce(s, " ");
    && halves.Some?
    && ParseUnsigned(halves.value.0) == Some(rec.count)
    && ColourNamed(halves.value.1) == Some(rec.colour)
  }

  /** A record parses to `rec` exactly when its two halves read as `rec`'s
      count and colour. */
  lemma ParseRecordOk(s: string, rec: Record)
    ensures ParseRecord(s) == Ok(rec) <==> ParsesTo(s, rec)
  {
  }

  /** The first `|recs|` record texts parse to `recs`, one for one. */
  predicate PrefixParsed(records: seq<string>, recs: seq<Record>)
  {
    |recs| <= |records| && forall j :: 0 <= j < |recs| ==> ParsesTo(records[j], recs[j])
  }

  lemma PrefixParsedSnoc(records: seq<string>, recs: seq<Record>, rec: Record)
    requires PrefixParsed(records, recs) && |recs| < |records| && ParsesTo(records[|recs|], rec)
    ensures PrefixParsed(records, recs + [rec])
  {
    var recs' := recs + [rec];
    forall j | 0 <= j < |recs'|
      ensures ParsesTo(records[j], recs'[j])
    {
      if j < |recs| {
        assert recs'[j] == recs[j];
      }
    }
  }

  /** Adding one more record to the list adds it to the combo. */
  lemma CombineSnoc(recs: seq<Record>, rec: Record)
    ensures Combine(recs + [rec]) == AddRecord(Combine(recs), rec)
  {
    assert (recs + [rec])[..|recs|] == recs;
  }

  /** When every record parses, the tally is the combo of all of them. */
  lemma TallyAllParsed(records: seq<string>, recs: seq<Record>)
    requires |recs| == |records| && PrefixParsed(records, recs)
    ensures Tally(records) == Ok(Combine(recs))
  {
    forall j | 0 <= j < |records|
      ensures ParseRecord(records[j]) == Ok(recs[j])
    {
      ParseRecordOk(records[j], recs[j]);
    }
    AllOkValues(ParseRecords(records), recs);
  }

  /** When the records before `k` parse and record `k` fails, the tally
      fails with record `k`'s error. */
  lemma TallyFailsAt(records: seq<string>, recs: seq<Record>, e: ErrorKind)
    requires |recs| < |records| && PrefixParsed(records, recs)
    requires ParseRecord(records[|recs|]) == Err(e)
    ensures Tally(records) == Err(e)
  {
    forall j | 0 <= j < |recs|
      ensures ParseRecord(records[j]).Ok?
    {
      ParseRecordOk(records[j], recs[j]);
    }
    TallyFirstError(records, |recs|);
  }

  /** `parse_set`: three mutable totals updated record by record, returning
      early on the first bad record. `ghost` `recs` holds the records read so
      far. */
  method ParseSet(segment: string) returns (r: Result<ColorCombo>)
    ensures r == SetValue(segment)
  {
    var red: nat, green: nat, blue: nat := 0, 0, 0;
    var records := Split(segment, ", ");
    ghost var recs: seq<Record> := [];
    for i := 0 to |records|
      invariant |recs| == i && PrefixParsed(records, recs)
      invariant Combine(recs) == ColorCombo(red, green, blue)
    {
      var halves := SplitOnce(records[i], " ");
      if halves.None? {
        TallyFailsAt(records, recs, SegmentFormat);
        return Err(SegmentFormat);
      }
      var (num, colour) := halves.value;
      var n := ParseUnsigned(num);
      if n.None? {
        TallyFailsAt(records, recs, NumberFormat);
        return Err(NumberFormat);
      }
      var c := ColourNamed(colour);
      if c.None? {
        TallyFailsAt(records, recs, UnknownColour);
        return Err(UnknownColour);
      }
      ghost var rec := Record(n.value, c.value);
      PrefixParsedSnoc(records, recs, rec);
      match c.value {
        case Red => red := red + n.value;
        case Green => green := green + n.value;
        case Blue => blue := blue + n.value;
      }
      CombineSnoc(recs, rec);
      recs := recs + [rec];
    }
    TallyAllParsed(records, recs);
    return Ok(ColorCombo(red, green, blue));
  }

  /** A segment's records all succeed, or the tally fails. */
  lemma TallyOkIff(records: seq<string>)
    ensures Tally(records).Ok? <==> forall i :: 0 <= i < |records| ==> ParseRecord(records[i]).Ok?
  {
    AllOkIff(ParseRecords(records));
  }

  /** The error of a failing tally is that of its first bad record. */
  lemma TallyFirstError(records: seq<string>, k: nat)
    requires k < |records|
    requires forall i :: 0 <= i < k ==> ParseRecord(records[i]).Ok?
    requires ParseRecord(records[k]).Err?
    ensures Tally(records) == Err(ParseRecord(records[k]).error)
  {
    AllOkFirstError(ParseRecords(records), k);
  }

  /** A segment fails only for a bad record: no space, a bad count or an
      unknown colour. */
  lemma TallyErrorKinds(records: seq<string>)
    requires Tally(records).Err?
    ensures Tally(records).error in {SegmentFormat, NumberFormat, UnknownColour}
  {
    var rs := ParseRecords(records);
    AllOkErrorIsOne(rs);
    var i :| 0 <= i < |rs| && rs[i] == Err(AllOk(rs).error);
    assert ParseRecord(records[i]).Err?;
  }

  /** The sum of the counts of the records in `recs` that name `colour`. */
  function Named(recs: seq<Record>, colour: Colour): nat
    decreases |recs|
  {
    if recs == [] then 0
    else
      var last := recs[|recs| - 1];
      Named(recs[..|recs| - 1], colour) + (if last.colour == colour then last.count else 0)
  }

  /** The records add up colour by colour. */
  lemma {:induction false} CombineCounts(recs: seq<Record>, colour: Colour)
    ensures Get(Combine(recs), colour) == Named(recs, colour)
    decreases |recs|
  {
    if recs != [] {
      CombineCounts(recs[..|recs| - 1], colour);
    }
  }

  /** Repeated colours add: the count over two runs of records is the sum. */
  lemma {:induction false} NamedAppend(a: seq<Record>, b: seq<Record>, colour: Colour)
    ensures Named(a + b, colour) == Named(a, colour) + Named(b, colour)
    decreases |b|
  {
    if b == [] {
      assert a + b == a;
    } else {
      var n := |b| - 1;
      NamedAppend(a, b[..n], colour);
      assert (a + b)[..|a + b| - 1] == a + b[..n];
    }
  }

  /** A colour no record names totals 0. */
  lemma {:induction false} NamedAbsent(recs: seq<Record>, colour: Colour)
    requires forall i :: 0 <= i < |recs| ==> recs[i].colour != colour
    ensures Named(recs, colour) == 0
    decreases |recs|
  {
    if recs != [] {
      NamedAbsent(recs[..|recs| - 1], colour);
    }
  }

  /** On success, the segment's records parse to `recs` one for one, and each
      colour's total is the sum of the counts of the records naming it. */
  lemma TallyCounts(records: seq<string>)
    requires Tally(records).Ok?
    ensures var recs := AllOk(ParseRecords(records)).value;
      && |recs| == |records|
      && (forall i :: 0 <= i < |records| ==> ParseRecord(records[i]) == Ok(recs[i]))
      && forall colour :: Get(Tally(records).value, colour) == Named(recs, colour)
  {
    var recs := AllOk(ParseRecords(records)).value;
    forall colour ensures Get(Combine(recs), colour) == Named(recs, colour) {
      CombineCounts(recs, colour);
    }
  }

  // ---------------------------------------------------------------------
  // parse_game

  /** One result per segment, in order. */
  function SetValues(segments: seq<string>): (r: seq<Result<ColorCombo>>)
    ensures |r| == |segments| && forall i :: 0 <= i < |segments| ==> r[i] == SetValue(segments[i])
  {
    seq(|segments|, i requires 0 <= i < |segments| => SetValue(segments[i]))
  }

  /** The draws of a line's segments in order, stopping at the first segment
      that fails (`map(|x| parse_set(x).unwrap()).collect()`). */
  function ParseSets(segments: seq<string>): Result<seq<ColorCombo>>
  {
    AllOk(SetValues(segments))
  }

  /** The segments all parse exactly when each one does, and then give one
      draw per segment, in order. */
  lemma ParseSetsMeaning(segments: seq<string>)
    ensures ParseSets(segments).Ok? <==> forall i :: 0 <= i < |segments| ==> SetValue(segments[i]).Ok?
    ensures ParseSets(segments).Ok? ==>
      && |ParseSets(segments).value| == |segments|
      && forall i :: 0 <= i < |segments| ==> SetValue(segments[i]) == Ok(ParseSets(segments).value[i])
  {
    AllOkIff(SetValues(segments));
  }

  /** `parse_game`: match the line, parse every `"; "` segment, then read the id. */
  function ParseGame(line: string): (r: Result<Game>)
    ensures r.Ok? ==> |r.value.sets| >= 1
    ensures MatchLine(line).None? ==> r == Err(LineFormat)
  {
    var m := MatchLine(line);
    if m.None? then Err(LineFormat)
    else
      match ParseSets(Split(m.value.1, "; "))
      case Err(e) => Err(e)
      case Ok(sets) => Ok(Game(DecimalValue(m.value.0), sets))
  }

  /** A line parses exactly when it matches and all its segments parse; it then
      carries the matched number and one draw per segment, in order. */
  lemma ParseGameMeaning(line: string, ds: string, rest: string)
    requires MatchLine(line) == Some((ds, rest))
    ensures ParseGame(line).Ok? <==>
      forall i :: 0 <= i < |Split(rest, "; ")| ==> SetValue(Split(rest, "; ")[i]).Ok?
    ensures ParseGame(line).Ok? ==>
      && ParseGame(line).value.id == DecimalValue(ds)
      && |ParseGame(line).value.sets| == |Split(rest, "; ")|
      && forall i :: 0 <= i < |Split(rest, "; ")| ==>
           SetValue(Split(rest, "; ")[i]) == Ok(ParseGame(line).value.sets[i])
  {
    ParseSetsMeaning(Split(rest, "; "));
    assert ParseGame(line).Ok? <==> ParseSets(Split(rest, "; ")).Ok?;
    assert ParseSets(Split(rest, "; ")).Ok? ==>
      ParseGame(line) == Ok(Game(DecimalValue(ds), ParseSets(Split(rest, "; ")).value));
  }

  /** A line fails to parse for a bad shape or a bad record, never for an
      empty game. */
  lemma ParseGameErrorKinds(line: string)
    requires ParseGame(line).Err?
    ensures ParseGame(line).error in {LineFormat, SegmentFormat, NumberFormat, UnknownColour}
  {
    var m := MatchLine(line);
    if m.Some? {
      var rs := SetValues(Split(m.value.1, "; "));
      AllOkErrorIsOne(rs);
      var i :| 0 <= i < |rs| && rs[i] == Err(AllOk(rs).error);
      TallyErrorKinds(Split(Split(m.value.1, "; ")[i], ", "));
    }
  }

  /** A line that matches, with segments that parse to `sets`, is the game of
      the matched number and `sets`. */
  lemma ParseGameOf(line: string, ds: string, rest: string, sets: seq<ColorCombo>)
    requires MatchLine(line) == Some((ds, rest))
    requires ParseSets(Split(rest, "; ")) == Ok(sets)
    ensures ParseGame(line) == Ok(Game(DecimalValue(ds), sets))
  {
  }

  /** A bad segment fails the whole line with that segment's error. */
  lemma ParseGameSegmentError(line: string, ds: string, rest: string, k: nat)
    requires MatchLine(line) == Some((ds, rest))
    requires k < |Split(rest, "; ")|
    requires forall i :: 0 <= i < k ==> SetValue(Split(rest, "; ")[i]).Ok?
    requires SetValue(Split(rest, "; ")[k]).Err?
    ensures ParseGame(line) == Err(SetValue(Split(rest, "; ")[k]).error)
  {
    AllOkFirstError(SetValues(Split(rest, "; ")), k);
  }

  /** One result per input line, in order (`lines().map(parse_game)`). */
  function ParseGames(lines: seq<string>): (r: seq<Result<Game>>)
    ensures |r| == |lines| && forall i :: 0 <= i < |lines| ==> r[i] == ParseGame(lines[i])
  {
    seq(|lines|, i requires 0 <= i < |lines| => ParseGame(lines[i]))
  }

  /** Results computed element by element split like their inputs; `f`
      stays uninterpreted, so no parse is unfolded. */
  lemma MapAppend<A, B>(f: A -> B, a: seq<A>, b: seq<A>, ra: seq<B>, rb: seq<B>, rab: seq<B>)
    requires |ra| == |a| && forall i :: 0 <= i < |a| ==> ra[i] == f(a[i])
    requires |rb| == |b| && forall i :: 0 <= i < |b| ==> rb[i] == f(b[i])
    requires |rab| == |a + b| && forall i :: 0 <= i < |a + b| ==> rab[i] == f((a + b)[i])
    ensures rab == ra + rb
  {
    forall i | 0 <= i < |a| + |b| ensures rab[i] == (ra + rb)[i] {
      if i < |a| {
        assert (a + b)[i] == a[i];
      } else {
        assert (a + b)[i] == b[i - |a|];
      }
    }
  }

  lemma ParseGamesAppend(a: seq<string>, b: seq<string>)
    ensures ParseGames(a + b) == ParseGames(a) + ParseGames(b)
  {
    MapAppend(ParseGame, a, b, ParseGames(a), ParseGames(b), ParseGames(a + b));
  }

  /** Two answers combined: the first failure, or the sum. */
  function AddTotals(x: Result<nat>, y: Result<nat>): Result<nat>
  {
    match x
    case Err(e) => Err(e)
    case Ok(m) =>
      match y
      case Err(e) => Err(e)
      case Ok(n) => Ok(m + n)
  }

  // ---------------------------------------------------------------------
  // Writing lines back: the inverse of the parser

  function FormatRecord(rec: Record): string
  {
    NatToString(rec.count) + " " + ColourName(rec.colour)
  }

  function FormatRecords(recs: seq<Record>): (r: seq<string>)
    ensures |r| == |recs| && forall i :: 0 <= i < |recs| ==> r[i] == FormatRecord(recs[i])
  {
    seq(|recs|, i requires 0 <= i < |recs| => FormatRecord(recs[i]))
  }

  /** A draw written as `<count> <colour>, ...`. */
  function FormatDraw(recs: seq<Record>): string
  {
    Join(FormatRecords(recs), ", ")
  }

  /** Each draw written out, in order. */
  function FormatDraws(draws: seq<seq<Record>>): (r: seq<string>)
    ensures |r| == |draws| && forall i :: 0 <= i < |draws| ==> r[i] == FormatDraw(draws[i])
  {
    seq(|draws|, i requires 0 <= i < |draws| => FormatDraw(draws[i]))
  }

  /** A line written as `Game <id>: <draw>; <draw>; ...`. */
  function FormatLine(id: nat, draws: seq<seq<Record>>): string
  {
    "Game " + NatToString(id) + ": " + Join(FormatDraws(draws), "; ")
  }

  /** The combo of each draw, in order. */
  function CombineAll(draws: seq<seq<Record>>): (r: seq<ColorCombo>)
    ensures |r| == |draws| && forall i :: 0 <= i < |draws| ==> r[i] == Combine(draws[i])
  {
    seq(|draws|, i requires 0 <= i < |draws| => Combine(draws[i]))
  }

  /** A written record parses back to itself. */
  lemma ParseRecordRoundTrip(rec: Record)
    ensures ParseRecord(FormatRecord(rec)) == Ok(rec)
  {
    var num := NatToString(rec.count);
    DigitsAvoid(num, " ");
    SplitOnceAt(num, " ", ColourName(rec.colour));
    ParseUnsignedRoundTrip(rec.count);
  }

  lemma TallyRoundTrip(recs: seq<Record>)
    ensures Tally(FormatRecords(recs)) == Ok(Combine(recs))
  {
    var rs := ParseRecords(FormatRecords(recs));
    forall i | 0 <= i < |recs| ensures rs[i] == Ok(recs[i]) {
      ParseRecordRoundTrip(recs[i]);
    }
    AllOkValues(rs, recs);
  }

  /** Characters that a written record never holds. */
  lemma FormatRecordAvoids(rec: Record, c: char)
    requires c == ',' || c == ';' || c == '\n'
    ensures c !in FormatRecord(rec)
  {
    var num := NatToString(rec.count);
    assert forall i :: 0 <= i < |num| ==> num[i] != c;
  }

  lemma FormatDrawAvoids(recs: seq<Record>, c: char)
    requires c == ';' || c == '\n'
    ensures c !in FormatDraw(recs)
  {
    forall i | 0 <= i < |recs| ensures c !in FormatRecords(recs)[i] {
      FormatRecordAvoids(recs[i], c);
    }
    JoinAvoids(FormatRecords(recs), ", ", c);
  }

  /** A written non-empty draw parses back to the sum of its records. */
  lemma SetValueRoundTrip(recs: seq<Record>)
    requires |recs| > 0
    ensures SetValue(FormatDraw(recs)) == Ok(Combine(recs))
  {
    var parts := FormatRecords(recs);
    forall k | 0 <= k < |parts| ensures !Contains(parts[k], ", ") {
      FormatRecordAvoids(recs[k], ',');
      AbsentFirstChar(parts[k], ", ");
    }
    SplitJoin(parts, ", ");
    TallyRoundTrip(recs);
  }

  /** Written non-empty draws parse back, one combo per draw. */
  lemma ParseSetsRoundTrip(draws: seq<seq<Record>>)
    requires forall i :: 0 <= i < |draws| ==> |draws[i]| > 0
    ensures ParseSets(FormatDraws(draws)) == Ok(CombineAll(draws))
  {
    var rs := SetValues(FormatDraws(draws));
    forall i | 0 <= i < |draws| ensures rs[i] == Ok(CombineAll(draws)[i]) {
      SetValueRoundTrip(draws[i]);
    }
    AllOkValues(rs, CombineAll(draws));
  }

  /** The written draws, joined, are a non-empty single-line text that splits
      back into them. */
  lemma JoinedDraws(draws: seq<seq<Record>>)
    requires |draws| > 0 && forall i :: 0 <= i < |draws| ==> |draws[i]| > 0
    ensures var rest := Join(FormatDraws(draws), "; ");
      && |rest| > 0 && '\n' !in rest && Split(rest, "; ") == FormatDraws(draws)
  {
    var segments := FormatDraws(draws);
    forall k | 0 <= k < |segments| ensures !Contains(segments[k], "; ") && '\n' !in segments[k] {
      FormatDrawAvoids(draws[k], ';');
      AbsentFirstChar(segments[k], "; ");
      FormatDrawAvoids(draws[k], '\n');
    }
    JoinAvoids(segments, "; ", '\n');
    SplitJoin(segments, "; ");
    assert |FormatRecords(draws[0])[0]| > 0;
    assert |segments[0]| > 0;
  }

  /** A written line with at least one draw, each with at least one record,
      parses to its number and, in order, the sum of each draw's records. */
  lemma ParseFormattedLine(id: nat, draws: seq<seq<Record>>)
    requires |draws| > 0 && forall i :: 0 <= i < |draws| ==> |draws[i]| > 0
    ensures ParseGame(FormatLine(id, draws)) == Ok(Game(id, CombineAll(draws)))
  {
    var rest := Join(FormatDraws(draws), "; ");
    JoinedDraws(draws);
    MatchLineComplete(NatToString(id), rest);
    ParseSetsRoundTrip(draws);
    DecimalOfNatToString(id);
    ParseGameOf(FormatLine(id, draws), NatToString(id), rest, CombineAll(draws));
  }

  /** A draw written in the order red, green, blue. */
  function Canonical(c: ColorCombo): seq<Record>
  {
    [Record(c.red, Red), Record(c.green, Green), Record(c.blue, Blue)]
  }

  lemma CombineCanonical(c: ColorCombo)
    ensures Combine(Canonical(c)) == c
  {
    var r, g, b := Record(c.red, Red), Record(c.green, Green), Record(c.blue, Blue);
    assert [r][..0] == [];
    assert Combine([r]) == ColorCombo(c.red, 0, 0);
    assert [r, g][..1] == [r];
    assert Combine([r, g]) == ColorCombo(c.red, c.green, 0);
    assert [r, g, b][..2] == [r, g];
  }

  function CanonicalDraws(sets: seq<ColorCombo>): (r: seq<seq<Record>>)
    ensures |r| == |sets| && forall i :: 0 <= i < |sets| ==> r[i] == Canonical(sets[i])
  {
    seq(|sets|, i requires 0 <= i < |sets| => Canonical(sets[i]))
  }

  function FormatGame(g: Game): string
  {
    FormatLine(g.id, CanonicalDraws(g.sets))
  }

  lemma CombineCanonicalDraws(sets: seq<ColorCombo>)
    ensures CombineAll(CanonicalDraws(sets)) == sets
  {
    var draws := CanonicalDraws(sets);
    forall i | 0 <= i < |sets| ensures CombineAll(draws)[i] == sets[i] {
      CombineCanonical(sets[i]);
    }
  }

  /** Every game with at least one draw survives writing and parsing back. */
  lemma ParseGameRoundTrip(g: Game)
    requires |g.sets| > 0
    ensures ParseGame(FormatGame(g)) == Ok(g)
  {
    ParseFormattedLine(g.id, CanonicalDraws(g.sets));
    CombineCanonicalDraws(g.sets);
  }
}
