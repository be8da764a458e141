/**
  The pieces of the Rust standard library and of the `regex` crate that the
  game parser relies on, written out over `string` (= `seq<char>`):
  `str::split`, `str::split_once`, `usize::from_str`, and a hand-written
  matcher for the pattern `^Game (\d+): (.+)$`.
 */
module Strings {

  datatype Option<T> = None | Some(value: T)

  /** `sep` occurs in `s` starting at index `i`. */
  predicate OccursAt(s: string, sep: string, i: nat)
  {
    i + |sep| <= |s| && s[i..i + |sep|] == sep
  }

  predicate Contains(s: string, sep: string)
  {
    exists i: nat :: i <= |s| && OccursAt(s, sep, i)
  }

  /** Leftmost occurrence of `sep` in `s` at or after `from`, as `str::find` does. */
  function FindFrom(s: string, sep: string, from: nat): (r: Option<nat>)
    requires from <= |s|
    ensures r.Some? ==> from <= r.value && OccursAt(s, sep, r.value)
    ensures r.Some? ==> forall j: nat :: from <= j < r.value ==> !OccursAt(s, sep, j)
    ensures r.None? ==> forall j: nat :: from <= j ==> !OccursAt(s, sep, j)
    decreases |s| - from
  {
    if OccursAt(s, sep, from) then Some(from)
    else if from == |s| then None
    else FindFrom(s, sep, from + 1)
  }

  /** `Find` answers nothing exactly when `sep` does not occur. */
  lemma FindNoneIff(s: string, sep: string)
    ensures FindFrom(s, sep, 0).None? <==> !Contains(s, sep)
  {
    if FindFrom(s, sep, 0).Some? {
      assert OccursAt(s, sep, FindFrom(s, sep, 0).value);
    }
  }

  /** A separator that cannot straddle the end of a piece and its own start:
      one character, or two distinct characters (", " and "; " are such). */
  predicate NonOverlapping(sep: string)
  {
    |sep| == 1 || (|sep| == 2 && sep[0] != sep[1])
  }

  /** In `p + sep + rest` with `sep` absent from `p`, the leftmost `sep` is the one after `p`. */
  lemma FindAfterPiece(p: string, sep: string, rest: string)
    requires NonOverlapping(sep) && !Contains(p, sep)
    ensures FindFrom(p + sep + rest, sep, 0) == Some(|p|)
  {
    var s := p + sep + rest;
    assert s[|p|..|p| + |sep|] == sep;
    assert OccursAt(s, sep, |p|);
    forall j: nat | j < |p|
      ensures !OccursAt(s, sep, j)
    {
      if j + |sep| <= |p| {
        assert s[j..j + |sep|] == p[j..j + |sep|];
        assert !OccursAt(p, sep, j);
      } else {
        // only a two-character separator can start at |p| - 1, and then
        // its second character would have to equal its first
        assert |sep| == 2 && j == |p| - 1;
        assert s[j + 1] == sep[0];
      }
    }
  }

  /** `str::split(sep)`: the pieces between the non-overlapping occurrences of
      `sep`, scanning left to right; an input without `sep` is one piece. */
  function Split(s: string, sep: string): (parts: seq<string>)
    requires |sep| > 0
    ensures |parts| >= 1
    decreases |s|
  {
    match FindFrom(s, sep, 0)
    case None => [s]
    case Some(i) => [s[..i]] + Split(s[i + |sep|..], sep)
  }

  /** Concatenation of `parts` with `sep` between neighbours (the inverse of `Split`). */
  function Join(parts: seq<string>, sep: string): string
    decreases |parts|
  {
    if |parts| == 0 then ""
    else if |parts| == 1 then parts[0]
    else parts[0] + sep + Join(parts[1..], sep)
  }

  /** Splitting loses nothing: joining the pieces gives the input back. */
  lemma {:induction false} JoinSplit(s: string, sep: string)
    requires |sep| > 0
    ensures Join(Split(s, sep), sep) == s
    decreases |s|
  {
    var f := FindFrom(s, sep, 0);
    if f.Some? {
      var i := f.value;
      var head, tail := s[..i], s[i + |sep|..];
      var parts := Split(tail, sep);
      JoinSplit(tail, sep);
      assert Split(s, sep) == [head] + parts;
      assert Join([head] + parts, sep) == head + sep + Join(parts, sep) by {
        assert ([head] + parts)[1..] == parts;
      }
      assert s == head + sep + tail by {
        assert s[i..i + |sep|] == sep;
        assert s == s[..i] + s[i..i + |sep|] + s[i + |sep|..];
      }
    }
  }

  /** No piece of a split contains the separator. */
  lemma {:induction false} SplitPiecesFree(s: string, sep: string)
    requires |sep| > 0
    ensures forall k :: 0 <= k < |Split(s, sep)| ==> !Contains(Split(s, sep)[k], sep)
    decreases |s|
  {
    match FindFrom(s, sep, 0)
    case None => FindNoneIff(s, sep);
    case Some(i) =>
      var tail := s[i + |sep|..];
      SplitPiecesFree(tail, sep);
      forall j: nat ensures !OccursAt(s[..i], sep, j) {
        if OccursAt(s[..i], sep, j) {
          assert s[..i][j..j + |sep|] == s[j..j + |sep|];
          assert OccursAt(s, sep, j);
        }
      }
  }

  /** Splitting a join gives the pieces back, when no piece holds the separator. */
  lemma {:induction false} SplitJoin(parts: seq<string>, sep: string)
    requires NonOverlapping(sep) && |parts| >= 1
    requires forall k :: 0 <= k < |parts| ==> !Contains(parts[k], sep)
    ensures Split(Join(parts, sep), sep) == parts
    decreases |parts|
  {
    if |parts| == 1 {
      FindNoneIff(parts[0], sep);
    } else {
      var rest := Join(parts[1..], sep);
      FindAfterPiece(parts[0], sep, rest);
      var s := parts[0] + sep + rest;
      assert s[..|parts[0]|] == parts[0];
      assert s[|parts[0]| + |sep|..] == rest;
      SplitJoin(parts[1..], sep);
      assert parts == [parts[0]] + parts[1..];
    }
  }

  /** `str::split_once(sep)`: the text before and after the first `sep`. */
  function SplitOnce(s: string, sep: string): (r: Option<(string, string)>)
    requires |sep| > 0
    ensures r.None? <==> !Contains(s, sep)
    ensures r.Some? ==> s == r.value.0 + sep + r.value.1 && !Contains(r.value.0, sep)
  {
    FindNoneIff(s, sep);
    match FindFrom(s, sep, 0)
    case None => None
    case Some(i) =>
      assert s == s[..i] + sep + s[i + |sep|..];
      assert forall j: nat :: !OccursAt(s[..i], sep, j) by {
        forall j: nat
          ensures !OccursAt(s[..i], sep, j)
        {
          if j + |sep| <= i {
            assert s[..i][j..j + |sep|] == s[j..j + |sep|];
            assert !OccursAt(s, sep, j);
          }
        }
      }
      Some((s[..i], s[i + |sep|..]))
  }

  /** The split point is the first separator: `a + sep + b` splits into `a` and `b`. */
  lemma SplitOnceAt(a: string, sep: string, b: string)
    requires NonOverlapping(sep) && !Contains(a, sep)
    ensures SplitOnce(a + sep + b, sep) == Some((a, b))
  {
    var s := a + sep + b;
    FindAfterPiece(a, sep, b);
    assert s[..|a|] == a;
    assert s[|a| + |sep|..] == b;
  }

  /** A string lacking the separator's first character does not contain it. */
  lemma AbsentFirstChar(s: string, sep: string)
    requires |sep| > 0 && sep[0] !in s
    ensures !Contains(s, sep)
  {
    forall i: nat
      ensures !OccursAt(s, sep, i)
    {
      if i + |sep| <= |s| {
        assert s[i..i + |sep|][0] == s[i];
        assert s[i] in s;
      }
    }
  }

  /** A character absent from every piece and from `sep` is absent from their join. */
  lemma {:induction false} JoinAvoids(parts: seq<string>, sep: string, c: char)
    requires c !in sep
    requires forall k :: 0 <= k < |parts| ==> c !in parts[k]
    ensures c !in Join(parts, sep)
    decreases |parts|
  {
    if |parts| > 1 {
      JoinAvoids(parts[1..], sep, c);
    }
  }

  // ---------------------------------------------------------------------
  // Unsigned decimal numbers

  predicate IsDigit(c: char)
  {
    '0' <= c <= '9'
  }

  predicate AllDigits(s: string)
  {
    forall i :: 0 <= i < |s| ==> IsDigit(s[i])
  }

  function DigitValue(c: char): nat
    requires IsDigit(c)
  {
    c as int - '0' as int
  }

  function DigitChar(d: nat): (c: char)
    requires d < 10
    ensures IsDigit(c) && DigitValue(c) == d
  {
    ('0' as int + d) as char
  }

  /** The value of a run of decimal digits, most significant first. */
  function DecimalValue(ds: string): nat
    requires AllDigits(ds)
    decreases |ds|
  {
    if ds == [] then 0
    else DecimalValue(ds[..|ds| - 1]) * 10 + DigitValue(ds[|ds| - 1])
  }

  /** `usize::from_str`: an optional `+`, then one or more ASCII digits
      (leading zeros allowed); anything else, the empty string included, fails.
      The `usize` range is not modelled. */
  function ParseUnsigned(s: string): Option<nat>
  {
    var ds := if |s| > 0 && s[0] == '+' then s[1..] else s;
    if |ds| > 0 && AllDigits(ds) then Some(DecimalValue(ds)) else None
  }

  /** The shortest decimal text of `n` (as Rust's `Display` for integers writes it). */
  function NatToString(n: nat): (s: string)
    ensures |s| > 0 && AllDigits(s)
    decreases n
  {
    if n < 10 then [DigitChar(n)]
    else NatToString(n / 10) + [DigitChar(n % 10)]
  }

  lemma {:induction false} DecimalOfNatToString(n: nat)
    ensures DecimalValue(NatToString(n)) == n
    decreases n
  {
    if n >= 10 {
      DecimalOfNatToString(n / 10);
      var s := NatToString(n);
      assert s[..|s| - 1] == NatToString(n / 10);
    }
  }

  /** Parsing the decimal text of a number gives the number back. */
  lemma ParseUnsignedRoundTrip(n: nat)
    ensures ParseUnsigned(NatToString(n)) == Some(n)
  {
    DecimalOfNatToString(n);
    assert IsDigit(NatToString(n)[0]);
  }

  /** A digit string contains no separator that starts with a non-digit. */
  lemma DigitsAvoid(ds: string, sep: string)
    requires AllDigits(ds) && |sep| > 0 && !IsDigit(sep[0])
    ensures !Contains(ds, sep)
  {
    AbsentFirstChar(ds, sep);
  }

  // ---------------------------------------------------------------------
  // The line pattern  ^Game (\d+): (.+)$

  /** The index just past the longest run of digits starting at `from`. */
  function DigitRunEnd(s: string, from: nat): (k: nat)
    requires from <= |s|
    ensures from <= k <= |s| && AllDigits(s[from..k])
    ensures forall i :: from <= i < k ==> IsDigit(s[i])
    ensures k < |s| ==> !IsDigit(s[k])
    decreases |s| - from
  {
    if from < |s| && IsDigit(s[from]) then
      var k := DigitRunEnd(s, from + 1);
      assert s[from..k] == [s[from]] + s[from + 1..k];
      k
    else from
  }

  /** The pattern `^Game (\d+): (.+)$` with its two capture groups, restricted
      to ASCII digits: `.` is any character but a line feed, and `$` is the end
      of the text. Greedy `\d+` is followed by `:`, which is not a digit, so
      the longest digit run is the only candidate for the first group. */
  function MatchLine(line: string): (m: Option<(string, string)>)
    ensures m.Some? ==> line == "Game " + m.value.0 + ": " + m.value.1
    ensures m.Some? ==> |m.value.0| > 0 && AllDigits(m.value.0)
    ensures m.Some? ==> |m.value.1| > 0 && '\n' !in m.value.1
  {
    if |line| < 5 || line[..5] != "Game " then None
    else
      var k := DigitRunEnd(line, 5);
      if k == 5 || k + 2 > |line| || line[k..k + 2] != ": " then None
      else
        var rest := line[k + 2..];
        if |rest| == 0 || '\n' in rest then None
        else
          assert line == line[..5] + line[5..k] + line[k..k + 2] + rest;
          Some((line[5..k], rest))
  }

  /** Every text of the pattern's shape matches, with exactly its digits and its rest. */
  lemma MatchLineComplete(ds: string, rest: string)
    requires |ds| > 0 && AllDigits(ds)
    requires |rest| > 0 && '\n' !in rest
    ensures MatchLine("Game " + ds + ": " + rest) == Some((ds, rest))
  {
    var line := "Game " + ds + ": " + rest;
    assert line[..5] == "Game ";
    var k := DigitRunEnd(line, 5);
    assert forall i :: 5 <= i < 5 + |ds| ==> line[i] == ds[i - 5];
    assert !IsDigit(line[5 + |ds|]);
    assert forall i :: 5 <= i < 5 + |ds| ==> IsDigit(line[i]);
    assert k == 5 + |ds|;
    assert line[k..k + 2] == ": ";
    assert line[k + 2..] == rest;
    assert line[5..k] == ds;
  }
}
