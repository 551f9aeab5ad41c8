/**
 * `extractLineNumberFromError`: the line number of the evaluated code read
 * out of an error's stack text, the first `<anonymous>:<line>:<column>`
 * occurrence in it, or nothing.
 */
module ErrorLine {
  import opened Wrappers
  import opened Digits

  const Marker := "<anonymous>:"

  /** The length of the run of digits starting at `i`; JavaScript's `\d` is ASCII 0-9. */
  function DigitRun(s: string, i: nat): (n: nat)
    requires i <= |s|
    ensures i + n <= |s| && forall t :: i <= t < i + n ==> IsDigit(s[t])
    ensures i + n == |s| || !IsDigit(s[i + n])
    decreases |s| - i
  {
    if i < |s| && IsDigit(s[i]) then 1 + DigitRun(s, i + 1) else 0
  }

  /** `<anonymous>:` occurs at `i`. */
  predicate MarkerAt(s: string, i: nat) {
    i + |Marker| <= |s| && s[i..i + |Marker|] == Marker
  }

  /**
   * `/<anonymous>:(\d+):\d+/` matches at `i`. The greedy `(\d+)` takes the
   * whole digit run; giving digits back cannot help, since the character
   * after a shorter run is a digit and not `:`.
   */
  predicate MatchesAt(s: string, i: nat) {
    && MarkerAt(s, i)
    && var j := i + |Marker|;
       var n := DigitRun(s, j);
       && n >= 1
       && j + n + 1 < |s|
       && s[j + n] == ':'
       && IsDigit(s[j + n + 1])
  }

  /** The leftmost match position at or after `i`. */
  function FirstMatch(s: string, i: nat): (r: Option<nat>)
    ensures r.Some? ==> i <= r.value && MatchesAt(s, r.value)
    ensures r.Some? ==> forall k :: i <= k < r.value ==> !MatchesAt(s, k)
    ensures r.None? ==> forall k :: i <= k ==> !MatchesAt(s, k)
    decreases |s| - i
  {
    if i + |Marker| > |s| then None
    else if MatchesAt(s, i) then Some(i)
    else FirstMatch(s, i + 1)
  }

  /** The captured line digits of the match at `i`. */
  function LineDigits(s: string, i: nat): (d: string)
    requires MatchesAt(s, i)
    ensures |d| >= 1 && AllDigits(d)
  {
    var j := i + |Marker|;
    var d := s[j..j + DigitRun(s, j)];
    assert forall k :: 0 <= k < |d| ==> d[k] == s[j + k];
    d
  }

  /**
   * The line number in the first match, read in base 10, or `None` (the
   * source's `null`) when the text has no match. The captured group is
   * never empty, so a match always yields a number.
   */
  function ExtractLineNumber(s: string): (r: Option<nat>)
    ensures r.Some? <==> exists i: nat :: MatchesAt(s, i)
    ensures r.Some? ==> exists i: nat ::
      && MatchesAt(s, i)
      && (forall k :: 0 <= k < i ==> !MatchesAt(s, k))
      && r.value == ParseDecimal(LineDigits(s, i))
  {
    match FirstMatch(s, 0)
    case None => None
    case Some(i) => Some(ParseDecimal(LineDigits(s, i)))
  }

  /** A run of exactly `m` digits at `i`, ended by a non-digit or the end, is what `DigitRun` finds. */
  lemma {:induction false} DigitRunExact(s: string, i: nat, m: nat)
    requires i + m <= |s|
    requires forall t :: i <= t < i + m ==> IsDigit(s[t])
    requires i + m == |s| || !IsDigit(s[i + m])
    ensures DigitRun(s, i) == m
    decreases m
  {
    if m > 0 {
      DigitRunExact(s, i + 1, m - 1);
    }
  }

  lemma DigitRunOfDecimal(n: nat, rest: string, s: string, i: nat)
    requires i <= |s| && s[i..] == Decimal(n) + rest
    requires rest == [] || !IsDigit(rest[0])
    ensures DigitRun(s, i) == |Decimal(n)|
    ensures s[i..i + DigitRun(s, i)] == Decimal(n)
  {
    var d := Decimal(n);
    forall t | i <= t < i + |d|
      ensures IsDigit(s[t])
    {
      assert s[t] == s[i..][t - i] == d[t - i];
    }
    if i + |d| < |s| {
      assert s[i + |d|] == s[i..][|d|] == rest[0];
    }
    DigitRunExact(s, i, |d|);
    assert s[i..i + |d|] == s[i..][..|d|];
  }

  /**
   * The stack text `<prefix><anonymous>:<n>:<c><tail>` yields `n` when the
   * prefix holds no `<` (so no match starts inside it).
   */
  lemma ExtractPrintedLine(prefix: string, n: nat, c: nat, tail: string)
    requires forall k :: 0 <= k < |prefix| ==> prefix[k] != '<'
    ensures ExtractLineNumber(prefix + Marker + Decimal(n) + ":" + Decimal(c) + tail) == Some(n)
  {
    var s := prefix + Marker + Decimal(n) + ":" + Decimal(c) + tail;
    var i := |prefix|;
    assert s[i..] == Marker + (Decimal(n) + ":" + Decimal(c) + tail);
    PrintedMatch(s, i, n, c, tail);
    assert s[..i] == prefix;
    NoMatchBeforeMarker(s, prefix);
    assert FirstMatch(s, 0) == Some(i);
    ParseDecimalOfDecimal(n);
  }

  /** At a printed `<anonymous>:<n>:<c>` the pattern matches and captures the digits of `n`. */
  lemma PrintedMatch(s: string, i: nat, n: nat, c: nat, tail: string)
    requires i <= |s| && s[i..] == Marker + (Decimal(n) + ":" + Decimal(c) + tail)
    ensures MatchesAt(s, i) && LineDigits(s, i) == Decimal(n)
  {
    MarkerThenRest(s, i, Decimal(n) + ":" + Decimal(c) + tail);
    PrintedLineAndColumn(s, i + |Marker|, n, c, tail);
  }

  lemma MarkerThenRest(s: string, i: nat, after: string)
    requires i <= |s| && s[i..] == Marker + after
    ensures MarkerAt(s, i) && s[i + |Marker|..] == after
  {
    var j := i + |Marker|;
    assert s[i..j] == s[i..][..|Marker|] == Marker;
    assert s[j..] == s[i..][|Marker|..] == after;
  }

  /** After the marker: the digits of `n`, then `:`, then a digit. */
  lemma PrintedLineAndColumn(s: string, j: nat, n: nat, c: nat, tail: string)
    requires j <= |s| && s[j..] == Decimal(n) + ":" + Decimal(c) + tail
    ensures var m := DigitRun(s, j);
      && m == |Decimal(n)| && s[j..j + m] == Decimal(n)
      && j + m + 1 < |s| && s[j + m] == ':' && IsDigit(s[j + m + 1])
  {
    var rest := ":" + Decimal(c) + tail;
    assert s[j..] == Decimal(n) + rest;
    DigitRunOfDecimal(n, rest, s, j);
    var m := |Decimal(n)|;
    assert s[j + m] == s[j..][m] == rest[0];
    assert s[j + m + 1] == s[j..][m + 1] == rest[1] == Decimal(c)[0];
  }

  /** No match starts inside a prefix that holds no `<`. */
  lemma NoMatchBeforeMarker(s: string, prefix: string)
    requires |prefix| <= |s| && s[..|prefix|] == prefix
    requires forall k :: 0 <= k < |prefix| ==> prefix[k] != '<'
    ensures forall k :: 0 <= k < |prefix| ==> !MatchesAt(s, k)
  {
    forall k | 0 <= k < |prefix|
      ensures !MarkerAt(s, k)
    {
      assert s[k] == prefix[k];
    }
  }

  /** A text without `<anonymous>:` yields nothing. */
  lemma NoMarkerNoLine(s: string)
    requires forall i: nat :: !MarkerAt(s, i)
    ensures ExtractLineNumber(s) == None
  {
  }

  /** `<anonymous>:12` without a column is not a match. */
  lemma ExampleMissingColumn()
    ensures ExtractLineNumber(Marker + "12") == None
  {
    var s := Marker + "12";
    forall i: nat
      ensures !MatchesAt(s, i)
    {
      if MarkerAt(s, i) && DigitRun(s, i + |Marker|) >= 1 {
        assert i + |Marker| + DigitRun(s, i + |Marker|) + 1 >= |s|;
      }
    }
  }
}
