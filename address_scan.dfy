/**
 * Parsing a device address such as "A3" or "b12" into a house letter and a
 * unit number, the way `processNewCmdMsg` does it: scan the address with
 * the pattern `([a-zA-Z])([0-9]*)`, keep the last match, upper-case its
 * letter and convert its digit run to an integer.
 */
module AddressScan {
  import opened Wrappers
  import opened Ascii

  /** One `findall` result: the letter group and the digit group. */
  datatype Match = Match(letter: char, digits: string)

  /** A parsed address, before it is checked against the code tables. */
  datatype RawAddress = RawAddress(house: char, unit: nat)

  datatype ScanError =
    | EmptyUnitDigits  // `int('')` raises ValueError
    | NoMatch          // no match: the warning that formats `addy[0]` raises TypeError

  /**
   * `re.findall("([a-zA-Z])([0-9]*)", s)`: scan left to right; a letter
   * starts a match that takes the longest digit run after it, and scanning
   * resumes after that run; any other character is skipped.
   */
  function FindAll(s: string): (ms: seq<Match>)
    ensures forall j | 0 <= j < |ms| :: IsLetter(ms[j].letter) && AllDigits(ms[j].digits)
    decreases |s|
  {
    if s == [] then []
    else if IsLetter(s[0]) then
      var d := DigitPrefix(s[1..]);
      [Match(s[0], d)] + FindAll(s[1 + |d|..])
    else FindAll(s[1..])
  }

  /**
   * Reference description of the matches: one per letter of `s`, in order,
   * each with the longest digit run that follows that letter.
   */
  function LetterMatches(s: string): (ms: seq<Match>)
    ensures forall j | 0 <= j < |ms| :: IsLetter(ms[j].letter) && AllDigits(ms[j].digits)
    decreases |s|
  {
    if s == [] then []
    else (if IsLetter(s[0]) then [Match(s[0], DigitPrefix(s[1..]))] else []) + LetterMatches(s[1..])
  }

  lemma {:induction false} SkipNonLetters(t: string, k: nat)
    requires k <= |t|
    requires forall i | 0 <= i < k :: !IsLetter(t[i])
    ensures LetterMatches(t) == LetterMatches(t[k..])
    decreases k
  {
    if k > 0 {
      SkipNonLetters(t[1..], k - 1);
      assert t[1..][k - 1..] == t[k..];
    }
  }

  /** The scanner finds exactly one match per letter. */
  lemma {:induction false} FindAllIsLetterMatches(s: string)
    ensures FindAll(s) == LetterMatches(s)
    decreases |s|
  {
    if s != [] {
      if IsLetter(s[0]) {
        var d := DigitPrefix(s[1..]);
        FindAllIsLetterMatches(s[1 + |d|..]);
        SkipNonLetters(s[1..], |d|);
        assert s[1..][|d|..] == s[1 + |d|..];
      } else {
        FindAllIsLetterMatches(s[1..]);
      }
    }
  }

  lemma {:induction false} NoLettersNoMatches(s: string)
    ensures LetterMatches(s) == [] <==> forall i | 0 <= i < |s| :: !IsLetter(s[i])
    decreases |s|
  {
    if s != [] {
      NoLettersNoMatches(s[1..]);
      assert forall i | 1 <= i < |s| :: s[i] == s[1..][i - 1];
    }
  }

  /** Every letter of `s` contributes its match ... */
  lemma {:induction false} MatchOfLetter(s: string, i: int)
    requires 0 <= i < |s| && IsLetter(s[i])
    ensures Match(s[i], DigitPrefix(s[i + 1..])) in LetterMatches(s)
    decreases |s|
  {
    if i > 0 {
      MatchOfLetter(s[1..], i - 1);
      assert s[1..][i - 1] == s[i] && s[1..][i..] == s[i + 1..];
    }
  }

  /** ... and every match comes from a letter of `s`. */
  lemma {:induction false} LetterOfMatch(s: string, m: Match)
    requires m in LetterMatches(s)
    ensures exists i | 0 <= i < |s| :: IsLetter(s[i]) && m == Match(s[i], DigitPrefix(s[i + 1..]))
    decreases |s|
  {
    if m !in LetterMatches(s[1..]) {
      assert IsLetter(s[0]) && m == Match(s[0], DigitPrefix(s[0 + 1..]));
    } else {
      LetterOfMatch(s[1..], m);
      var i :| 0 <= i < |s[1..]| && IsLetter(s[1..][i]) && m == Match(s[1..][i], DigitPrefix(s[1..][i + 1..]));
      assert s[1..][i + 1..] == s[i + 2..];
      assert IsLetter(s[i + 1]) && m == Match(s[i + 1], DigitPrefix(s[i + 1 + 1..]));
    }
  }

  /** The index of the last letter of `s`, or -1 when it has none. */
  function LastLetter(s: string): (k: int)
    ensures -1 <= k < |s|
    ensures k >= 0 ==> IsLetter(s[k])
    ensures forall j | k < j < |s| :: !IsLetter(s[j])
  {
    if s == [] then -1
    else if IsLetter(s[|s| - 1]) then |s| - 1
    else LastLetter(s[..|s| - 1])
  }

  /** The last match belongs to the last letter. */
  lemma {:induction false} LastMatchIsLastLetter(s: string, k: int)
    requires 0 <= k < |s| && IsLetter(s[k])
    requires forall j | k < j < |s| :: !IsLetter(s[j])
    ensures LetterMatches(s) != []
    ensures LetterMatches(s)[|LetterMatches(s)| - 1] == Match(s[k], DigitPrefix(s[k + 1..]))
    decreases |s|
  {
    if k == 0 {
      NoLettersNoMatches(s[1..]);
      assert forall j | 0 <= j < |s[1..]| :: s[1..][j] == s[j + 1];
    } else {
      LastMatchIsLastLetter(s[1..], k - 1);
      assert s[1..][k..] == s[k + 1..];
    }
  }

  /** A letter at `i` that no digit follows: its match has an empty digit run. */
  predicate BareLetter(s: string, i: int) {
    0 <= i < |s| && IsLetter(s[i]) && (i + 1 == |s| || !IsDigit(s[i + 1]))
  }

  /**
   * What the address parse yields, stated over the address itself:
   * no letter at all is an error; a one-character address is its letter
   * with unit 1; otherwise any letter without digits after it is an error,
   * and the result is the last letter, upper-cased, with the value of the
   * digit run that follows it.
   */
  function ParseAddress(s: string): Result<RawAddress, ScanError> {
    var k := LastLetter(s);
    if k < 0 then Failure(NoMatch)
    else if |s| == 1 then Success(RawAddress(UpperChar(s[0]), 1))
    else if exists i | 0 <= i < |s| :: BareLetter(s, i) then Failure(EmptyUnitDigits)
    else Success(RawAddress(UpperChar(s[k]), DecimalValue(DigitPrefix(s[k + 1..]))))
  }

  lemma ParseWithoutLetters(s: string)
    requires LetterMatches(s) == []
    ensures ParseAddress(s) == Failure(NoMatch)
  {
    NoLettersNoMatches(s);
  }

  lemma ParseWithEmptyDigits(s: string, m: Match)
    requires |s| > 1 && m in LetterMatches(s) && m.digits == []
    ensures ParseAddress(s) == Failure(EmptyUnitDigits)
  {
    LetterOfMatch(s, m);
    var b :| 0 <= b < |s| && IsLetter(s[b]) && m == Match(s[b], DigitPrefix(s[b + 1..]));
    DigitPrefixEmpty(s[b + 1..]);
    assert BareLetter(s, b);
  }

  lemma ParseWithLastMatch(s: string)
    requires LetterMatches(s) != []
    requires |s| > 1 ==> forall m | m in LetterMatches(s) :: m.digits != []
    ensures var last := LetterMatches(s)[|LetterMatches(s)| - 1];
      ParseAddress(s) == Success(RawAddress(UpperChar(last.letter), if |s| > 1 then DecimalValue(last.digits) else 1))
  {
    NoLettersNoMatches(s);
    var k := LastLetter(s);
    LastMatchIsLastLetter(s, k);
    if |s| > 1 {
      forall b | 0 <= b < |s|
        ensures !BareLetter(s, b)
      {
        if IsLetter(s[b]) {
          MatchOfLetter(s, b);
          DigitPrefixEmpty(s[b + 1..]);
        }
      }
    }
  }

  /**
   * The loop of `processNewCmdMsg` over the matches of the address: each
   * match overwrites the house and the unit, so the last one wins; with
   * an address longer than one character the unit is `int(digits)`,
   * which raises on the first match without digits.
   */
  method ScanAddress(address: string) returns (r: Result<RawAddress, ScanError>)
    ensures r == ParseAddress(address)
  {
    var matches := FindAll(address);
    FindAllIsLetterMatches(address);
    var house: Option<char> := None;
    var number: nat := 0;
    var i := 0;
    while i < |matches|
      invariant 0 <= i <= |matches|
      invariant house.Some? <==> i > 0
      invariant i > 0 ==> house.value == UpperChar(matches[i - 1].letter)
      invariant i > 0 ==> number == if |address| > 1 then DecimalValue(matches[i - 1].digits) else 1
      invariant |address| > 1 ==> forall j | 0 <= j < i :: matches[j].digits != []
    {
      var m := matches[i];
      house := Some(UpperChar(m.letter));
      if |address| > 1 {
        if m.digits == [] {
          ParseWithEmptyDigits(address, m);
          return Failure(EmptyUnitDigits);
        }
        number := DecimalValue(m.digits);
      } else {
        number := 1;
      }
      i := i + 1;
    }
    if house.None? {
      ParseWithoutLetters(address);
      return Failure(NoMatch);
    }
    ParseWithLastMatch(address);
    r := Success(RawAddress(house.value, number));
  }

  /** A well-formed "HU" address parses back to its letter and its number. */
  lemma {:induction false} ParseFormattedAddress(h: char, unit: nat)
    requires IsLetter(h)
    ensures ParseAddress([h] + DecimalString(unit)) == Success(RawAddress(UpperChar(h), unit))
  {
    var ds := DecimalString(unit);
    var s := [h] + ds;
    assert s[1..] == ds;
    assert forall j | 1 <= j < |s| :: s[j] == ds[j - 1];
    assert IsLetter(s[0]);
    assert forall j | 1 <= j < |s| :: IsDigit(s[j]);
    assert LastLetter(s) == 0;
    forall i | 0 <= i < |s|
      ensures !BareLetter(s, i)
    {
    }
    DigitPrefixWhole(ds);
    DecimalRoundTrip(unit);
  }

  lemma {:induction false} DigitPrefixWhole(ds: string)
    requires AllDigits(ds)
    ensures DigitPrefix(ds) == ds
    decreases |ds|
  {
    if ds != [] {
      DigitPrefixWhole(ds[1..]);
    }
  }

  /** A single letter is an address with unit 1. */
  lemma OneLetterAddress(h: char)
    requires IsLetter(h)
    ensures ParseAddress([h]) == Success(RawAddress(UpperChar(h), 1))
  {
    assert LastLetter([h]) == 0;
  }
}
