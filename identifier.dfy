/**
 * Issue identifiers of the form `TEAM-123`: the parser behind the pattern
 * ^([A-Z]+)-(\d+)$ and the inverse that prints an identifier back.
 */
module Identifier {
  import opened Wrappers
  import opened Requests

  predicate IsUpper(c: char) { 'A' <= c <= 'Z' }
  predicate IsDigit(c: char) { '0' <= c <= '9' }

  predicate AllUpper(s: string) { forall i :: 0 <= i < |s| ==> IsUpper(s[i]) }
  predicate AllDigits(s: string) { forall i :: 0 <= i < |s| ==> IsDigit(s[i]) }

  /**
   * The language of the anchored pattern: one or more ASCII capitals, one
   * hyphen, one or more ASCII digits, nothing before or after.
   */
  ghost predicate MatchesPattern(s: string) {
    exists k :: 0 < k < |s| - 1 && AllUpper(s[..k]) && s[k] == '-' && AllDigits(s[k + 1..])
  }

  /** A parsed identifier: the team key and the issue's number within the team. */
  datatype Identifier = Identifier(teamKey: string, number: nat)

  predicate ValidTeamKey(key: string) { |key| > 0 && AllUpper(key) }

  /** Length of the longest run of capitals at the start of `s`. */
  function LetterRun(s: string): (n: nat)
    ensures n <= |s| && AllUpper(s[..n])
    ensures n < |s| ==> !IsUpper(s[n])
  {
    if |s| == 0 || !IsUpper(s[0]) then 0
    else
      var n := 1 + LetterRun(s[1..]);
      assert s[..n] == [s[0]] + s[1..][..n - 1];
      n
  }

  function DigitValue(c: char): nat {
    if IsDigit(c) then c as nat - '0' as nat else 0
  }

  /** The decimal value of a digit string, most significant digit first. */
  function DecimalValue(d: string): nat {
    if |d| == 0 then 0 else 10 * DecimalValue(d[..|d| - 1]) + DigitValue(d[|d| - 1])
  }

  /** `parseIdentifier`: split at the hyphen after the letter run, or reject. */
  function Parse(s: string): (r: Result<Identifier, Error>)
    ensures r.Success? <==> MatchesPattern(s)
    ensures r.Success? ==>
      var k := |r.value.teamKey|;
      && ValidTeamKey(r.value.teamKey)
      && k + 1 < |s| && s[..k] == r.value.teamKey && s[k] == '-'
      && AllDigits(s[k + 1..]) && r.value.number == DecimalValue(s[k + 1..])
    ensures r.Failure? ==> r.error == InvalidIdentifier(s)
  {
    var k := LetterRun(s);
    if 0 < k && k + 1 < |s| && s[k] == '-' && AllDigits(s[k + 1..]) then
      Success(Identifier(s[..k], DecimalValue(s[k + 1..])))
    else
      SplitIsUnique(s);
      Failure(InvalidIdentifier(s))
  }

  /** Any split point the pattern admits is the end of the letter run. */
  lemma SplitIsUnique(s: string)
    ensures forall k :: 0 < k < |s| - 1 && AllUpper(s[..k]) && s[k] == '-' ==> k == LetterRun(s)
  {
  }

  /** Decimal digits of `n`, without leading zeros. */
  function NatToDecimal(n: nat): (d: string)
    ensures |d| > 0 && AllDigits(d)
  {
    if n < 10 then [DigitChar(n)] else NatToDecimal(n / 10) + [DigitChar(n % 10)]
  }

  function DigitChar(v: nat): char
    requires v < 10
  {
    ('0' as int + v) as char
  }

  /** Printing a number in decimal and reading it back gives the number. */
  lemma {:induction false} DecimalRoundTrip(n: nat)
    ensures DecimalValue(NatToDecimal(n)) == n
  {
    var d := NatToDecimal(n);
    if n >= 10 {
      DecimalRoundTrip(n / 10);
      assert d[..|d| - 1] == NatToDecimal(n / 10);
    }
  }

  /** The canonical text of an identifier. */
  function Format(id: Identifier): string {
    id.teamKey + "-" + NatToDecimal(id.number)
  }

  /** The letter run of a team key followed by a non-capital is the key. */
  lemma {:induction false} LetterRunOfKey(key: string, rest: string)
    requires AllUpper(key) && |rest| > 0 && !IsUpper(rest[0])
    ensures LetterRun(key + rest) == |key|
  {
    if |key| > 0 {
      assert (key + rest)[1..] == key[1..] + rest;
      LetterRunOfKey(key[1..], rest);
    }
  }

  /** Any team key, a hyphen and any digit string parse back into their parts. */
  lemma {:induction false} ParseSplit(key: string, digits: string)
    requires ValidTeamKey(key) && |digits| > 0 && AllDigits(digits)
    ensures Parse(key + "-" + digits) == Success(Identifier(key, DecimalValue(digits)))
  {
    var s := key + "-" + digits;
    LetterRunOfKey(key, "-" + digits);
    assert s == key + ("-" + digits);
    assert s[..|key|] == key && s[|key| + 1..] == digits;
  }

  /** Every identifier with a valid team key is read back from its text. */
  lemma {:induction false} ParseFormat(id: Identifier)
    requires ValidTeamKey(id.teamKey)
    ensures Parse(Format(id)) == Success(id)
  {
    ParseSplit(id.teamKey, NatToDecimal(id.number));
    DecimalRoundTrip(id.number);
  }

  /**
   * Leading zeros are accepted and dropped, so two different texts name the
   * same issue and parsing is not injective.
   */
  lemma LeadingZerosNameTheSameIssue()
    ensures Parse("BLU-042") == Parse("BLU-42") == Success(Identifier("BLU", 42))
  {
    ParseSplit("BLU", "042");
    ParseSplit("BLU", "42");
    assert "BLU" + "-" + "042" == "BLU-042";
    assert "BLU" + "-" + "42" == "BLU-42";
    assert "042"[..2] == "04" && "04"[..1] == "0";
    assert "42"[..1] == "4";
  }

  /** Lower case, no hyphen, a second hyphen and no digits are all rejected. */
  lemma RejectedExamples()
    ensures Parse("abc-1").Failure?
    ensures Parse("AB1").Failure?
    ensures Parse("A-B-1").Failure?
    ensures Parse("A-").Failure?
    ensures Parse("-1").Failure?
    ensures Parse(" A-1").Failure? && Parse("A-1 ").Failure?
  {
    assert "A-B-1"[2..][1] == '-';
    assert !IsDigit("A-1 "[3]);
  }
}
