// Court auction case numbers such as 2024타경12345: four year digits, the
// case type 타경 and a serial number. Both crawlers read them with the
// pattern (\d{4})(타경)(\d+) matched at the start of the text, so anything
// may follow the serial's digits.

module CaseNumber {
  import opened Wrappers
  import opened Text

  const CaseType: string := "타경"

  datatype CaseNumber = CaseNumber(year: string, number: string)
  {
    /** The matched text: year, case type and serial. */
    function Text(): string
    {
      year + CaseType + number
    }

    predicate Valid()
    {
      |year| == 4 && AllDigits(year) && |number| >= 1 && AllDigits(number)
    }
  }

  /** The longest run of digits at the start of s (the greedy `\d+`). */
  function LeadingDigits(s: string): (r: string)
    ensures |r| <= |s| && r == s[..|r|] && AllDigits(r)
    ensures |r| < |s| ==> !IsDigit(s[|r|])
  {
    if |s| == 0 || !IsDigit(s[0]) then ""
    else [s[0]] + LeadingDigits(s[1..])
  }

  /** re.match(r'(\d{4})(타경)(\d+)', s) */
  function Parse(s: string): (r: Option<CaseNumber>)
    ensures r.Some? ==> r.value.Valid() && StartsWith(s, r.value.Text())
  {
    if |s| >= 7 && AllDigits(s[..4]) && s[4..6] == CaseType && IsDigit(s[6]) then
      var number := LeadingDigits(s[6..]);
      assert s[..4] + CaseType + number == s[..6 + |number|];
      Some(CaseNumber(s[..4], number))
    else None
  }

  /** The pattern matches exactly the texts that start with four digits, 타경 and a digit. */
  lemma ParseAccepts(s: string)
    ensures Parse(s).Some? <==> |s| >= 7 && AllDigits(s[..4]) && s[4..6] == CaseType && IsDigit(s[6])
    ensures Parse(s).Some? ==>
              var n := Parse(s).value;
              |s| > 6 + |n.number| ==> !IsDigit(s[6 + |n.number|])
  {
  }

  /** A valid case number, followed by anything that does not continue its serial, reads back. */
  lemma {:induction false} ParseText(c: CaseNumber, rest: string)
    requires c.Valid()
    requires |rest| > 0 ==> !IsDigit(rest[0])
    ensures Parse(c.Text() + rest) == Some(c)
  {
    var s := c.Text() + rest;
    assert s[..4] == c.year;
    assert s[4..6] == CaseType;
    assert s[6] == c.number[0];
    assert s[6..] == c.number + rest;
    LeadingDigitsOf(c.number, rest);
  }

  lemma {:induction false} LeadingDigitsOf(digits: string, rest: string)
    requires AllDigits(digits)
    requires |rest| > 0 ==> !IsDigit(rest[0])
    ensures LeadingDigits(digits + rest) == digits
  {
    if |digits| > 0 {
      assert (digits + rest)[1..] == digits[1..] + rest;
      LeadingDigitsOf(digits[1..], rest);
    } else {
      assert digits + rest == rest;
    }
  }

  /** Concrete readings: a plain number, and a suffix after the serial. */
  lemma ParseExamples()
    ensures Parse("2024타경12345") == Some(CaseNumber("2024", "12345"))
    ensures Parse("2023타경7 (1)") == Some(CaseNumber("2023", "7"))
  {
    ParsePlainExample(CaseNumber("2024", "12345"));
    ParseSuffixedExample(CaseNumber("2023", "7"));
  }

  lemma ParsePlainExample(a: CaseNumber)
    requires a == CaseNumber("2024", "12345")
    ensures Parse("2024타경12345") == Some(a)
  {
    assert a.Text() + "" == "2024타경12345";
    ParseText(a, "");
  }

  lemma ParseSuffixedExample(b: CaseNumber)
    requires b == CaseNumber("2023", "7")
    ensures Parse("2023타경7 (1)") == Some(b)
  {
    assert b.Text() + " (1)" == "2023타경7 (1)";
    ParseText(b, " (1)");
  }

  /** A two-digit year and a missing serial are both refused. */
  lemma ParseRejects()
    ensures Parse("24타경12345") == None
    ensures Parse("2024타경") == None
  {
    var s := "24타경12345";
    assert !IsDigit(s[..4][2]);
    assert |"2024타경"| == 6;
  }
}
