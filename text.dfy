// String helpers shared by the models: substring occurrence, digits, the
// whitespace sets of Python's str.strip and JavaScript's String.prototype.trim,
// splitting on one character and joining, and ASCII lower-casing.

module Text {
  // ---------------------------------------------------------------------
  // Occurrence of one string inside another (Python `in`, JS `includes`,
  // Swift `contains`)

  predicate OccursAt(s: string, sub: string, i: int)
  {
    0 <= i && i + |sub| <= |s| && s[i..i + |sub|] == sub
  }

  predicate Contains(s: string, sub: string)
  {
    exists i | 0 <= i <= |s| - |sub| :: OccursAt(s, sub, i)
  }

  predicate StartsWith(s: string, prefix: string)
  {
    |prefix| <= |s| && s[..|prefix|] == prefix
  }

  predicate EndsWith(s: string, suffix: string)
  {
    |suffix| <= |s| && s[|s| - |suffix|..] == suffix
  }

  lemma ContainsSelf(s: string)
    ensures Contains(s, s)
  {
    assert OccursAt(s, s, 0);
  }

  lemma ContainsEmpty(s: string)
    ensures Contains(s, "")
  {
    assert OccursAt(s, "", 0);
  }

  /** An occurrence of `sub` needs a character of `s` equal to each character of `sub`. */
  lemma ContainsHasChar(s: string, sub: string, k: int)
    requires Contains(s, sub) && 0 <= k < |sub|
    ensures sub[k] in s
  {
    var i :| 0 <= i <= |s| - |sub| && OccursAt(s, sub, i);
    assert s[i..i + |sub|][k] == s[i + k];
  }

  lemma ContainsLength(s: string, sub: string)
    requires Contains(s, sub)
    ensures |sub| <= |s|
  {
  }

  /** A string occurring in a string of its own length is that string. */
  lemma ContainsSameLength(s: string, sub: string)
    requires Contains(s, sub) && |sub| == |s|
    ensures sub == s
  {
    var i :| 0 <= i <= |s| - |sub| && OccursAt(s, sub, i);
    assert i == 0;
  }

  /** Occurrence is transitive. */
  lemma ContainsTrans(a: string, b: string, c: string)
    requires Contains(a, b) && Contains(b, c)
    ensures Contains(a, c)
  {
    var i :| 0 <= i <= |a| - |b| && OccursAt(a, b, i);
    var j :| 0 <= j <= |b| - |c| && OccursAt(b, c, j);
    assert b == a[i..i + |b|];
    var x, y := a[i + j..i + j + |c|], b[j..j + |c|];
    forall k | 0 <= k < |c|
      ensures x[k] == y[k]
    {
      assert b[j + k] == a[i + j + k];
    }
    assert x == y;
    assert OccursAt(a, c, i + j);
  }

  lemma ContainsInSlice(s: string, lo: int, hi: int)
    requires 0 <= lo <= hi <= |s|
    ensures Contains(s, s[lo..hi])
  {
    assert OccursAt(s, s[lo..hi], lo);
  }

  lemma ContainsAppendLeft(prefix: string, s: string, sub: string)
    requires Contains(s, sub)
    ensures Contains(prefix + s, sub)
  {
    var i :| 0 <= i <= |s| - |sub| && OccursAt(s, sub, i);
    assert (prefix + s)[|prefix| + i..|prefix| + i + |sub|] == s[i..i + |sub|];
    assert OccursAt(prefix + s, sub, |prefix| + i);
  }

  lemma ContainsAppendRight(s: string, suffix: string, sub: string)
    requires Contains(s, sub)
    ensures Contains(s + suffix, sub)
  {
    var i :| 0 <= i <= |s| - |sub| && OccursAt(s, sub, i);
    assert (s + suffix)[i..i + |sub|] == s[i..i + |sub|];
    assert OccursAt(s + suffix, sub, i);
  }

  // ---------------------------------------------------------------------
  // Digits (ASCII `\d`)

  predicate IsDigit(c: char)
  {
    '0' <= c <= '9'
  }

  predicate AllDigits(s: string)
  {
    forall i :: 0 <= i < |s| ==> IsDigit(s[i])
  }

  function DigitValue(c: char): (d: nat)
    requires IsDigit(c)
    ensures d < 10
  {
    c as int - '0' as int
  }

  function DigitChar(d: nat): (c: char)
    requires d < 10
    ensures IsDigit(c) && DigitValue(c) == d
  {
    ('0' as int + d) as char
  }

  /** The value of a run of decimal digits, as Python's int() or JS parseInt read it. */
  function DigitsValue(s: string): nat
    requires AllDigits(s)
  {
    if |s| == 0 then 0 else DigitsValue(s[..|s| - 1]) * 10 + DigitValue(s[|s| - 1])
  }

  /** The decimal numeral of n without leading zeros (Python str(n), JS template text). */
  function Numeral(n: nat): (s: string)
    ensures AllDigits(s) && |s| >= 1
  {
    if n < 10 then [DigitChar(n)] else Numeral(n / 10) + [DigitChar(n % 10)]
  }

  lemma {:induction false} NumeralValue(n: nat)
    ensures DigitsValue(Numeral(n)) == n
  {
    if n >= 10 {
      var s := Numeral(n);
      assert s[..|s| - 1] == Numeral(n / 10);
      NumeralValue(n / 10);
    }
  }

  /**
   * The digits of s in order, everything else dropped
   * (`re.sub(r'[^\d]', '', s)`).
   */
  function KeepDigits(s: string): (r: string)
    ensures AllDigits(r) && |r| <= |s|
    ensures forall c :: c in r ==> c in s
  {
    if |s| == 0 then "" else (if IsDigit(s[0]) then [s[0]] else "") + KeepDigits(s[1..])
  }

  lemma {:induction false} KeepDigitsOfDigits(s: string)
    requires AllDigits(s)
    ensures KeepDigits(s) == s
  {
    if |s| > 0 {
      KeepDigitsOfDigits(s[1..]);
      assert s == [s[0]] + s[1..];
    }
  }

  lemma {:induction false} KeepDigitsEmpty(s: string)
    ensures KeepDigits(s) == "" <==> (forall i :: 0 <= i < |s| ==> !IsDigit(s[i]))
  {
    if |s| > 0 {
      KeepDigitsEmpty(s[1..]);
      assert forall i :: 1 <= i < |s| ==> s[1..][i - 1] == s[i];
    }
  }

  lemma {:induction false} KeepDigitsAppend(a: string, b: string)
    ensures KeepDigits(a + b) == KeepDigits(a) + KeepDigits(b)
  {
    if |a| == 0 {
      assert a + b == b;
    } else {
      assert (a + b)[0] == a[0];
      assert (a + b)[1..] == a[1..] + b;
      KeepDigitsAppend(a[1..], b);
    }
  }

  /** s without any occurrence of c (Python s.replace(c, '')). */
  function RemoveChar(s: string, c: char): (r: string)
    ensures |r| <= |s| && c !in r
    ensures forall d :: d in r ==> d in s
  {
    if |s| == 0 then "" else (if s[0] == c then "" else [s[0]]) + RemoveChar(s[1..], c)
  }

  function CountChar(s: string, c: char): nat
  {
    if |s| == 0 then 0 else (if s[0] == c then 1 else 0) + CountChar(s[1..], c)
  }

  lemma {:induction false} CountCharZero(s: string, c: char)
    ensures CountChar(s, c) == 0 <==> c !in s
  {
    if |s| > 0 {
      CountCharZero(s[1..], c);
      assert s == [s[0]] + s[1..];
    }
  }

  // ---------------------------------------------------------------------
  // Whitespace trimming

  /** Python str.isspace() for the characters str.strip() removes by default. */
  predicate IsPySpace(c: char)
  {
    c == ' ' || ('\t' <= c <= '\r') || ('\U{1C}' <= c <= '\U{1F}') || c == '\U{85}'
    || c == '\U{A0}' || c == '\U{1680}' || ('\U{2000}' <= c <= '\U{200A}')
    || c == '\U{2028}' || c == '\U{2029}' || c == '\U{202F}' || c == '\U{205F}' || c == '\U{3000}'
  }

  /** ECMAScript WhiteSpace and LineTerminator, what trim() removes. */
  predicate IsJsSpace(c: char)
  {
    c == ' ' || ('\t' <= c <= '\r') || c == '\U{A0}' || c == '\U{1680}'
    || ('\U{2000}' <= c <= '\U{200A}') || c == '\U{2028}' || c == '\U{2029}' || c == '\U{202F}'
    || c == '\U{205F}' || c == '\U{3000}' || c == '\U{FEFF}'
  }

  function DropLeading(s: string, space: char -> bool): (r: string)
    ensures |r| <= |s|
  {
    if |s| > 0 && space(s[0]) then DropLeading(s[1..], space) else s
  }

  function DropTrailing(s: string, space: char -> bool): (r: string)
    ensures |r| <= |s|
  {
    if |s| > 0 && space(s[|s| - 1]) then DropTrailing(s[..|s| - 1], space) else s
  }

  /** Dropping leading spaces leaves a suffix. */
  lemma {:induction false} DropLeadingSuffix(s: string, space: char -> bool)
    ensures DropLeading(s, space) == s[|s| - |DropLeading(s, space)|..]
  {
    if |s| > 0 && space(s[0]) {
      DropLeadingSuffix(s[1..], space);
    }
  }

  /** Dropping trailing spaces leaves a prefix. */
  lemma {:induction false} DropTrailingPrefix(s: string, space: char -> bool)
    ensures DropTrailing(s, space) == s[..|DropTrailing(s, space)|]
  {
    if |s| > 0 && space(s[|s| - 1]) {
      DropTrailingPrefix(s[..|s| - 1], space);
    }
  }

  function TrimBy(s: string, space: char -> bool): string
  {
    DropTrailing(DropLeading(s, space), space)
  }

  function PyStrip(s: string): string { TrimBy(s, IsPySpace) }

  function JsTrim(s: string): string { TrimBy(s, IsJsSpace) }

  /** The trimmed string is a piece of the original. */
  lemma TrimOccurs(s: string, space: char -> bool)
    ensures Contains(s, TrimBy(s, space))
  {
    var d := DropLeading(s, space);
    var t := DropTrailing(d, space);
    DropLeadingSuffix(s, space);
    DropTrailingPrefix(d, space);
    assert OccursAt(s, t, |s| - |d|);
  }

  /** The trimmed string neither starts nor ends with a space character. */
  lemma {:induction false} TrimEnds(s: string, space: char -> bool)
    ensures var t := TrimBy(s, space); |t| > 0 ==> !space(t[0]) && !space(t[|t| - 1])
  {
    DropLeadingEnds(s, space);
    DropTrailingKeepsHead(DropLeading(s, space), space);
  }

  lemma {:induction false} DropLeadingEnds(s: string, space: char -> bool)
    ensures var d := DropLeading(s, space); |d| > 0 ==> !space(d[0])
  {
    if |s| > 0 && space(s[0]) {
      DropLeadingEnds(s[1..], space);
    }
  }

  lemma {:induction false} DropTrailingKeepsHead(s: string, space: char -> bool)
    requires |s| > 0 ==> !space(s[0])
    ensures var d := DropTrailing(s, space); |d| > 0 ==> !space(d[0]) && !space(d[|d| - 1])
  {
    if |s| > 0 && space(s[|s| - 1]) {
      DropTrailingKeepsHead(s[..|s| - 1], space);
    }
  }

  /** A string without leading or trailing space characters is its own trim. */
  lemma TrimNoop(s: string, space: char -> bool)
    requires |s| > 0 ==> !space(s[0]) && !space(s[|s| - 1])
    ensures TrimBy(s, space) == s
  {
  }

  /** A string keeping a non-space character trims to a non-empty string. */
  lemma TrimNonBlank(s: string, space: char -> bool, i: int)
    requires 0 <= i < |s| && !space(s[i])
    ensures TrimBy(s, space) != ""
  {
    var d := DropLeading(s, space);
    DropLeadingKeeps(s, space, i);
    DropLeadingSuffix(s, space);
    var j := i - (|s| - |d|);
    assert d[j] == s[i];
    DropTrailingKeeps(d, space, j);
  }

  lemma {:induction false} DropLeadingKeeps(s: string, space: char -> bool, i: int)
    requires 0 <= i < |s| && !space(s[i])
    ensures |DropLeading(s, space)| >= |s| - i
  {
    if space(s[0]) {
      DropLeadingKeeps(s[1..], space, i - 1);
    }
  }

  lemma {:induction false} DropTrailingKeeps(s: string, space: char -> bool, i: int)
    requires 0 <= i < |s| && !space(s[i])
    ensures |DropTrailing(s, space)| > i
  {
    if space(s[|s| - 1]) {
      DropTrailingKeeps(s[..|s| - 1], space, i);
    }
  }

  /** A string that does not trim to nothing has a non-space character. */
  lemma NonSpaceWitness(s: string, space: char -> bool) returns (i: int)
    requires TrimBy(s, space) != ""
    ensures 0 <= i < |s| && !space(s[i])
  {
    var t := TrimBy(s, space);
    TrimEnds(s, space);
    TrimOccurs(s, space);
    i :| 0 <= i <= |s| - |t| && OccursAt(s, t, i);
    assert s[i..i + |t|][0] == s[i];
  }

  // ---------------------------------------------------------------------
  // Splitting on one separator character (Python str.split(c), JS split(c))
  // and joining

  function Split(s: string, sep: char): (r: seq<string>)
    ensures |r| >= 1
  {
    if |s| == 0 then [""]
    else
      var rest := Split(s[1..], sep);
      if s[0] == sep then [""] + rest else [[s[0]] + rest[0]] + rest[1..]
  }

  function Join(fields: seq<string>, sep: string): string
  {
    if |fields| == 0 then "" else if |fields| == 1 then fields[0]
    else fields[0] + sep + Join(fields[1..], sep)
  }

  /** The joined string starts with the first piece's first character. */
  lemma JoinFirst(fields: seq<string>, sep: string)
    requires |fields| >= 1 && |fields[0]| >= 1
    ensures |Join(fields, sep)| >= 1 && Join(fields, sep)[0] == fields[0][0]
  {
  }

  /** A string without the separator splits into itself alone. */
  lemma {:induction false} SplitNoSep(s: string, sep: char)
    requires sep !in s
    ensures Split(s, sep) == [s]
  {
    if |s| > 0 {
      SplitNoSep(s[1..], sep);
      assert [s[0]] + s[1..] == s;
    }
  }

  /** Two separator-free pieces joined by the separator split back into the two. */
  lemma SplitTwo(a: string, b: string, sep: char)
    requires sep !in a && sep !in b
    ensures Split(a + [sep] + b, sep) == [a, b]
  {
    SplitAppend(a, sep, b);
    SplitNoSep(b, sep);
  }

  /** Splitting at the first separator. */
  lemma {:induction false} SplitAppend(a: string, sep: char, b: string)
    requires sep !in a
    ensures Split(a + [sep] + b, sep) == [a] + Split(b, sep)
  {
    if |a| == 0 {
      assert a + [sep] + b == [sep] + b;
      assert ([sep] + b)[1..] == b;
    } else {
      assert (a + [sep] + b)[1..] == a[1..] + [sep] + b;
      SplitAppend(a[1..], sep, b);
      assert [a[0]] + a[1..] == a;
    }
  }

  /** Split undoes Join when no piece holds the separator. */
  lemma {:induction false} SplitJoin(fields: seq<string>, sep: char)
    requires |fields| >= 1
    requires forall k :: 0 <= k < |fields| ==> sep !in fields[k]
    ensures Split(Join(fields, [sep]), sep) == fields
  {
    if |fields| == 1 {
      SplitNoSep(fields[0], sep);
    } else {
      SplitJoin(fields[1..], sep);
      SplitAppend(fields[0], sep, Join(fields[1..], [sep]));
    }
  }

  /** The first piece survives in the joined string. */
  lemma JoinHead(fields: seq<string>, sep: string, c: char)
    requires |fields| >= 1 && c in fields[0]
    ensures c in Join(fields, sep)
  {
    if |fields| > 1 {
      assert Join(fields, sep) == fields[0] + (sep + Join(fields[1..], sep));
    }
  }

  /** A character in neither the pieces nor the separator is not in the joined string. */
  lemma {:induction false} JoinLacks(fields: seq<string>, sep: string, c: char)
    requires c !in sep && forall k :: 0 <= k < |fields| ==> c !in fields[k]
    ensures c !in Join(fields, sep)
  {
    if |fields| > 1 {
      JoinLacks(fields[1..], sep, c);
    }
  }

  // ---------------------------------------------------------------------
  // ASCII lower-casing (Python/JS/Swift lower-casing restricted to ASCII)

  function LowerChar(c: char): char
  {
    if 'A' <= c <= 'Z' then (c as int + 32) as char else c
  }

  function Lower(s: string): (r: string)
    ensures |r| == |s| && forall i :: 0 <= i < |s| ==> r[i] == LowerChar(s[i])
  {
    seq(|s|, i requires 0 <= i < |s| => LowerChar(s[i]))
  }

  /** A string without upper-case ASCII letters is its own lower-case form. */
  lemma LowerNoop(s: string)
    requires forall i :: 0 <= i < |s| ==> !('A' <= s[i] <= 'Z')
    ensures Lower(s) == s
  {
  }
}
