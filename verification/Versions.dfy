/** Version parsing and printing (`discovery.py`): three numerals, as in section 2 of Semantic Versioning 2.0.0. */
module Versions {
  import opened Wrappers

  datatype Version = Version(major: nat, minor: nat, patch: nat)

  // ----- decimal numerals -----

  predicate IsDigit(c: char) {
    '0' <= c <= '9'
  }

  function DigitOf(n: nat): char
    requires n < 10
  {
    '0' + n as char
  }

  /** `str(part)` */
  function PrintNat(n: nat): string {
    if n < 10 then [DigitOf(n)] else PrintNat(n / 10) + [DigitOf(n % 10)]
  }

  predicate IsNumeral(s: string) {
    s == "0" || (s != "" && s[0] != '0' && forall i :: 0 <= i < |s| ==> IsDigit(s[i]))
  }

  /** `int(part)` */
  function ReadNat(s: string): nat
    requires forall i :: 0 <= i < |s| ==> IsDigit(s[i])
  {
    if s == "" then 0 else
    assert IsDigit(s[|s| - 1]);
    10 * ReadNat(s[..|s| - 1]) + (s[|s| - 1] as int - '0' as int)
  }

  lemma {:induction false} PrintedIsNumeral(n: nat)
    ensures IsNumeral(PrintNat(n)) && ReadNat(PrintNat(n)) == n
    ensures n > 0 ==> PrintNat(n)[0] != '0'
  {
    if n < 10 {
      assert PrintNat(n)[..0] == "";
    } else {
      PrintedIsNumeral(n / 10);
      var s := PrintNat(n);
      assert s[..|s| - 1] == PrintNat(n / 10);
      assert n == 10 * (n / 10) + n % 10;
    }
  }

  lemma {:induction false} NumeralIsPrinted(s: string)
    requires IsNumeral(s)
    ensures PrintNat(ReadNat(s)) == s
    ensures s != "0" ==> ReadNat(s) > 0
  {
    if |s| == 1 {
      DigitIsPrinted(s);
    } else {
      hide PrintNat, ReadNat, DigitOf;
      var front := s[..|s| - 1];
      FrontIsNumeral(s);
      NumeralIsPrinted(front);
      ReadOneMore(s);
      PrintOneMore(ReadNat(front), DigitValue(s[|s| - 1]));
      assert s == front + [s[|s| - 1]];
    }
  }

  function DigitValue(c: char): nat
    requires IsDigit(c)
  {
    c as int - '0' as int
  }

  lemma DigitIsPrinted(s: string)
    requires IsNumeral(s) && |s| == 1
    ensures PrintNat(ReadNat(s)) == s && (s != "0" ==> ReadNat(s) > 0)
  {
    assert s[..0] == "" && s == [s[0]];
    assert ReadNat(s) == DigitValue(s[0]);
  }

  lemma FrontIsNumeral(s: string)
    requires IsNumeral(s) && |s| > 1
    ensures var front := s[..|s| - 1]; IsNumeral(front) && front != "0" && IsDigit(s[|s| - 1])
  {
    assert s[..|s| - 1][0] == s[0];
  }

  lemma ReadOneMore(s: string)
    requires |s| > 1 && forall i :: 0 <= i < |s| ==> IsDigit(s[i])
    ensures ReadNat(s) == 10 * ReadNat(s[..|s| - 1]) + DigitValue(s[|s| - 1])
    ensures DigitValue(s[|s| - 1]) < 10 && DigitOf(DigitValue(s[|s| - 1])) == s[|s| - 1]
  {
  }

  lemma PrintOneMore(m: nat, d: nat)
    requires m > 0 && d < 10
    ensures PrintNat(10 * m + d) == PrintNat(m) + [DigitOf(d)]
  {
    assert (10 * m + d) / 10 == m && (10 * m + d) % 10 == d;
  }

  // ----- versions -----

  /** `_format_version` */
  function Format(v: Version): string {
    PrintNat(v.major) + "." + PrintNat(v.minor) + "." + PrintNat(v.patch)
  }

  /** `value.split(".")` */
  function Split(s: string): (parts: seq<string>)
    ensures |parts| >= 1
  {
    if s == "" then [""]
    else
      var parts := Split(s[1..]);
      if s[0] == '.' then [""] + parts else [[s[0]] + parts[0]] + parts[1..]
  }

  /** `parse_copilot_language_server_version` on a string: three numerals without leading zeros. */
  function Parse(s: string): Option<Version> {
    var parts := Split(s);
    if |parts| == 3 && IsNumeral(parts[0]) && IsNumeral(parts[1]) && IsNumeral(parts[2])
    then Some(Version(ReadNat(parts[0]), ReadNat(parts[1]), ReadNat(parts[2])))
    else None
  }

  function Join(parts: seq<string>): string
    requires |parts| >= 1
  {
    if |parts| == 1 then parts[0] else parts[0] + "." + Join(parts[1..])
  }

  lemma {:induction false} JoinSplit(s: string)
    ensures Join(Split(s)) == s
  {
    if s != "" {
      JoinSplit(s[1..]);
      var parts := Split(s[1..]);
      if s[0] == '.' {
        assert Split(s)[1..] == parts;
      } else if |parts| > 1 {
        assert Split(s)[1..] == parts[1..];
      }
    }
  }

  lemma {:induction false} SplitNumeral(n: string, rest: string)
    requires forall i :: 0 <= i < |n| ==> IsDigit(n[i])
    ensures Split(n + "." + rest) == [n] + Split(rest)
    ensures Split(n) == [n]
  {
    if n == "" {
      assert "" + "." + rest == "." + rest && ("." + rest)[1..] == rest;
    } else {
      SplitNumeral(n[1..], rest);
      assert (n + "." + rest)[1..] == n[1..] + "." + rest;
      assert n == [n[0]] + n[1..];
    }
  }

  lemma DotsAssociate(a: string, b: string, c: string)
    ensures a + "." + b + "." + c == a + "." + (b + "." + c)
  {
  }

  /** Parsing undoes printing. */
  lemma ParseFormat(v: Version)
    ensures Parse(Format(v)) == Some(v)
  {
    var a, b, c := PrintNat(v.major), PrintNat(v.minor), PrintNat(v.patch);
    PrintedIsNumeral(v.major);
    PrintedIsNumeral(v.minor);
    PrintedIsNumeral(v.patch);
    SplitNumeral(a, b + "." + c);
    SplitNumeral(b, c);
    SplitNumeral(c, "");
    hide PrintNat, ReadNat, IsNumeral, Split;
    DotsAssociate(a, b, c);
  }

  /** Printing undoes parsing: exactly the printed versions are accepted. */
  lemma FormatParse(s: string)
    ensures Parse(s).Some? ==> Format(Parse(s).value) == s
  {
    if Parse(s).Some? {
      var parts := Split(s);
      JoinSplit(s);
      NumeralIsPrinted(parts[0]);
      NumeralIsPrinted(parts[1]);
      NumeralIsPrinted(parts[2]);
      hide PrintNat, ReadNat, IsNumeral, Split;
      assert parts[1..][1..] == [parts[2]];
      assert Join(parts[1..]) == parts[1] + "." + Join([parts[2]]);
      DotsAssociate(parts[0], parts[1], parts[2]);
    }
  }
}
