/**
 * The pieces of Python text handling the driver relies on: `%s` applied to
 * a non-negative int (its decimal numeral) and, as the reference a reader
 * of that text would use, splitting on a separator and reading numerals
 * back.
 */
module PyFormat {
  import opened Wrappers

  predicate IsDigit(c: char)
  {
    '0' <= c <= '9'
  }

  predicate IsNumeral(s: string)
  {
    |s| >= 1 && forall i :: 0 <= i < |s| ==> IsDigit(s[i])
  }

  function DigitValue(c: char): (d: nat)
    requires IsDigit(c)
    ensures d < 10
  {
    (c as int) - ('0' as int)
  }

  function DigitChar(d: nat): (c: char)
    requires d < 10
    ensures IsDigit(c) && DigitValue(c) == d
  {
    (('0' as int) + d) as char
  }

  /** A numeral as `%s` writes it: decimal digits with no leading zero. */
  predicate IsCanonicalNumeral(s: string)
  {
    IsNumeral(s) && (|s| > 1 ==> s[0] != '0')
  }

  /** The number a string of decimal digits denotes. */
  function ParseDecimal(s: string): nat
    requires forall i :: 0 <= i < |s| ==> IsDigit(s[i])
  {
    if s == [] then 0
    else ParseDecimal(s[..|s| - 1]) * 10 + DigitValue(s[|s| - 1])
  }

  /** `"%s" % n` for an int n >= 0: its decimal numeral without leading zeros, which reads back as n. */
  function Decimal(n: nat): (s: string)
    ensures IsCanonicalNumeral(s)
    ensures ParseDecimal(s) == n
    decreases n
  {
    if n < 10 then [DigitChar(n)]
    else
      var init := Decimal(n / 10);
      var s := init + [DigitChar(n % 10)];
      assert s[..|s| - 1] == init;
      s
  }

  /** A numeral whose first digit is not 0 denotes a positive number. */
  lemma {:induction false} LeadingDigitPositive(s: string)
    requires IsNumeral(s) && s[0] != '0'
    ensures ParseDecimal(s) >= 1
    decreases |s|
  {
    if |s| > 1 {
      LeadingDigitPositive(s[..|s| - 1]);
    }
  }

  /** `Decimal` is the only canonical numeral of its number. */
  lemma {:induction false} CanonicalNumeralUnique(s: string)
    requires IsCanonicalNumeral(s)
    ensures s == Decimal(ParseDecimal(s))
    decreases |s|
  {
    var last := s[|s| - 1];
    assert DigitChar(DigitValue(last)) == last;
    if |s| > 1 {
      var init := s[..|s| - 1];
      LeadingDigitPositive(init);
      CanonicalNumeralUnique(init);
      var n := ParseDecimal(s);
      assert n / 10 == ParseDecimal(init) && n % 10 == DigitValue(last);
      assert s == init + [last];
    }
  }

  /** Python's `s.split(sep)`: the maximal separator-free pieces, in order. */
  function Split(s: string, sep: char): (parts: seq<string>)
    ensures |parts| >= 1
  {
    if s == [] then [""]
    else
      var rest := Split(s[1..], sep);
      if s[0] == sep then [""] + rest
      else [[s[0]] + rest[0]] + rest[1..]
  }

  lemma {:induction false} SplitNoSeparator(a: string, sep: char)
    requires sep !in a
    ensures Split(a, sep) == [a]
    decreases |a|
  {
    if a != [] {
      SplitNoSeparator(a[1..], sep);
      assert [a[0]] + a[1..] == a;
    }
  }

  lemma {:induction false} SplitAtSeparator(a: string, sep: char, t: string)
    requires sep !in a
    ensures Split(a + [sep] + t, sep) == [a] + Split(t, sep)
    decreases |a|
  {
    var s := a + [sep] + t;
    if a == [] {
      assert s[1..] == t;
    } else {
      assert s[1..] == a[1..] + [sep] + t;
      SplitAtSeparator(a[1..], sep, t);
      assert [a[0]] + a[1..] == a;
    }
  }

  /** Python's `sep.join(parts)`. */
  function Join(parts: seq<string>, sep: char): string
    requires |parts| >= 1
  {
    if |parts| == 1 then parts[0] else parts[0] + [sep] + Join(parts[1..], sep)
  }

  /** Splitting loses nothing: joining the pieces with the separator gives the string back. */
  lemma {:induction false} JoinSplit(s: string, sep: char)
    ensures Join(Split(s, sep), sep) == s
    decreases |s|
  {
    if s != [] {
      JoinSplit(s[1..], sep);
      var rest := Split(s[1..], sep);
      if s[0] == sep {
        assert ([""] + rest)[1..] == rest;
      } else if |rest| > 1 {
        var parts := [[s[0]] + rest[0]] + rest[1..];
        assert parts[1..] == rest[1..];
      }
      assert [s[0]] + s[1..] == s;
    }
  }

  /** `"%s.%s.%s" % (a, b, c)`. */
  function DottedTriple(a: nat, b: nat, c: nat): string
  {
    Decimal(a) + "." + Decimal(b) + "." + Decimal(c)
  }

  /** Reads "x.y.z" with three canonical decimal numerals back into its numbers. */
  function ParseDottedTriple(s: string): Option<(nat, nat, nat)>
  {
    var parts := Split(s, '.');
    if |parts| == 3 && IsCanonicalNumeral(parts[0]) && IsCanonicalNumeral(parts[1]) && IsCanonicalNumeral(parts[2])
    then Some((ParseDecimal(parts[0]), ParseDecimal(parts[1]), ParseDecimal(parts[2])))
    else None
  }

  /** The dotted triple is unambiguous: its three numbers can be read back. */
  lemma {:induction false} DottedTripleRoundTrip(a: nat, b: nat, c: nat)
    ensures ParseDottedTriple(DottedTriple(a, b, c)) == Some((a, b, c))
  {
    var da, db, dc := Decimal(a), Decimal(b), Decimal(c);
    assert '.' !in da && '.' !in db && '.' !in dc by {
      assert !IsDigit('.');
    }
    assert DottedTriple(a, b, c) == da + ['.'] + (db + ['.'] + dc);
    SplitAtSeparator(da, '.', db + ['.'] + dc);
    SplitAtSeparator(db, '.', dc);
    SplitNoSeparator(dc, '.');
  }

  /** Only the dotted triple itself reads back as its numbers, so the string is determined by them. */
  lemma DottedTripleUnique(s: string, a: nat, b: nat, c: nat)
    requires ParseDottedTriple(s) == Some((a, b, c))
    ensures s == DottedTriple(a, b, c)
  {
    var parts := Split(s, '.');
    assert |parts| == 3;
    assert IsCanonicalNumeral(parts[0]) && ParseDecimal(parts[0]) == a;
    assert IsCanonicalNumeral(parts[1]) && ParseDecimal(parts[1]) == b;
    assert IsCanonicalNumeral(parts[2]) && ParseDecimal(parts[2]) == c;
    JoinSplit(s, '.');
    assert parts[1..][1..] == [parts[2]];
    assert Join(parts[1..], '.') == parts[1] + ['.'] + parts[2];
    assert s == parts[0] + ['.'] + (parts[1] + ['.'] + parts[2]);
    CanonicalNumeralUnique(parts[0]);
    CanonicalNumeralUnique(parts[1]);
    CanonicalNumeralUnique(parts[2]);
  }
}
