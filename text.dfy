/** String helpers that stand for JavaScript built-ins the core relies on:
    `String.prototype.trim`, `String.prototype.startsWith` and the decimal
    rendering of an integer inside a template literal. */
module Text {
  import opened Wrappers

  /** The characters `trim` removes: the WhiteSpace and LineTerminator code
      points of ECMA-262 (sections 12.2 and 12.3 of the 2023 edition). */
  predicate IsSpace(c: char) {
    || c == '\t' || c == '\n' || c == '\U{B}' || c == '\U{C}' || c == '\r' || c == ' '
    || c == '\U{A0}' || c == '\U{1680}' || ('\U{2000}' <= c <= '\U{200A}')
    || c == '\U{2028}' || c == '\U{2029}' || c == '\U{202F}' || c == '\U{205F}'
    || c == '\U{3000}' || c == '\U{FEFF}'
  }

  predicate AllSpace(s: string) {
    forall i :: 0 <= i < |s| ==> IsSpace(s[i])
  }

  /** `trimStart`: the suffix of `s` left after dropping leading white space. */
  function TrimStart(s: string): (r: string)
    ensures |r| <= |s| && r == s[|s| - |r|..]
    ensures r == [] || !IsSpace(r[0])
    ensures forall i :: 0 <= i < |s| - |r| ==> IsSpace(s[i])
  {
    if s != [] && IsSpace(s[0]) then TrimStart(s[1..]) else s
  }

  /** `trimEnd`: the prefix of `s` left after dropping trailing white space. */
  function TrimEnd(s: string): (r: string)
    ensures |r| <= |s| && r == s[..|r|]
    ensures r == [] || !IsSpace(r[|r| - 1])
    ensures forall i :: |r| <= i < |s| ==> IsSpace(s[i])
  {
    if s != [] && IsSpace(s[|s| - 1]) then TrimEnd(s[..|s| - 1]) else s
  }

  /** `r` is the slice of `s` left once an all-white-space prefix and an
      all-white-space suffix are cut off. */
  predicate TrimmedFrom(r: string, s: string) {
    exists i :: 0 <= i && i + |r| <= |s| && r == s[i..i + |r|]
                && AllSpace(s[..i]) && AllSpace(s[i + |r|..])
  }

  /** `trim`: `s` without white space at either end. */
  function Trim(s: string): (r: string)
    ensures |r| <= |s|
    ensures r == [] || (!IsSpace(r[0]) && !IsSpace(r[|r| - 1]))
    ensures TrimmedFrom(r, s)
  {
    var t := TrimStart(s);
    var u := TrimEnd(t);
    var i := |s| - |t|;
    assert u == s[i..i + |u|];
    assert AllSpace(s[..i]);
    assert s[i + |u|..] == t[|u|..];
    assert AllSpace(t[|u|..]);
    assert TrimmedFrom(u, s);
    u
  }

  /** An empty trimmed string is exactly an all-white-space input, which is
      what the source's `if (!nextQuery) return` tests. */
  lemma TrimEmptyIff(s: string)
    ensures Trim(s) == [] <==> AllSpace(s)
  {
    var t := TrimStart(s);
    var k := |s| - |t|;
    assert t == s[k..];
    if Trim(s) == [] {
      forall i | k <= i < |s| ensures IsSpace(s[i]) {
        assert s[i] == t[i - k];
      }
    } else {
      assert Trim(s)[0] == t[0] == s[k];
    }
  }

  /** Trimming twice is trimming once. */
  lemma TrimIdempotent(s: string)
    ensures Trim(Trim(s)) == Trim(s)
  {
    var r := Trim(s);
    if r != [] {
      assert TrimStart(r) == r;
      assert TrimEnd(r) == r;
    }
  }

  /** `s.startsWith(p)`. */
  predicate StartsWith(s: string, p: string) {
    |p| <= |s| && s[..|p|] == p
  }

  predicate IsDigit(c: char) {
    '0' <= c <= '9'
  }

  predicate AllDigits(s: string) {
    forall i :: 0 <= i < |s| ==> IsDigit(s[i])
  }

  function DigitChar(d: nat): (c: char)
    requires d < 10
    ensures IsDigit(c) && c as int - '0' as int == d
  {
    (d + '0' as int) as char
  }

  /** Decimal digits of a natural number, without leading zeros. */
  function ShowNat(n: nat): (r: string)
    ensures |r| >= 1 && AllDigits(r)
    ensures (r[0] == '0') <==> n == 0
  {
    if n < 10 then [DigitChar(n)] else ShowNat(n / 10) + [DigitChar(n % 10)]
  }

  /** How a template literal renders an integer-valued JavaScript number. */
  function ShowInt(n: int): (r: string)
    ensures r != []
  {
    if n < 0 then "-" + ShowNat(-n) else ShowNat(n)
  }

  /** The value of a string of decimal digits: the partner of ShowNat. */
  function ParseNat(s: string): nat
    requires AllDigits(s)
  {
    if s == [] then 0 else ParseNat(s[..|s| - 1]) * 10 + (s[|s| - 1] as int - '0' as int)
  }

  /** Reads back what ShowInt writes; `None` for anything that is not an
      optional minus sign followed by decimal digits. */
  function ParseInt(s: string): Option<int> {
    if |s| > 1 && s[0] == '-' && AllDigits(s[1..]) then Some(0 - ParseNat(s[1..]))
    else if s != [] && AllDigits(s) then Some(ParseNat(s))
    else None
  }

  lemma {:induction false} ParseShowNat(n: nat)
    ensures ParseNat(ShowNat(n)) == n
  {
    if n >= 10 {
      var s := ShowNat(n);
      assert s[..|s| - 1] == ShowNat(n / 10);
      ParseShowNat(n / 10);
    }
  }

  /** A rendered negative number reads back as itself. */
  lemma ParseShowNegative(n: int)
    requires n < 0
    ensures ParseInt(ShowInt(n)) == Some(n)
  {
    var m: nat := -n;
    var d := ShowNat(m);
    var s := ShowInt(n);
    assert s == "-" + d;
    assert s[1..] == d;
    ParseShowNat(m);
    assert ParseNat(s[1..]) == m;
  }

  /** A rendered non-negative number reads back as itself. */
  lemma ParseShowNonNegative(n: nat)
    ensures ParseInt(ShowInt(n)) == Some(n)
  {
    assert ShowInt(n)[0] != '-';
    ParseShowNat(n);
  }

  /** Rendering an integer loses nothing: it can be read back. */
  lemma ParseShowInt(n: int)
    ensures ParseInt(ShowInt(n)) == Some(n)
  {
    if n < 0 {
      ParseShowNegative(n);
    } else {
      ParseShowNonNegative(n);
    }
  }

  /** Two integers render alike only when they are equal. */
  lemma ShowIntInjective(a: int, b: int)
    requires ShowInt(a) == ShowInt(b)
    ensures a == b
  {
    ParseShowInt(a);
    ParseShowInt(b);
  }
}
