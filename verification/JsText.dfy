/** The few facts about JavaScript strings and decimal digits the models rely on. */
module JsText {

  // ---------------------------------------------------------------------------------------
  // trim()
  // ---------------------------------------------------------------------------------------

  /** WhiteSpace and LineTerminator of ECMA-262, which is also what `\s` matches. */
  predicate IsSpace(c: char) {
    c == ' ' || '\U{0009}' <= c <= '\U{000D}' || c == '\U{00A0}' || c == '\U{1680}' || '\U{2000}' <= c <= '\U{200A}'
    || c == '\U{2028}' || c == '\U{2029}' || c == '\U{202F}' || c == '\U{205F}' || c == '\U{3000}' || c == '\U{FEFF}'
  }

  const BLANKS: string :=
    "\U{0009}\U{000A}\U{000B}\U{000C}\U{000D}\U{0020}\U{00A0}\U{1680}\U{2000}\U{2001}\U{2002}\U{2003}\U{2004}\U{2005}\U{2006}" +
    "\U{2007}\U{2008}\U{2009}\U{200A}\U{2028}\U{2029}\U{202F}\U{205F}\U{3000}\U{FEFF}"

  lemma {:induction false} BlanksAre(c: char)
    ensures IsSpace(c) <==> c in BLANKS
  {
    if IsSpace(c) {
      var i := if c <= '\U{000D}' then c as int - 9 else if c == ' ' then 5 else if c == '\U{00A0}' then 6 else if c == '\U{1680}' then 7
               else if c <= '\U{200A}' then c as int - 0x2000 + 8 else if c == '\U{2028}' then 19 else if c == '\U{2029}' then 20
               else if c == '\U{202F}' then 21 else if c == '\U{205F}' then 22 else if c == '\U{3000}' then 23 else 24;
      assert BLANKS[i] == c;
    }
  }

  function TrimStart(s: string): (r: string)
    ensures r == "" || !IsSpace(r[0])
    ensures |r| <= |s| && r == s[|s| - |r|..]
    ensures forall i :: 0 <= i < |s| - |r| ==> IsSpace(s[i])
  {
    if s != "" && IsSpace(s[0]) then TrimStart(s[1..]) else s
  }

  function TrimEnd(s: string): (r: string)
    ensures r == "" || !IsSpace(r[|r| - 1])
    ensures |r| <= |s| && r == s[..|r|]
    ensures forall i :: |r| <= i < |s| ==> IsSpace(s[i])
  {
    if s != "" && IsSpace(s[|s| - 1]) then TrimEnd(s[..|s| - 1]) else s
  }

  function Trim(s: string): (r: string)
    ensures r == "" || (!IsSpace(r[0]) && !IsSpace(r[|r| - 1]))
  {
    TrimEnd(TrimStart(s))
  }

  lemma {:induction false} TrimFixed(s: string)
    requires s == "" || (!IsSpace(s[0]) && !IsSpace(s[|s| - 1]))
    ensures Trim(s) == s
  {
  }

  lemma {:induction false} TrimTwice(s: string)
    ensures Trim(Trim(s)) == Trim(s)
  {
    TrimFixed(Trim(s));
  }

  /** toUpperCase() on ASCII letters. */
  function UpperChar(c: char): char {
    if 'a' <= c <= 'z' then c - 32 as char else c
  }

  function Upper(s: string): (r: string)
    ensures |r| == |s| && forall i :: 0 <= i < |s| ==> r[i] == UpperChar(s[i])
  {
    if s == "" then "" else Upper(s[..|s| - 1]) + [UpperChar(s[|s| - 1])]
  }

  /** A text that `trim().toUpperCase()` leaves as it is. */
  predicate IsNormal(s: string) {
    Upper(Trim(s)) == s
  }

  lemma {:induction false} UpperCharIs(c: char)
    ensures UpperChar(UpperChar(c)) == UpperChar(c) && IsSpace(UpperChar(c)) == IsSpace(c)
  {
  }

  lemma {:induction false} UpperTwice(s: string)
    ensures Upper(Upper(s)) == Upper(s)
  {
    hide UpperChar;
    if s != "" {
      var n := |s| - 1;
      UpperTwice(s[..n]);
      UpperCharIs(s[n]);
      assert Upper(s)[..n] == Upper(s[..n]);
    }
  }

  lemma {:induction false} NormalIsNormal(s: string)
    ensures IsNormal(Upper(Trim(s)))
  {
    hide UpperChar, IsSpace, Upper, Trim;
    var t := Trim(s);
    if t != "" {
      UpperCharIs(t[0]);
      UpperCharIs(t[|t| - 1]);
    }
    TrimFixed(Upper(t));
    UpperTwice(t);
  }

  lemma {:induction false} UpperFixed(s: string)
    requires forall i :: 0 <= i < |s| ==> 'A' <= s[i] <= 'Z' || s[i] == '_'
    ensures IsNormal(s)
  {
    TrimFixed(s);
    assert Upper(s) == s;
  }

  // ---------------------------------------------------------------------------------------
  // Decimal digits
  // ---------------------------------------------------------------------------------------

  predicate IsDigit(c: char) {
    '0' <= c <= '9'
  }

  predicate AllDigits(s: string) {
    forall i :: 0 <= i < |s| ==> IsDigit(s[i])
  }

  function DigitOf(n: nat): (c: char)
    requires n < 10
    ensures IsDigit(c) && c as int - '0' as int == n
  {
    '0' + n as char
  }

  function Pow10(n: nat): (p: nat)
    ensures p >= 1
  {
    if n == 0 then 1 else 10 * Pow10(n - 1)
  }

  /** The number a string of digits denotes. */
  function ValueOf(s: string): nat
    requires AllDigits(s)
  {
    if s == "" then 0 else 10 * ValueOf(s[..|s| - 1]) + (s[|s| - 1] as int - '0' as int)
  }

  /** The decimal numeral of a number, without leading zeros. */
  function Numeral(n: nat): (s: string)
    ensures AllDigits(s) && s != ""
  {
    if n < 10 then [DigitOf(n)] else Numeral(n / 10) + [DigitOf(n % 10)]
  }

  /** Exactly `k` digits, with leading zeros. */
  function Padded(n: nat, k: nat): (s: string)
    ensures AllDigits(s) && |s| == k
  {
    if k == 0 then "" else Padded(n / 10, k - 1) + [DigitOf(n % 10)]
  }

  lemma {:induction false} NumeralValue(n: nat)
    ensures ValueOf(Numeral(n)) == n
  {
    if n >= 10 {
      NumeralValue(n / 10);
      assert Numeral(n)[..|Numeral(n)| - 1] == Numeral(n / 10);
    }
  }

  lemma {:induction false} PaddedValue(n: nat, k: nat)
    requires n < Pow10(k)
    ensures ValueOf(Padded(n, k)) == n
  {
    if k > 0 {
      PaddedValue(n / 10, k - 1);
      assert Padded(n, k)[..k - 1] == Padded(n / 10, k - 1);
    }
  }

  lemma {:induction false} TenTimes(a: nat, b: nat)
    ensures a * (10 * b) == 10 * (a * b)
  {
  }

  lemma {:induction false} ValueConcat(s: string, t: string)
    requires AllDigits(s) && AllDigits(t)
    ensures AllDigits(s + t) && ValueOf(s + t) == ValueOf(s) * Pow10(|t|) + ValueOf(t)
    decreases |t|
  {
    if t == "" {
      assert s + t == s;
    } else {
      var u, c := t[..|t| - 1], t[|t| - 1];
      ValueConcat(s, u);
      assert (s + t)[..|s + t| - 1] == s + u;
      assert ValueOf(s + t) == 10 * ValueOf(s + u) + (c as int - '0' as int);
      TenTimes(ValueOf(s), Pow10(|u|));
    }
  }

  lemma {:induction false} NumeralLength(n: nat, k: nat)
    requires k >= 1 && n < Pow10(k)
    ensures 1 <= |Numeral(n)| <= k
  {
    if n >= 10 {
      NumeralLength(n / 10, k - 1);
    }
  }

  lemma {:induction false} ValueBound(s: string)
    requires AllDigits(s)
    ensures ValueOf(s) < Pow10(|s|)
  {
    if s != "" {
      ValueBound(s[..|s| - 1]);
    }
  }
}
