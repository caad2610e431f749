/**
 * Reading a price somebody typed and printing one in Indian grouping (backend/config/pricing.js).
 *
 * Numbers are exact: `real` where the source has a number, whole paise where it has rounded to two
 * decimals.
 */
module Pricing {
  import opened Options
  import opened JsText

  /** Ten crore rupees, in paise. */
  const MAX_PRICE: int := 100_000_000 * 100

  /** `Math.round(n * 100)` */
  function RoundToPaise(n: real): int {
    (n * 100.0 + 0.5).Floor
  }

  // ---------------------------------------------------------------------------------------
  // Digit groups
  // ---------------------------------------------------------------------------------------

  /** The groups of a text written with commas between them. */
  function Join(groups: seq<string>): string {
    if groups == [] then ""
    else if |groups| == 1 then groups[0]
    else Join(groups[..|groups| - 1]) + "," + groups[|groups| - 1]
  }

  function Concat(groups: seq<string>): string {
    if groups == [] then "" else Concat(groups[..|groups| - 1]) + groups[|groups| - 1]
  }

  /** The text cut at its commas. */
  function Groups(s: string): (g: seq<string>)
    ensures |g| >= 1
  {
    if s == "" then [""]
    else
      var n := |s| - 1;
      var front := Groups(s[..n]);
      if s[n] == ',' then front + [""]
      else front[..|front| - 1] + [front[|front| - 1] + [s[n]]]
  }

  /** `text.replace(/,/g, '')` */
  function WithoutCommas(s: string): (r: string)
    ensures ',' !in r
  {
    if s == "" then ""
    else if s[|s| - 1] == ',' then WithoutCommas(s[..|s| - 1])
    else WithoutCommas(s[..|s| - 1]) + [s[|s| - 1]]
  }

  ghost predicate AllGroupsDigits(groups: seq<string>) {
    forall i :: 0 <= i < |groups| ==> AllDigits(groups[i])
  }

  lemma {:induction false} GroupsOneMore(s: string, c: char)
    requires c != ','
    ensures var front := Groups(s);
            Groups(s + [c]) == front[..|front| - 1] + [front[|front| - 1] + [c]]
  {
    assert (s + [c])[..|s|] == s;
  }

  lemma {:induction false} GroupsWithoutComma(s: string)
    requires ',' !in s
    ensures Groups(s) == [s]
  {
    if s != "" {
      var front, c := s[..|s| - 1], s[|s| - 1];
      assert s == front + [c];
      GroupsWithoutComma(front);
      GroupsOneMore(front, c);
      hide Groups;
      assert [front][..0] + [front + [c]] == [front + [c]];
    }
  }

  lemma {:induction false} GroupsAppend(s: string, t: string)
    requires ',' !in t
    ensures Groups(s + "," + t) == Groups(s) + [t]
    decreases |t|
  {
    var u := s + "," + t;
    if t == "" {
      assert u[..|u| - 1] == s;
    } else {
      GroupsAppend(s, t[..|t| - 1]);
      assert u[..|u| - 1] == s + "," + t[..|t| - 1];
      assert t[..|t| - 1] + [t[|t| - 1]] == t;
    }
  }

  ghost predicate CommaFree(groups: seq<string>) {
    forall i :: 0 <= i < |groups| ==> ',' !in groups[i]
  }

  lemma {:induction false} CommaFreeParts(front: seq<string>, last: string, groups: seq<string>)
    requires groups == front + [last] && CommaFree(groups)
    ensures CommaFree(front) && ',' !in last
  {
    assert forall i :: 0 <= i < |front| ==> front[i] == groups[i];
    assert last == groups[|front|];
  }

  /** Cutting undoes joining. */
  lemma {:induction false} GroupsOfJoin(groups: seq<string>)
    requires groups != [] && CommaFree(groups)
    ensures Groups(Join(groups)) == groups
  {
    if |groups| == 1 {
      GroupsWithoutComma(groups[0]);
    } else {
      var front, last := groups[..|groups| - 1], groups[|groups| - 1];
      CommaFreeParts(front, last, groups);
      hide Groups, Join, CommaFree;
      GroupsOfJoin(front);
      GroupsAppend(Join(front), last);
      JoinSnoc(front, last);
      assert groups == front + [last];
    }
  }

  lemma {:induction false} JoinSnoc(front: seq<string>, last: string)
    requires front != []
    ensures Join(front + [last]) == Join(front) + "," + last
  {
    var g := front + [last];
    assert g[..|g| - 1] == front;
  }

  lemma {:induction false} JoinGrow(init: seq<string>, last: string, c: char)
    ensures Join(init + [last + [c]]) == Join(init + [last]) + [c]
  {
    hide Join;
    if init == [] {
      JoinOfOne(last);
      JoinOfOne(last + [c]);
      assert [] + [last + [c]] == [last + [c]] && [] + [last] == [last];
    } else {
      JoinSnoc(init, last);
      JoinSnoc(init, last + [c]);
      var before := Join(init) + ",";
      assert before + (last + [c]) == (before + last) + [c];
    }
  }

  /** And joining undoes cutting. */
  lemma {:induction false} JoinOfGroups(s: string)
    ensures Join(Groups(s)) == s
  {
    hide Join;
    if s == "" {
      JoinOfOne("");
    } else {
      var n := |s| - 1;
      JoinOfGroups(s[..n]);
      var front := Groups(s[..n]);
      var init, last := front[..|front| - 1], front[|front| - 1];
      JoinSnoc(front, "");
      JoinGrow(init, last, s[n]);
      assert front == init + [last];
      assert s == s[..n] + [s[n]] && Join(front) + "," + "" == Join(front) + [','];
    }
  }

  lemma {:induction false} JoinOfOne(s: string)
    ensures Join([s]) == s
  {
  }

  lemma {:induction false} WithoutCommasAppend(s: string, t: string)
    requires ',' !in t
    ensures WithoutCommas(s + t) == WithoutCommas(s) + t
    decreases |t|
  {
    if t == "" {
      assert s + t == s;
    } else {
      var n := |t| - 1;
      WithoutCommasAppend(s, t[..n]);
      assert (s + t)[..|s + t| - 1] == s + t[..n];
      assert t[..n] + [t[n]] == t;
    }
  }

  lemma {:induction false} WithoutCommasOfJoin(groups: seq<string>)
    requires CommaFree(groups)
    ensures WithoutCommas(Join(groups)) == Concat(groups)
  {
    if |groups| == 1 {
      WithoutCommasAppend("", groups[0]);
      assert "" + groups[0] == groups[0];
      assert Concat(groups[..0]) == "";
    } else if |groups| > 1 {
      var n := |groups| - 1;
      WithoutCommasOfJoin(groups[..n]);
      var s := Join(groups[..n]) + ",";
      assert s[..|s| - 1] == Join(groups[..n]);
      WithoutCommasAppend(s, groups[n]);
    }
  }

  // ---------------------------------------------------------------------------------------
  // The three grammars
  // ---------------------------------------------------------------------------------------

  datatype Style = Plain | Western | Indian

  /** The sizes the digit groups must have. */
  predicate Shape(style: Style, g: seq<string>) {
    match style
    case Plain => |g| == 1 && |g[0]| >= 1
    case Western => |g| >= 2 && 1 <= |g[0]| <= 3 && forall i :: 1 <= i < |g| ==> |g[i]| == 3
    case Indian => |g| >= 2 && 1 <= |g[0]| <= 2 && |g[|g| - 1]| == 3 && forall i :: 1 <= i < |g| - 1 ==> |g[i]| == 2
  }

  /** `(\.\d+)?` */
  predicate IsFraction(f: string) {
    f == "" || (|f| >= 2 && f[0] == '.' && AllDigits(f[1..]))
  }

  ghost predicate Pieced(style: Style, text: string) {
    exists g, f :: Written(style, g, f, text)
  }

  ghost predicate Written(style: Style, g: seq<string>, f: string, text: string) {
    Shape(style, g) && AllGroupsDigits(g) && IsFraction(f) && text == Join(g) + f
  }

  function DotAt(s: string): (n: nat)
    ensures n <= |s| && '.' !in s[..n] && (n < |s| ==> s[n] == '.')
  {
    if s == "" || s[0] == '.' then 0 else 1 + DotAt(s[1..])
  }

  function WholePart(s: string): string {
    s[..DotAt(s)]
  }

  function FractionPart(s: string): string {
    s[DotAt(s)..]
  }

  /** Deciding a grammar by cutting the text up. */
  predicate Accepts(style: Style, text: string) {
    var g := Groups(WholePart(text));
    IsFraction(FractionPart(text)) && Shape(style, g) && forall i :: 0 <= i < |g| ==> AllDigits(g[i])
  }

  predicate IsAmountText(text: string) {
    Accepts(Plain, text) || Accepts(Western, text) || Accepts(Indian, text)
  }

  lemma {:induction false} DotAtSplit(w: string, f: string)
    requires '.' !in w && (f == "" || f[0] == '.')
    ensures DotAt(w + f) == |w| && WholePart(w + f) == w && FractionPart(w + f) == f
  {
    if w != "" {
      assert (w + f)[1..] == w[1..] + f;
      DotAtSplit(w[1..], f);
    }
  }

  lemma {:induction false} JoinHasNoDot(g: seq<string>)
    requires AllGroupsDigits(g)
    ensures '.' !in Join(g)
  {
    if |g| > 1 {
      JoinHasNoDot(g[..|g| - 1]);
    }
  }

  /** A written amount is cut up into exactly the pieces it was written from. */
  lemma {:induction false} WrittenParts(style: Style, g: seq<string>, f: string, text: string)
    requires Written(style, g, f, text)
    ensures WholePart(text) == Join(g) && FractionPart(text) == f && Groups(WholePart(text)) == g
  {
    JoinHasNoDot(g);
    DotAtSplit(Join(g), f);
    GroupsOfJoin(g);
  }

  /** The decision procedure decides the language. */
  lemma {:induction false} AcceptsIsPieced(style: Style, text: string)
    ensures Accepts(style, text) <==> Pieced(style, text)
  {
    if Accepts(style, text) {
      var g := Groups(WholePart(text));
      JoinOfGroups(WholePart(text));
      assert text == WholePart(text) + FractionPart(text);
      assert Written(style, g, FractionPart(text), text);
    }
    if Pieced(style, text) {
      var g, f :| Written(style, g, f, text);
      WrittenParts(style, g, f, text);
    }
  }

  // ---------------------------------------------------------------------------------------
  // The expressions as languages
  // ---------------------------------------------------------------------------------------

  /** `\d{lo,hi}` */
  predicate Digits(s: string, lo: nat, hi: nat) {
    lo <= |s| <= hi && AllDigits(s)
  }

  /** A comma and n digits end the text. */
  predicate EndsInGroup(w: string, n: nat) {
    |w| > n && w[|w| - n - 1] == ',' && Digits(w[|w| - n..], n, n)
  }

  function BeforeGroup(w: string, n: nat): string
    requires EndsInGroup(w, n)
  {
    w[..|w| - n - 1]
  }

  /** `\d{1,3}(,\d{3})+` */
  predicate WesternWhole(w: string) {
    EndsInGroup(w, 3) && (Digits(BeforeGroup(w, 3), 1, 3) || WesternWhole(BeforeGroup(w, 3)))
  }

  /** `\d{1,2}(,\d{2})*` */
  predicate IndianHead(w: string) {
    Digits(w, 1, 2) || (EndsInGroup(w, 2) && IndianHead(BeforeGroup(w, 2)))
  }

  /** PLAIN, WESTERN and INDIAN, before the fraction. */
  predicate Whole(style: Style, w: string) {
    match style
    case Plain => w != "" && AllDigits(w)
    case Western => WesternWhole(w)
    case Indian => EndsInGroup(w, 3) && IndianHead(BeforeGroup(w, 3))
  }

  /** The three expressions, each followed by `(\.\d+)?`. */
  ghost predicate Matches(style: Style, text: string) {
    exists n: nat :: n <= |text| && Whole(style, text[..n])
                     && (n == |text| || (text[n] == '.' && n + 1 < |text| && AllDigits(text[n + 1..])))
  }

  lemma {:induction false} GroupSplits(w: string, n: nat)
    requires EndsInGroup(w, n)
    ensures Groups(w) == Groups(BeforeGroup(w, n)) + [w[|w| - n..]] && |Groups(w)| >= 2
  {
    var t := w[|w| - n..];
    assert ',' !in t by { NoCommaInDigits(t); }
    GroupsAppend(BeforeGroup(w, n), t);
    assert w == BeforeGroup(w, n) + "," + t;
  }

  lemma {:induction false} NoCommaInDigits(t: string)
    requires AllDigits(t)
    ensures ',' !in t && '.' !in t
  {
  }

  /** And the other way: a text of several groups ends in its last one. */
  lemma {:induction false} LastGroupEnds(w: string)
    requires |Groups(w)| >= 2 && AllGroupsDigits(Groups(w))
    ensures var g := Groups(w);
            var n := |g[|g| - 1]|;
            EndsInGroup(w, n) && Groups(BeforeGroup(w, n)) == g[..|g| - 1] && w[|w| - n..] == g[|g| - 1]
  {
    var g := Groups(w);
    var front, last := g[..|g| - 1], g[|g| - 1];
    JoinOfGroups(w);
    JoinSnoc(front, last);
    assert front + [last] == g;
    assert w == Join(front) + "," + last;
    assert w[|w| - |last|..] == last && w[|w| - |last| - 1] == ',' && w[..|w| - |last| - 1] == Join(front);
    forall i | 0 <= i < |front| ensures ',' !in front[i] { NoCommaInDigits(g[i]); }
    GroupsOfJoin(front);
  }

  lemma {:induction false} SingleGroup(w: string)
    ensures AllDigits(w) ==> Groups(w) == [w]
    ensures |Groups(w)| == 1 ==> Groups(w) == [w]
  {
    if AllDigits(w) { NoCommaInDigits(w); GroupsWithoutComma(w); }
    if |Groups(w)| == 1 {
      JoinOfGroups(w);
      assert Groups(w) == [Groups(w)[0]];
      JoinOfOne(Groups(w)[0]);
    }
  }

  ghost predicate Sized(g: seq<string>, first: nat, rest: nat) {
    |g| >= 1 && 1 <= |g[0]| <= first && (forall i :: 1 <= i < |g| ==> |g[i]| == rest) && AllGroupsDigits(g)
  }

  lemma {:induction false} SizedSnoc(front: seq<string>, last: string, first: nat, rest: nat)
    requires front != []
    ensures Sized(front + [last], first, rest) <==> Sized(front, first, rest) && |last| == rest && AllDigits(last)
  {
    var g := front + [last];
    assert g[|front|] == last && g[..|front|] == front;
    if Sized(g, first, rest) {
      forall i | 0 <= i < |front| ensures AllDigits(front[i]) && (i > 0 ==> |front[i]| == rest) { assert front[i] == g[i]; }
    }
  }

  lemma {:induction false} WesternIs(w: string)
    ensures WesternWhole(w) <==> |Groups(w)| >= 2 && Sized(Groups(w), 3, 3)
    decreases |w|
  {
    hide Groups, Sized, AllDigits;
    if EndsInGroup(w, 3) {
      var f := BeforeGroup(w, 3);
      GroupSplits(w, 3);
      SizedSnoc(Groups(f), w[|w| - 3..], 3, 3);
      WesternIs(f);
      OneSized(f, 3, 3);
    } else if |Groups(w)| >= 2 && Sized(Groups(w), 3, 3) {
      SizedEnds(w, 3, 3);
    }
  }

  lemma {:induction false} SizedEnds(w: string, first: nat, rest: nat)
    requires |Groups(w)| >= 2 && Sized(Groups(w), first, rest)
    ensures EndsInGroup(w, rest)
  {
    LastGroupEnds(w);
  }

  lemma {:induction false} OneSized(w: string, first: nat, rest: nat)
    ensures Digits(w, 1, first) <==> |Groups(w)| == 1 && Sized(Groups(w), first, rest)
  {
    SingleGroup(w);
  }

  lemma {:induction false} IndianIs(w: string)
    ensures IndianHead(w) <==> Sized(Groups(w), 2, 2)
    decreases |w|
  {
    hide Groups, Sized, AllDigits;
    OneSized(w, 2, 2);
    if EndsInGroup(w, 2) {
      var f := BeforeGroup(w, 2);
      GroupSplits(w, 2);
      SizedSnoc(Groups(f), w[|w| - 2..], 2, 2);
      IndianIs(f);
    } else if |Groups(w)| >= 2 && Sized(Groups(w), 2, 2) {
      SizedEnds(w, 2, 2);
    }
  }

  lemma {:induction false} WholeIs(style: Style, w: string)
    ensures Whole(style, w) <==> Shape(style, Groups(w)) && AllGroupsDigits(Groups(w))
  {
    hide Groups;
    var g := Groups(w);
    match style
    case Plain => SingleGroup(w);
    case Western => WesternIs(w);
    case Indian =>
      if EndsInGroup(w, 3) {
        GroupSplits(w, 3);
        IndianIs(BeforeGroup(w, 3));
        IndianShape(Groups(BeforeGroup(w, 3)), w[|w| - 3..]);
      } else if Shape(Indian, g) && AllGroupsDigits(g) {
        LastGroupEnds(w);
      }
  }

  lemma {:induction false} IndianShape(front: seq<string>, last: string)
    requires front != []
    ensures Shape(Indian, front + [last]) && AllGroupsDigits(front + [last]) <==> Sized(front, 2, 2) && |last| == 3 && AllDigits(last)
  {
    var g := front + [last];
    assert g[|front|] == last;
    if Shape(Indian, g) && AllGroupsDigits(g) {
      forall i | 0 <= i < |front| ensures AllDigits(front[i]) && (i > 0 ==> |front[i]| == 2) { assert front[i] == g[i]; }
    }
  }

  lemma {:induction false} WholeHasNoDot(style: Style, w: string)
    requires Whole(style, w)
    ensures '.' !in w
  {
    hide Groups, Shape;
    WholeIs(style, w);
    JoinHasNoDot(Groups(w));
    JoinOfGroups(w);
  }

  /** Cutting at the dot and the commas decides the language of each expression. */
  lemma {:induction false} AcceptsIsMatches(style: Style, text: string)
    ensures Accepts(style, text) <==> Matches(style, text)
  {
    hide Groups, Shape, Whole, AllDigits, DotAt;
    var w, f := WholePart(text), FractionPart(text);
    WholeIs(style, w);
    if Accepts(style, text) {
      assert w == text[..|w|] && f == text[|w|..];
      FractionIs(text, |w|);
      assert Whole(style, text[..|w|]);
    }
    if n: nat :| n <= |text| && Whole(style, text[..n])
                 && (n == |text| || (text[n] == '.' && n + 1 < |text| && AllDigits(text[n + 1..]))) {
      WholeHasNoDot(style, text[..n]);
      assert text == text[..n] + text[n..];
      DotAtSplit(text[..n], text[n..]);
      FractionIs(text, n);
    }
  }

  lemma {:induction false} FractionIs(text: string, n: nat)
    requires n <= |text|
    ensures IsFraction(text[n..]) <==> n == |text| || (text[n] == '.' && n + 1 < |text| && AllDigits(text[n + 1..]))
  {
    hide AllDigits;
    if n < |text| { assert text[n..][1..] == text[n + 1..]; }
  }

  // ---------------------------------------------------------------------------------------
  // Reading
  // ---------------------------------------------------------------------------------------

  datatype RawPrice = Finite(n: real) | NotFinite | Text(text: string)

  datatype Reason = NotAnAmount | TooSmall | TooLarge

  datatype Parsed = Ok(paise: int) | Err(reason: Reason)

  function Lower(c: char): char {
    if 'A' <= c <= 'Z' then c + 32 as char else c
  }

  predicate StartsWith(s: string, lower: string) {
    |s| >= |lower| && forall i :: 0 <= i < |lower| ==> Lower(s[i]) == lower[i]
  }

  const RUPEE: char := '\U{20B9}'

  /** The pattern `^(₹|rs\.?|inr)\s*` without regard to case, removed. */
  function WithoutCurrency(s: string): string {
    if s != "" && s[0] == RUPEE then TrimStart(s[1..])
    else if StartsWith(s, "rs") then
      if |s| > 2 && s[2] == '.' then TrimStart(s[3..]) else TrimStart(s[2..])
    else if StartsWith(s, "inr") then TrimStart(s[3..])
    else s
  }

  /** `Number(text)` for digits with an optional fraction. */
  function DecimalValue(whole: string, fraction: string): real
    requires AllDigits(whole) && IsFraction(fraction)
  {
    if fraction == "" then ValueOf(whole) as real
    else ValueOf(whole) as real + ValueOf(fraction[1..]) as real / Pow10(|fraction| - 1) as real
  }

  lemma {:induction false} DigitsStay(s: string)
    requires AllGroupsDigits(Groups(s))
    ensures AllDigits(WithoutCommas(s))
  {
    if s != "" {
      var n := |s| - 1;
      var g, front := Groups(s), Groups(s[..n]);
      if s[n] != ',' {
        var last := front[|front| - 1];
        assert g[|g| - 1] == last + [s[n]];
        assert IsDigit((last + [s[n]])[|last|]);
        forall i | 0 <= i < |last| ensures IsDigit(last[i]) {
          assert (last + [s[n]])[i] == last[i];
        }
        forall i | 0 <= i < |front| - 1 ensures front[i] == g[i] {}
      } else {
        forall i | 0 <= i < |front| ensures front[i] == g[i] {}
      }
      assert AllGroupsDigits(front);
      DigitsStay(s[..n]);
    }
  }

  function AmountOf(text: string): real
    requires IsAmountText(text)
  {
    DigitsStay(WholePart(text));
    DecimalValue(WithoutCommas(WholePart(text)), FractionPart(text))
  }

  function CheckRange(n: real): Parsed {
    var value := RoundToPaise(n);
    if value <= 0 then Err(TooSmall) else if value > MAX_PRICE then Err(TooLarge) else Ok(value)
  }

  function ParsePriceInput(raw: RawPrice): Parsed {
    match raw
    case NotFinite => Err(NotAnAmount)
    case Finite(n) => CheckRange(n)
    case Text(s) =>
      var text := WithoutCurrency(Trim(s));
      if IsAmountText(text) then CheckRange(AmountOf(text)) else Err(NotAnAmount)
  }

  /**
   * What becomes of a number, typed or read from a text: taken as the paise it is nearest to, from one
   * paisa to ten crore rupees; refused below half a paisa and from half a paisa above.
   */
  lemma {:induction false} RangeExactlyWhen(n: real)
    ensures ParsePriceInput(Finite(n)) == Err(TooSmall) <==> n < 0.005
    ensures ParsePriceInput(Finite(n)) == Err(TooLarge) <==> n >= 100_000_000.005
    ensures forall paise :: ParsePriceInput(Finite(n)) == Ok(paise) <==>
              0.005 <= n < 100_000_000.005 && paise as real - 0.5 <= n * 100.0 < paise as real + 0.5
    ensures ParsePriceInput(NotFinite) == Err(NotAnAmount)
  {
  }

  /** A text is taken as the number it denotes. */
  lemma {:induction false} TextIsItsNumber(s: string)
    ensures var text := WithoutCurrency(Trim(s));
            ParsePriceInput(Text(s)) == if IsAmountText(text) then ParsePriceInput(Finite(AmountOf(text))) else Err(NotAnAmount)
  {
  }

  /**
   * No European decimal gets through: a text with a comma is refused unless the last group before
   * its fraction is exactly three digits.
   */
  lemma {:induction false} LastGroupIsThreeDigits(s: string)
    requires ',' in WithoutCurrency(Trim(s))
    ensures var g := Groups(WholePart(WithoutCurrency(Trim(s))));
            !(|g[|g| - 1]| == 3 && AllDigits(g[|g| - 1])) ==> ParsePriceInput(Text(s)) == Err(NotAnAmount)
  {
    hide Trim, WithoutCurrency, Groups, WholePart, FractionPart, CheckRange, AmountOf;
    if IsAmountText(WithoutCurrency(Trim(s))) {
      LastGroupOf(WithoutCurrency(Trim(s)));
    }
  }

  lemma {:induction false} FractionHasNoComma(f: string)
    requires IsFraction(f)
    ensures ',' !in f
  {
    if f != "" {
      assert f == ['.'] + f[1..];
    }
  }

  lemma {:induction false} PlainHasNoComma(text: string)
    requires Accepts(Plain, text)
    ensures ',' !in text
  {
    hide Groups, DotAt, Join;
    var w, f := WholePart(text), FractionPart(text);
    assert text == w + f;
    FractionHasNoComma(f);
    JoinOfGroups(w);
    JoinOfOne(Groups(w)[0]);
    assert Groups(w) == [Groups(w)[0]];
  }

  lemma {:induction false} LastGroupOf(text: string)
    requires ',' in text && IsAmountText(text)
    ensures var g := Groups(WholePart(text)); |g[|g| - 1]| == 3 && AllDigits(g[|g| - 1])
  {
    if Accepts(Plain, text) {
      PlainHasNoComma(text);
    }
  }

  // ---------------------------------------------------------------------------------------
  // Printing
  // ---------------------------------------------------------------------------------------

  /** The groups before the last three digits in Indian style: pairs. */
  function Pairs(n: nat): (g: seq<string>)
    ensures g != []
  {
    if n < 100 then [Numeral(n)] else Pairs(n / 100) + [Padded(n % 100, 2)]
  }

  function Threes(n: nat): (g: seq<string>)
    ensures g != []
  {
    if n < 1000 then [Numeral(n)] else Threes(n / 1000) + [Padded(n % 1000, 3)]
  }

  function DigitGroups(style: Style, n: nat): (g: seq<string>)
    ensures g != []
  {
    match style
    case Plain => [Numeral(n)]
    case Western => Threes(n)
    case Indian => if n < 1000 then [Numeral(n)] else Pairs(n / 1000) + [Padded(n % 1000, 3)]
  }

  /** The paise with `places` decimals; fewer than two only where nothing is lost. */
  function Fraction(paise: nat, places: nat): (f: string)
    requires places <= 2
    ensures IsFraction(f)
  {
    if places == 0 then ""
    else if places == 1 then "." + Padded(paise % 100 / 10, 1)
    else "." + Padded(paise % 100, 2)
  }

  function Render(style: Style, paise: nat, places: nat): string
    requires places <= 2
  {
    Join(DigitGroups(style, paise / 100)) + Fraction(paise, places)
  }

  /** A price already on file: anything not positive is a blank. */
  function AsPrice(n: real): Option<nat> {
    if n <= 0.0 then None else Some(RoundToPaise(n))
  }

  function FormatRupees(value: real): Option<string> {
    var price := AsPrice(value);
    if price.None? then None else Some([RUPEE] + Render(Indian, price.value, 2))
  }

  // ---------------------------------------------------------------------------------------
  // The round trip
  // ---------------------------------------------------------------------------------------

  lemma {:induction false} SmallPowers()
    ensures Pow10(0) == 1 && Pow10(1) == 10 && Pow10(2) == 100 && Pow10(3) == 1000
  {
  }

  lemma {:induction false} PairsShape(n: nat)
    ensures AllGroupsDigits(Pairs(n)) && 1 <= |Pairs(n)[0]| <= 2
    ensures forall i :: 1 <= i < |Pairs(n)| ==> |Pairs(n)[i]| == 2
  {
    hide Numeral, Padded, ValueOf, AllDigits, Pow10;
    SmallPowers();
    if n < 100 {
      NumeralLength(n, 2);
      NumeralValue(n);
    } else {
      PairsShape(n / 100);
      PaddedValue(n % 100, 2);
    }
  }

  lemma {:induction false} PairsValue(n: nat)
    ensures AllDigits(Concat(Pairs(n))) && ValueOf(Concat(Pairs(n))) == n
  {
    hide Numeral, Padded, ValueOf, AllDigits, Pow10;
    SmallPowers();
    if n < 100 {
      NumeralValue(n);
      assert Concat([]) + Numeral(n) == Numeral(n);
    } else {
      PairsValue(n / 100);
      var front, last := Pairs(n / 100), Padded(n % 100, 2);
      assert (front + [last])[..|front|] == front;
      PaddedValue(n % 100, 2);
      ValueConcat(Concat(front), last);
    }
  }

  lemma {:induction false} ThreesShape(n: nat)
    ensures AllGroupsDigits(Threes(n)) && 1 <= |Threes(n)[0]| <= 3
    ensures forall i :: 1 <= i < |Threes(n)| ==> |Threes(n)[i]| == 3
  {
    hide Numeral, Padded, ValueOf, AllDigits, Pow10;
    SmallPowers();
    if n < 1000 {
      NumeralLength(n, 3);
      NumeralValue(n);
    } else {
      ThreesShape(n / 1000);
      PaddedValue(n % 1000, 3);
    }
  }

  lemma {:induction false} ThreesValue(n: nat)
    ensures AllDigits(Concat(Threes(n))) && ValueOf(Concat(Threes(n))) == n
  {
    hide Numeral, Padded, ValueOf, AllDigits, Pow10;
    SmallPowers();
    if n < 1000 {
      NumeralValue(n);
      assert Concat([]) + Numeral(n) == Numeral(n);
    } else {
      ThreesValue(n / 1000);
      var front, last := Threes(n / 1000), Padded(n % 1000, 3);
      assert (front + [last])[..|front|] == front;
      PaddedValue(n % 1000, 3);
      ValueConcat(Concat(front), last);
    }
  }

  lemma {:induction false} OneGroup(n: nat)
    ensures AllGroupsDigits([Numeral(n)]) && Concat([Numeral(n)]) == Numeral(n) && ValueOf(Numeral(n)) == n
  {
    NumeralValue(n);
    assert Concat([]) + Numeral(n) == Numeral(n);
  }

  lemma {:induction false} IndianGroupsAre(n: nat)
    requires n >= 1000
    ensures var g := DigitGroups(Indian, n);
            AllGroupsDigits(g) && Shape(Indian, g) && AllDigits(Concat(g)) && ValueOf(Concat(g)) == n
  {
    hide Pairs, Padded, ValueOf;
    var front, last := Pairs(n / 1000), Padded(n % 1000, 3);
    PairsShape(n / 1000);
    PairsValue(n / 1000);
    assert (front + [last])[..|front|] == front;
    SmallPowers();
    PaddedValue(n % 1000, 3);
    ValueConcat(Concat(front), last);
  }

  /** Printed groups have the shape their grammar asks for (one group is plain) and denote the number. */
  lemma {:induction false} DigitGroupsAre(style: Style, n: nat)
    ensures var g := DigitGroups(style, n);
            && AllGroupsDigits(g)
            && Shape(if |g| == 1 then Plain else style, g)
            && AllDigits(Concat(g)) && ValueOf(Concat(g)) == n
  {
    hide Numeral, Padded, ValueOf, Concat, Pairs, Threes, AllGroupsDigits;
    OneGroup(n);
    if style == Western {
      ThreesShape(n);
      ThreesValue(n);
    } else if style == Indian && n >= 1000 {
      IndianGroupsAre(n);
    }
  }

  predicate Exact(paise: nat, places: nat) {
    places == 2 || (places == 1 && paise % 10 == 0) || (places == 0 && paise % 100 == 0)
  }

  lemma {:induction false} PaiseOf(n: real, paise: int)
    requires n * 100.0 == paise as real
    ensures RoundToPaise(n) == paise
  {
  }

  lemma {:induction false} DecimalDigits(whole: string, digits: nat, places: nat)
    requires 1 <= places && digits < Pow10(places) && AllDigits(whole)
    ensures var f := "." + Padded(digits, places);
            IsFraction(f) && DecimalValue(whole, f) == ValueOf(whole) as real + digits as real / Pow10(places) as real
  {
    hide Padded, Pow10, ValueOf;
    PaddedValue(digits, places);
    assert ("." + Padded(digits, places))[1..] == Padded(digits, places);
  }

  lemma {:induction false} FractionValue(paise: nat, places: nat, whole: string)
    requires places <= 2 && Exact(paise, places) && AllDigits(whole) && ValueOf(whole) == paise / 100
    ensures RoundToPaise(DecimalValue(whole, Fraction(paise, places))) == paise
  {
    hide DecimalValue, RoundToPaise, ValueOf, Padded, Pow10;
    SmallPowers();
    var value := DecimalValue(whole, Fraction(paise, places));
    if places == 0 {
      assert value == ValueOf(whole) as real by { NoFraction(whole); }
    } else if places == 1 {
      DecimalDigits(whole, paise % 100 / 10, 1);
      assert paise == 100 * (paise / 100) + 10 * (paise % 100 / 10);
    } else {
      DecimalDigits(whole, paise % 100, 2);
      assert paise == 100 * (paise / 100) + paise % 100;
    }
    PaiseOf(value, paise);
  }

  lemma {:induction false} NoFraction(whole: string)
    requires AllDigits(whole)
    ensures DecimalValue(whole, "") == ValueOf(whole) as real
  {
  }

  /** A text written from digit groups is an amount text with the value of those digits. */
  lemma {:induction false} WrittenReads(style: Style, g: seq<string>, f: string, text: string)
    requires Written(style, g, f, text)
    ensures IsAmountText(text) && AllDigits(Concat(g)) && AmountOf(text) == DecimalValue(Concat(g), f)
  {
    WrittenParts(style, g, f, text);
    AcceptsIsPieced(style, text);
    hide Written, Accepts, Pieced, WholePart, FractionPart, DecimalValue;
    assert IsAmountText(text) by {
      Styles(style, text);
    }
    assert CommaFree(g) by {
      GroupsHaveNoComma(style, g, f, text);
    }
    WithoutCommasOfJoin(g);
    DigitsStay(WholePart(text));
  }

  lemma {:induction false} Styles(style: Style, text: string)
    requires Pieced(style, text)
    ensures IsAmountText(text) && AllGroupsDigits(Groups(WholePart(text)))
  {
    hide Groups, WholePart, FractionPart, Shape, Pieced;
    AcceptsIsPieced(style, text);
    assert style == Plain || style == Western || style == Indian;
  }

  lemma {:induction false} GroupsHaveNoComma(style: Style, g: seq<string>, f: string, text: string)
    requires Written(style, g, f, text)
    ensures Pieced(style, text) && CommaFree(g)
  {
  }

  /** A rendering is an amount text that denotes the price. */
  lemma {:induction false} RenderingReads(style: Style, paise: nat, places: nat)
    requires places <= 2 && Exact(paise, places)
    ensures var text := Render(style, paise, places);
            && IsAmountText(text) && RoundToPaise(AmountOf(text)) == paise
            && text != "" && IsDigit(text[0]) && IsDigit(text[|text| - 1])
  {
    var g, f := DigitGroups(style, paise / 100), Fraction(paise, places);
    var text := Render(style, paise, places);
    var read := if |g| == 1 then Plain else style;
    DigitGroupsAre(style, paise / 100);
    assert Written(read, g, f, text);
    RenderEnds(read, g, f);
    hide DigitGroups, Fraction, Shape, Written, AmountOf, RoundToPaise, Join, Concat, IsAmountText, ValueOf;
    WrittenReads(read, g, f, text);
    FractionValue(paise, places, Concat(g));
  }

  lemma {:induction false} RenderEnds(style: Style, g: seq<string>, f: string)
    requires Shape(style, g) && AllGroupsDigits(g) && IsFraction(f)
    ensures var text := Join(g) + f;
            text != "" && IsDigit(text[0]) && IsDigit(text[|text| - 1])
  {
    hide Join;
    JoinEnds(g);
    var text := Join(g) + f;
    if f != "" {
      assert text[|text| - 1] == f[|f| - 1] == f[1..][|f| - 2];
    }
  }

  lemma {:induction false} JoinEnds(g: seq<string>)
    requires AllGroupsDigits(g) && g != [] && forall i :: 0 <= i < |g| ==> g[i] != ""
    ensures Join(g) != "" && IsDigit(Join(g)[0]) && IsDigit(Join(g)[|Join(g)| - 1])
  {
    if |g| > 1 {
      JoinEnds(g[..|g| - 1]);
    }
  }

  lemma {:induction false} NoLetters(s: string)
    requires s != "" && IsDigit(s[0])
    ensures !StartsWith(s, "rs") && !StartsWith(s, "inr") && s[0] != RUPEE && TrimStart(s) == s
  {
    assert "rs"[0] == 'r' && "inr"[0] == 'i';
    assert Lower(s[0]) == s[0];
  }

  lemma {:induction false} CurrencyRemoved(body: string)
    requires body != "" && IsDigit(body[0]) && IsDigit(body[|body| - 1])
    ensures WithoutCurrency(Trim(body)) == body && WithoutCurrency(Trim([RUPEE] + body)) == body
  {
    hide Trim, StartsWith, TrimStart;
    var text := [RUPEE] + body;
    assert text[|text| - 1] == body[|body| - 1] && text[1..] == body;
    TrimFixed(body);
    TrimFixed(text);
    NoLetters(body);
  }

  /** A way of naming the currency: the rupee sign, or Rs, Rs. or INR in any case. */
  predicate NamesCurrency(p: string) {
    || p == [RUPEE]
    || (|p| == 2 && (p[0] == 'r' || p[0] == 'R') && (p[1] == 's' || p[1] == 'S'))
    || (|p| == 3 && (p[0] == 'r' || p[0] == 'R') && (p[1] == 's' || p[1] == 'S') && p[2] == '.')
    || (|p| == 3 && (p[0] == 'i' || p[0] == 'I') && (p[1] == 'n' || p[1] == 'N') && (p[2] == 'r' || p[2] == 'R'))
  }

  lemma {:induction false} BlanksGo(blanks: string, body: string)
    requires (forall i :: 0 <= i < |blanks| ==> IsSpace(blanks[i])) && body != "" && !IsSpace(body[0])
    ensures TrimStart(blanks + body) == body
  {
    if blanks == "" {
      assert blanks + body == body;
    } else {
      BlanksGo(blanks[1..], body);
      assert (blanks + body)[1..] == blanks[1..] + body;
    }
  }

  lemma {:induction false} StartsRs(s: string)
    requires |s| >= 2 && (s[0] == 'r' || s[0] == 'R') && (s[1] == 's' || s[1] == 'S')
    ensures StartsWith(s, "rs") && s[0] != RUPEE
  {
    assert "rs"[0] == 'r' && "rs"[1] == 's';
  }

  lemma {:induction false} StartsInr(s: string)
    requires |s| >= 3 && (s[0] == 'i' || s[0] == 'I') && (s[1] == 'n' || s[1] == 'N') && (s[2] == 'r' || s[2] == 'R')
    ensures StartsWith(s, "inr") && !StartsWith(s, "rs") && s[0] != RUPEE
  {
    assert "rs"[0] == 'r' && "inr"[0] == 'i' && "inr"[1] == 'n' && "inr"[2] == 'r';
  }

  lemma {:induction false} RsDropped(p: string, rest: string)
    requires |p| == 2 && (p[0] == 'r' || p[0] == 'R') && (p[1] == 's' || p[1] == 'S') && rest != "" && rest[0] != '.'
    ensures WithoutCurrency(p + rest) == TrimStart(rest)
  {
    hide TrimStart, StartsWith;
    var s := p + rest;
    StartsRs(s);
    assert s[2..] == rest && s[2] == rest[0];
  }

  lemma {:induction false} RsDotDropped(p: string, rest: string)
    requires |p| == 3 && (p[0] == 'r' || p[0] == 'R') && (p[1] == 's' || p[1] == 'S') && p[2] == '.'
    ensures WithoutCurrency(p + rest) == TrimStart(rest)
  {
    hide TrimStart, StartsWith;
    var s := p + rest;
    StartsRs(s);
    assert s[3..] == rest && s[2] == '.';
  }

  lemma {:induction false} InrDropped(p: string, rest: string)
    requires |p| == 3 && (p[0] == 'i' || p[0] == 'I') && (p[1] == 'n' || p[1] == 'N') && (p[2] == 'r' || p[2] == 'R')
    ensures WithoutCurrency(p + rest) == TrimStart(rest)
  {
    hide TrimStart, StartsWith;
    var s := p + rest;
    StartsInr(s);
    assert s[3..] == rest;
  }

  /** However the currency is named, and whatever blanks follow, it is dropped, and the amount is left. */
  lemma {:induction false} CurrencyDropped(p: string, blanks: string, body: string)
    requires NamesCurrency(p) && (forall i :: 0 <= i < |blanks| ==> IsSpace(blanks[i])) && body != "" && IsDigit(body[0])
    ensures WithoutCurrency(p + blanks + body) == body && WithoutCurrency(body) == body
  {
    hide TrimStart, StartsWith;
    var rest := blanks + body;
    BlanksGo(blanks, body);
    NoLetters(body);
    assert rest[0] != '.' && p + blanks + body == p + rest;
    RupeeDropped(rest);
    hide WithoutCurrency;
    if |p| == 2 {
      RsDropped(p, rest);
    } else if |p| == 3 && p[2] == '.' {
      RsDotDropped(p, rest);
    } else if |p| == 3 {
      InrDropped(p, rest);
    }
  }

  lemma {:induction false} RupeeDropped(rest: string)
    ensures WithoutCurrency([RUPEE] + rest) == TrimStart(rest)
  {
    hide TrimStart, IsSpace;
    assert ([RUPEE] + rest)[1..] == rest;
  }

  /** Every way of writing a price, with or without the currency sign, reads back as that price. */
  lemma {:induction false} RenderingParses(style: Style, paise: nat, places: nat, sign: bool)
    requires 1 <= paise <= MAX_PRICE && places <= 2 && Exact(paise, places)
    ensures ParsePriceInput(Text((if sign then [RUPEE] else "") + Render(style, paise, places))) == Ok(paise)
  {
    hide Render, IsAmountText, AmountOf, Trim, WithoutCurrency, RoundToPaise;
    var body := Render(style, paise, places);
    RenderingReads(style, paise, places);
    CurrencyRemoved(body);
    assert "" + body == body;
  }

  /** What the picklist prints, the form reads back. */
  lemma {:induction false} PrintThenParse(paise: nat)
    requires 1 <= paise <= MAX_PRICE
    ensures var printed := FormatRupees(paise as real / 100.0);
            printed.Some? && ParsePriceInput(Text(printed.value)) == Ok(paise)
  {
    hide Render, ParsePriceInput;
    assert (paise as real / 100.0) * 100.0 == paise as real;
    RenderingParses(Indian, paise, 2, true);
  }

  lemma {:induction false} RenderInjective(p: nat, q: nat)
    requires Render(Indian, p, 2) == Render(Indian, q, 2)
    ensures p == q
  {
    hide Render, IsAmountText, AmountOf, RoundToPaise;
    RenderingReads(Indian, p, 2);
    RenderingReads(Indian, q, 2);
  }

  /** "A blank is null, never 0.00" holds of every price except those below half a paisa. */
  lemma {:induction false} PrintsFreeExactlyWhen(value: real)
    ensures FormatRupees(value) == None <==> value <= 0.0
    ensures FormatRupees(value) == Some([RUPEE] + Render(Indian, 0, 2)) <==> 0.0 < value < 0.005
  {
    hide Render;
    if value > 0.0 && FormatRupees(value) == Some([RUPEE] + Render(Indian, 0, 2)) {
      var paise := RoundToPaise(value);
      assert ([RUPEE] + Render(Indian, paise, 2))[1..] == Render(Indian, paise, 2);
      assert ([RUPEE] + Render(Indian, 0, 2))[1..] == Render(Indian, 0, 2);
      RenderInjective(paise, 0);
    }
  }

  // ---------------------------------------------------------------------------------------
  // The lenient reader
  // ---------------------------------------------------------------------------------------

  /** `String(raw).replace(/[,\s₹]/g, '')`: what the lenient reader hands to `Number`. */
  function LenientText(s: string): string {
    if s == "" then ""
    else
      var n := |s| - 1;
      if s[n] == ',' || IsSpace(s[n]) || s[n] == RUPEE then LenientText(s[..n]) else LenientText(s[..n]) + [s[n]]
  }

  lemma {:induction false} LenientConcat(s: string, t: string)
    ensures LenientText(s + t) == LenientText(s) + LenientText(t)
    decreases |t|
  {
    if t == "" {
      assert s + t == s;
    } else {
      var n := |t| - 1;
      assert (s + t)[..|s + t| - 1] == s + t[..n];
      LenientConcat(s, t[..n]);
    }
  }

  lemma {:induction false} LenientDropsSpace(s: string)
    requires forall i :: 0 <= i < |s| ==> IsSpace(s[i])
    ensures LenientText(s) == ""
  {
    if s != "" {
      LenientDropsSpace(s[..|s| - 1]);
    }
  }

  lemma {:induction false} LenientTrimsStart(s: string)
    ensures LenientText(TrimStart(s)) == LenientText(s)
  {
    hide LenientText, IsSpace;
    var t := TrimStart(s);
    var lead := s[..|s| - |t|];
    assert s == lead + t;
    LenientConcat(lead, t);
    LenientDropsSpace(lead);
    assert "" + LenientText(t) == LenientText(t);
  }

  lemma {:induction false} LenientTrimsEnd(s: string)
    ensures LenientText(TrimEnd(s)) == LenientText(s)
  {
    hide LenientText, IsSpace;
    var u := TrimEnd(s);
    var tail := s[|u|..];
    assert s == u + tail;
    LenientConcat(u, tail);
    LenientDropsSpace(tail);
    assert LenientText(u) + "" == LenientText(u);
  }

  lemma {:induction false} LenientTrims(s: string)
    ensures LenientText(TrimStart(s)) == LenientText(s) && LenientText(Trim(s)) == LenientText(s)
  {
    LenientTrimsStart(s);
    LenientTrimsEnd(TrimStart(s));
  }

  lemma {:induction false} LenientKeepsAmount(s: string)
    requires forall i :: 0 <= i < |s| ==> IsDigit(s[i]) || s[i] == ',' || s[i] == '.'
    ensures LenientText(s) == WithoutCommas(s)
  {
    if s != "" {
      LenientKeepsAmount(s[..|s| - 1]);
    }
  }

  lemma {:induction false} JoinCharacters(g: seq<string>)
    requires AllGroupsDigits(g)
    ensures forall i :: 0 <= i < |Join(g)| ==> IsDigit(Join(g)[i]) || Join(g)[i] == ','
  {
    if |g| > 1 {
      JoinCharacters(g[..|g| - 1]);
    }
  }

  lemma {:induction false} AmountCharacters(text: string)
    requires IsAmountText(text)
    ensures forall i :: 0 <= i < |text| ==> IsDigit(text[i]) || text[i] == ',' || text[i] == '.'
  {
    var w, f := WholePart(text), FractionPart(text);
    assert text == w + f;
    JoinOfGroups(w);
    JoinCharacters(Groups(w));
    forall i | 0 <= i < |f| ensures IsDigit(f[i]) || f[i] == '.' {
      assert i > 0 ==> f[1..][i - 1] == f[i];
    }
  }

  lemma {:induction false} LenientReadsTheSame(s: string)
    requires var t := Trim(s);
             IsAmountText(t) || (t != "" && t[0] == RUPEE && IsAmountText(TrimStart(t[1..])))
    ensures LenientText(s) == WithoutCommas(WithoutCurrency(Trim(s)))
  {
    hide LenientText, Trim, IsAmountText, TrimStart, WithoutCommas, StartsWith;
    var t := Trim(s);
    LenientTrims(s);
    if t != "" && t[0] == RUPEE && IsAmountText(TrimStart(t[1..])) {
      var body := TrimStart(t[1..]);
      assert t == [RUPEE] + t[1..];
      LenientConcat([RUPEE], t[1..]);
      LenientDropsSign();
      LenientTrims(t[1..]);
      AmountCharacters(body);
      LenientKeepsAmount(body);
      assert "" + LenientText(t[1..]) == LenientText(t[1..]);
    } else {
      AmountCharacters(t);
      LenientKeepsAmount(t);
      AmountStarts(t);
      NoLetters(t);
    }
  }

  predicate SpelledOut(t: string) {
    StartsWith(t, "rs") || StartsWith(t, "inr")
  }

  /**
   * Of all texts the strict reader takes, the lenient one hands exactly those to `Number` as the very same
   * digits that do not spell the currency out; of those that do it keeps the letters, and they are no
   * number to it.
   */
  lemma {:induction false} LenientReadsTheSameExactlyWhen(s: string)
    requires IsAmountText(WithoutCurrency(Trim(s)))
    ensures LenientText(s) == WithoutCommas(WithoutCurrency(Trim(s))) <==> !SpelledOut(Trim(s))
    ensures SpelledOut(Trim(s)) ==> LenientText(s) != "" && (Lower(LenientText(s)[0]) == 'r' || Lower(LenientText(s)[0]) == 'i')
  {
    hide LenientText, Trim, IsAmountText, TrimStart, WithoutCommas;
    var t := Trim(s);
    if SpelledOut(t) {
      assert "rs"[0] == 'r' && "inr"[0] == 'i';
      LenientTrims(s);
      assert t == [t[0]] + t[1..];
      LenientConcat([t[0]], t[1..]);
      LenientKeepsLetter(t[0]);
      AmountStarts(WithoutCurrency(t));
      CommaFreeStart(WithoutCurrency(t));
    } else {
      LenientReadsTheSame(s);
    }
  }

  lemma {:induction false} LenientKeepsLetter(c: char)
    requires Lower(c) == 'r' || Lower(c) == 'i'
    ensures LenientText([c]) == [c] && !IsDigit(c)
  {
    assert [c][..0] == "";
  }

  lemma {:induction false} CommaFreeStart(text: string)
    requires text != "" && IsDigit(text[0])
    ensures WithoutCommas(text) != "" && IsDigit(WithoutCommas(text)[0])
  {
    if |text| > 1 { CommaFreeStart(text[..|text| - 1]); }
  }

  lemma {:induction false} AmountStarts(text: string)
    requires IsAmountText(text)
    ensures text != "" && IsDigit(text[0])
  {
    var w, f := WholePart(text), FractionPart(text);
    hide Groups, DotAt, Join;
    assert text == w + f;
    JoinOfGroups(w);
    JoinStarts(Groups(w));
  }

  lemma {:induction false} JoinStarts(g: seq<string>)
    requires AllGroupsDigits(g) && g != [] && g[0] != ""
    ensures Join(g) != "" && IsDigit(Join(g)[0])
  {
    if |g| > 1 {
      JoinStarts(g[..|g| - 1]);
    }
  }

  lemma {:induction false} LenientDropsSign()
    ensures LenientText([RUPEE]) == ""
  {
    assert [RUPEE][..0] == "";
  }

  lemma {:induction false} StrictRefuses(w: string, t: string)
    requires w != "" && IsDigit(w[0]) && ',' !in w && '.' !in w
    requires t != "" && |t| != 3 && AllDigits(t)
    ensures ParsePriceInput(Text(w + "," + t)) == Err(NotAnAmount)
  {
    hide Trim, WithoutCurrency, ParsePriceInput, Groups, DotAt, AllDigits;
    var s := w + "," + t;
    assert s[|s| - 1] == t[|t| - 1] && s[0] == w[0] && s[|w|] == ',';
    assert '.' !in s && ',' !in t && IsDigit(t[|t| - 1]) by {
      DigitsOnly(t);
    }
    CurrencyRemoved(s);
    DotAtSplit(s, "");
    assert s + "" == s;
    GroupsAppend(w, t);
    LastGroupIsThreeDigits(s);
  }

  lemma {:induction false} DigitsOnly(t: string)
    requires AllDigits(t) && t != ""
    ensures ',' !in t && '.' !in t && IsDigit(t[|t| - 1])
  {
  }

  /**
   * But not the other way round: digits, a comma and a decimal part of any length but three, which
   * the strict reader refuses, the lenient one reads as one whole number (12,5 as 125).
   */
  lemma {:induction false} LenientMisreads(w: string, t: string)
    requires w != "" && t != "" && |t| != 3 && AllDigits(w) && AllDigits(t)
    ensures ParsePriceInput(Text(w + "," + t)) == Err(NotAnAmount)
    ensures LenientText(w + "," + t) == w + t
  {
    hide ParsePriceInput, LenientText, WithoutCommas;
    DigitsOnly(w);
    StrictRefuses(w, t);
    LenientConcat(w + ",", t);
    LenientConcat(w, ",");
    LenientOfDigits(w);
    LenientOfDigits(t);
    LenientDropsComma();
    assert LenientText(w) + "" == w;
  }

  lemma {:induction false} LenientDropsComma()
    ensures LenientText(",") == ""
  {
    assert ","[..0] == "";
  }

  lemma {:induction false} LenientOfDigits(t: string)
    requires AllDigits(t)
    ensures LenientText(t) == t
  {
    if t != "" {
      LenientOfDigits(t[..|t| - 1]);
      assert t == t[..|t| - 1] + [t[|t| - 1]];
    }
  }
}
