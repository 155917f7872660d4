/** Token amounts as decimal text: the printer, the trimmer and the parser of `lib.rs`. */
module Amounts {
  import opened Base

  // ---- decimal digits ----

  predicate IsDigit(c: char) { '0' <= c <= '9' }
  predicate AllDigits(s: string) { forall i :: 0 <= i < |s| ==> IsDigit(s[i]) }

  function DigitOf(c: char): nat
    requires IsDigit(c)
  {
    c as int - '0' as int
  }

  function CharOf(d: nat): (c: char)
    requires d < 10
    ensures IsDigit(c) && DigitOf(c) == d
  {
    ('0' as int + d) as char
  }

  function Pow10(n: nat): (p: nat)
    ensures p > 0
  {
    if n == 0 then 1 else 10 * Pow10(n - 1)
  }

  /** The number a string of digits spells; the empty string spells zero. */
  function Val(s: string): nat
    requires AllDigits(s)
  {
    if s == "" then 0 else 10 * Val(s[..|s| - 1]) + DigitOf(s[|s| - 1])
  }

  function Digits(n: nat): (s: string)
    ensures |s| >= 1 && AllDigits(s)
  {
    if n < 10 then [CharOf(n)] else Digits(n / 10) + [CharOf(n % 10)]
  }

  function Zeros(n: nat): (s: string)
    ensures |s| == n && AllDigits(s) && forall i :: 0 <= i < n ==> s[i] == '0'
  {
    if n == 0 then "" else Zeros(n - 1) + "0"
  }

  lemma {:induction false} ValDigits(n: nat)
    ensures Val(Digits(n)) == n
  {
    var s := Digits(n);
    if n >= 10 {
      assert s[..|s| - 1] == Digits(n / 10);
      ValDigits(n / 10);
    } else {
      assert s[..|s| - 1] == "";
    }
  }

  /** Digits in a row: the first part is worth its value times ten to the length of the second. */
  lemma {:induction false} ValConcat(s: string, t: string)
    requires AllDigits(s) && AllDigits(t)
    ensures AllDigits(s + t) && Val(s + t) == Val(s) * Pow10(|t|) + Val(t)
    decreases |t|
  {
    if t == "" {
      assert s + t == s;
    } else {
      var front := t[..|t| - 1];
      ValConcat(s, front);
      assert (s + t)[..|s + t| - 1] == s + front && (s + t)[|s + t| - 1] == t[|t| - 1];
      Appended(Val(s), Pow10(|front|), Val(front), DigitOf(t[|t| - 1]));
    }
  }

  lemma Appended(a: nat, p: nat, b: nat, d: nat)
    ensures 10 * (a * p + b) + d == a * (10 * p) + (10 * b + d)
  {}

  lemma {:induction false} ValZeros(n: nat)
    ensures Val(Zeros(n)) == 0
  {
    if n > 0 {
      assert Zeros(n)[..n - 1] == Zeros(n - 1);
      ValZeros(n - 1);
    }
  }

  // ---- printing ----

  /** Left-padded with zeros, as `{:01$}` does. */
  function Padded(n: nat, width: nat): (s: string)
    ensures |s| >= width && |s| >= 1 && AllDigits(s)
  {
    var s := Digits(n);
    if |s| < width then Zeros(width - |s|) + s else s
  }

  function Print(amount: u64, decimals: u8): string {
    if decimals > 0 then
      var s := Padded(amount, decimals + 1);
      s[..|s| - decimals] + "." + s[|s| - decimals..]
    else Digits(amount)
  }

  function TrimEnd(s: string, c: char): string {
    if s != "" && s[|s| - 1] == c then TrimEnd(s[..|s| - 1], c) else s
  }

  function PrintTrimmed(amount: u64, decimals: u8): string {
    if decimals > 0 then TrimEnd(TrimEnd(Print(amount, decimals), '0'), '.') else Print(amount, decimals)
  }

  /** `trim_end_matches`, as a loop from the end. */
  method Trim(s: string, c: char) returns (r: string)
    ensures r == TrimEnd(s, c)
  {
    r := s;
    while r != "" && r[|r| - 1] == c
      invariant TrimEnd(r, c) == TrimEnd(s, c)
      decreases |r|
    {
      r := r[..|r| - 1];
    }
  }

  method AmountToUiString(amount: u64, decimals: u8) returns (s: string)
    ensures s == Print(amount, decimals)
  {
    if decimals > 0 {
      s := Padded(amount, decimals + 1);
      var at := |s| - decimals;
      s := s[..at] + "." + s[at..];
    } else {
      s := Digits(amount);
    }
  }

  method AmountToUiStringTrimmed(amount: u64, decimals: u8) returns (s: string)
    ensures s == PrintTrimmed(amount, decimals)
  {
    s := AmountToUiString(amount, decimals);
    if decimals > 0 {
      s := Trim(s, '0');
      s := Trim(s, '.');
    }
  }

  // ---- parsing ----

  /** `str::parse::<u64>`: an optional plus sign, then at least one digit, no more than the largest u64. */
  function ParseU64(s: string): Option<u64> {
    if s == "" then None
    else
      var t := if s[0] == '+' && |s| > 1 then s[1..] else s;
      if AllDigits(t) && Val(t) <= U64_MAX then Some(Val(t)) else None
  }

  /** Position of the first dot, or the length without one. */
  function Dot(s: string): (i: nat)
    ensures i <= |s| && (i < |s| ==> s[i] == '.') && forall j :: 0 <= j < i ==> s[j] != '.'
  {
    if s == "" || s[0] == '.' then 0 else 1 + Dot(s[1..])
  }

  function Before(s: string): string { s[..Dot(s)] }
  function After(s: string): string { if Dot(s) < |s| then s[Dot(s) + 1..] else "" }

  /** Whole part, trimmed fraction and the zeros that fill the scale, in one text. */
  function Joined(whole: string, fraction: string, decimals: u8): Option<string> {
    if (whole == "" && fraction == "") || |fraction| > decimals then None
    else Some(whole + fraction + Zeros(decimals - |fraction|))
  }

  /** That text read as one number. */
  function Combined(whole: string, fraction: string, decimals: u8): Option<u64> {
    var text := Joined(whole, fraction, decimals);
    if text.None? then None else ParseU64(text.value)
  }

  /** `try_ui_amount_into_amount`: at most one dot. */
  function ParseUi(s: string, decimals: u8): Option<u64> {
    var rest := After(s);
    if Dot(rest) < |rest| then None else Combined(Before(s), TrimEnd(Before(rest), '0'), decimals)
  }

  method UiStringToAmount(s: string, decimals: u8) returns (r: Option<u64>)
    ensures r == ParseUi(s, decimals)
  {
    var text, rest := Before(s), After(s);
    var fraction := Trim(Before(rest), '0');
    if (text == "" && fraction == "") || Dot(rest) < |rest| || |fraction| > decimals { return None; }
    text := text + fraction;
    ghost var start := text;
    for i := 0 to decimals - |fraction|
      invariant text == start + Zeros(i)
    {
      text := text + "0";
    }
    r := ParseU64(text);
  }

  // ---- trimming ----

  /** Trimming takes off nothing but the trimmed character, and all of it. */
  lemma {:induction false} TrimmedZeros(s: string)
    ensures |TrimEnd(s, '0')| <= |s| && s == TrimEnd(s, '0') + Zeros(|s| - |TrimEnd(s, '0')|)
    ensures TrimEnd(TrimEnd(s, '0'), '0') == TrimEnd(s, '0')
  {
    if s != "" && s[|s| - 1] == '0' {
      var front := s[..|s| - 1];
      TrimmedZeros(front);
      assert s == front + "0";
      assert TrimEnd(front, '0') + Zeros(|front| - |TrimEnd(front, '0')|) + "0"
             == TrimEnd(front, '0') + Zeros(|s| - |TrimEnd(front, '0')|);
    }
  }

  lemma {:induction false} TrimStops(s: string, t: string, c: char)
    requires s != "" && s[|s| - 1] != c
    ensures TrimEnd(s + t, c) == s + TrimEnd(t, c)
    decreases |t|
  {
    if t == "" {
      assert s + t == s;
    } else if t[|t| - 1] == c {
      assert (s + t)[..|s + t| - 1] == s + t[..|t| - 1];
      TrimStops(s, t[..|t| - 1], c);
    }
  }

  lemma {:induction false} TrimDigits(s: string)
    requires AllDigits(s)
    ensures AllDigits(TrimEnd(s, '0'))
  {
    if s != "" && s[|s| - 1] == '0' { TrimDigits(s[..|s| - 1]); }
  }

  // ---- reading a dotted text ----

  lemma {:induction false} DotIn(w: string, f: string)
    requires AllDigits(w)
    ensures Before(w + "." + f) == w && After(w + "." + f) == f
  {
    var s := w + "." + f;
    if w == "" {
      assert s == "." + f && s[1..] == f;
    } else {
      assert IsDigit(w[0]);
      DotIn(w[1..], f);
      assert s[1..] == w[1..] + "." + f;
      assert s[..Dot(s)] == [w[0]] + s[1..][..Dot(s) - 1];
    }
  }

  lemma {:induction false} NoDot(w: string)
    requires AllDigits(w)
    ensures Dot(w) == |w| && Before(w) == w && After(w) == ""
  {
    if w != "" {
      assert IsDigit(w[0]);
      NoDot(w[1..]);
    }
  }

  lemma ParseDigits(s: string)
    requires AllDigits(s) && s != ""
    ensures ParseU64(s) == if Val(s) <= U64_MAX then Some(Val(s)) else None
  {
    assert IsDigit(s[0]);
  }

  /** The number that whole part and fraction stand for at a scale. */
  function Scale(w: string, t: string, decimals: nat): nat
    requires AllDigits(w) && AllDigits(t) && |t| <= decimals
  {
    Val(w) * Pow10(decimals) + Val(t) * Pow10(decimals - |t|)
  }

  lemma CombinedExactly(w: string, t: string, decimals: u8)
    requires AllDigits(w) && AllDigits(t)
    ensures Combined(w, t, decimals).Some? <==>
            (w != "" || t != "") && |t| <= decimals && Scale(w, t, decimals) <= U64_MAX
    ensures Combined(w, t, decimals).Some? ==> Combined(w, t, decimals).value == Scale(w, t, decimals)
  {
    if |t| <= decimals && (w != "" || t != "") {
      JoinedValue(w, t, decimals);
      ParseDigits(w + t + Zeros(decimals - |t|));
    }
  }

  lemma ParseDotted(w: string, f: string, decimals: u8)
    requires AllDigits(w) && AllDigits(f)
    ensures ParseUi(w + "." + f, decimals) == Combined(w, TrimEnd(f, '0'), decimals)
  {
    DotIn(w, f);
    NoDot(f);
  }

  /** A whole part and a fraction, both digits: accepted exactly when there is a digit that counts, the fraction fits
      the scale and the scaled number fits 64 bits; the amount is that number. */
  lemma ParseExactly(w: string, f: string, decimals: u8)
    requires AllDigits(w) && AllDigits(f)
    ensures var t := TrimEnd(f, '0');
            && AllDigits(t)
            && (ParseUi(w + "." + f, decimals).Some? <==>
                  (w != "" || t != "") && |t| <= decimals && Scale(w, t, decimals) <= U64_MAX)
            && (ParseUi(w + "." + f, decimals).Some? ==> ParseUi(w + "." + f, decimals).value == Scale(w, t, decimals))
  {
    ParseDotted(w, f, decimals);
    TrimDigits(f);
    CombinedExactly(w, TrimEnd(f, '0'), decimals);
  }

  lemma JoinedValue(w: string, t: string, decimals: nat)
    requires AllDigits(w) && AllDigits(t) && |t| <= decimals
    ensures AllDigits(w + t + Zeros(decimals - |t|))
    ensures Val(w + t + Zeros(decimals - |t|)) == Val(w) * Pow10(decimals) + Val(t) * Pow10(decimals - |t|)
  {
    var z := Zeros(decimals - |t|);
    ValShifted(t, decimals - |t|);
    ValConcat(w, t + z);
    Regrouped(w, t, z);
  }

  lemma Regrouped(a: string, b: string, c: string)
    ensures a + (b + c) == a + b + c
  {}

  /** The same for a text without a dot. */
  lemma ParseWhole(w: string, decimals: u8)
    requires AllDigits(w)
    ensures ParseUi(w, decimals) == Combined(w, "", decimals)
    ensures ParseUi(w, decimals).Some? <==> w != "" && Val(w) * Pow10(decimals) <= U64_MAX
    ensures ParseUi(w, decimals).Some? ==> ParseUi(w, decimals).value == Val(w) * Pow10(decimals)
  {
    NoDot(w);
    assert Dot("") == 0 && Before("") == "" && TrimEnd("", '0') == "";
    CombinedExactly(w, "", decimals);
  }

  /** What is accepted is exact: the amount over ten to the scale is the fraction as written, trailing zeros and all. */
  lemma ParsedIsDenoted(w: string, f: string, decimals: u8)
    requires AllDigits(w) && AllDigits(f) && ParseUi(w + "." + f, decimals).Some?
    ensures ParseUi(w + "." + f, decimals).value * Pow10(|f|) == (Val(w) * Pow10(|f|) + Val(f)) * Pow10(decimals)
  {
    ParseExactly(w, f, decimals);
    ScaleDenotes(w, f, decimals);
  }

  lemma ScaleDenotes(w: string, f: string, decimals: nat)
    requires AllDigits(w) && AllDigits(f) && AllDigits(TrimEnd(f, '0')) && |TrimEnd(f, '0')| <= decimals
    ensures Scale(w, TrimEnd(f, '0'), decimals) * Pow10(|f|) == (Val(w) * Pow10(|f|) + Val(f)) * Pow10(decimals)
  {
    var t := TrimEnd(f, '0');
    TrimmedZeros(f);
    TrimmedValue(f);
    var n: nat, d: nat := |f| - |t|, decimals - |t|;
    Pow10Add(|t|, n);
    Pow10Add(|t|, d);
    Scaled(Scale(w, t, decimals), Val(w), Val(t), Val(f), Pow10(|t|), Pow10(n), Pow10(d), Pow10(|f|), Pow10(decimals));
  }

  lemma ValShifted(s: string, n: nat)
    requires AllDigits(s)
    ensures AllDigits(s + Zeros(n)) && Val(s + Zeros(n)) == Val(s) * Pow10(n)
  {
    ValConcat(s, Zeros(n));
    ValZeros(n);
  }

  lemma TrimmedValue(f: string)
    requires AllDigits(f) && AllDigits(TrimEnd(f, '0'))
    ensures |TrimEnd(f, '0')| <= |f| && Val(f) == Val(TrimEnd(f, '0')) * Pow10(|f| - |TrimEnd(f, '0')|)
  {
    TrimmedZeros(f);
    ValShifted(TrimEnd(f, '0'), |f| - |TrimEnd(f, '0')|);
  }

  lemma {:induction false} Pow10Add(a: nat, b: nat)
    ensures Pow10(a + b) == Pow10(a) * Pow10(b)
  {
    if a > 0 { Pow10Add(a - 1, b); }
  }

  lemma Scaled(scale: nat, w: nat, t: nat, f: nat, p: nat, n: nat, d: nat, pn: nat, pd: nat)
    requires scale == w * pd + t * d && f == t * n && pn == p * n && pd == p * d
    ensures scale * pn == (w * pn + f) * pd
  {
    calc {
      scale * pn;
      (w * pd + t * d) * pn;
      w * pd * pn + t * d * pn;
      { assert t * d * pn == t * d * (p * n) == t * n * (p * d) == f * pd; }
      w * pn * pd + f * pd;
      (w * pn + f) * pd;
    }
  }

  // ---- round trips ----

  lemma ValPadded(n: nat, width: nat)
    ensures Val(Padded(n, width)) == n
  {
    var digits := Digits(n);
    ValDigits(n);
    if |digits| < width {
      var z := Zeros(width - |digits|);
      ValConcat(z, digits);
      ValZeros(width - |digits|);
      assert Val(z) * Pow10(|digits|) == 0;
    }
  }

  /** The printed text is a whole part, a dot and `decimals` digits that together spell the amount. */
  lemma PrintShape(amount: u64, decimals: u8) returns (w: string, f: string)
    requires decimals > 0
    ensures AllDigits(w) && AllDigits(f) && w != "" && |f| == decimals
    ensures Print(amount, decimals) == w + "." + f
    ensures AllDigits(w + f) && Val(w + f) == amount
  {
    var s := Padded(amount, decimals + 1);
    w, f := s[..|s| - decimals], s[|s| - decimals..];
    ValPadded(amount, decimals + 1);
    assert w + f == s;
  }

  /** A fraction as long as the scale is read digit for digit, trailing zeros or not. */
  lemma FractionCounts(w: string, f: string, decimals: u8)
    requires AllDigits(w) && AllDigits(f) && w != "" && |f| == decimals && AllDigits(w + f) && Val(w + f) <= U64_MAX
    ensures Combined(w, TrimEnd(f, '0'), decimals) == Some(Val(w + f))
  {
    var t := TrimEnd(f, '0');
    TrimDigits(f);
    TrimmedZeros(f);
    assert w + f == w + t + Zeros(decimals - |t|);
    ParseDigits(w + f);
  }

  /** Printing and parsing undo each other at every scale. */
  lemma PrintThenParse(amount: u64, decimals: u8)
    ensures ParseUi(Print(amount, decimals), decimals) == Some(amount)
  {
    if decimals == 0 {
      ValDigits(amount);
      ParseWhole(Digits(amount), 0);
      assert Val(Digits(amount)) * Pow10(0) == amount;
    } else {
      var w, f := PrintShape(amount, decimals);
      FractionCounts(w, f, decimals);
      ParseDotted(w, f, decimals);
    }
  }

  lemma TrimDot(w: string)
    requires AllDigits(w) && w != ""
    ensures TrimEnd(w + ".", '.') == w && TrimEnd(w, '.') == w
  {
    assert (w + ".")[..|w|] == w;
    assert IsDigit(w[|w| - 1]);
  }

  lemma KeepDot(w: string, t: string)
    requires AllDigits(t) && t != ""
    ensures TrimEnd(w + "." + t, '.') == w + "." + t
  {
    assert (w + "." + t)[|w + "." + t| - 1] == t[|t| - 1];
    assert IsDigit(t[|t| - 1]);
  }

  /** What trimming leaves of a dotted text: the dot goes with the last zero. */
  lemma TrimmedText(w: string, f: string)
    requires AllDigits(w) && AllDigits(f) && w != ""
    ensures var t := TrimEnd(f, '0');
            TrimEnd(TrimEnd(w + "." + f, '0'), '.') == if t == "" then w else w + "." + t
  {
    var t := TrimEnd(f, '0');
    TrimStops(w + ".", f, '0');
    TrimDigits(f);
    if t == "" {
      TrimDot(w);
      assert w + "." + t == w + ".";
    } else {
      KeepDot(w, t);
    }
  }

  // ---- the printed text itself ----

  /** A canonical numeral: digits, without a leading zero unless it is the only one. */
  predicate Numeral(w: string) {
    w != "" && AllDigits(w) && (|w| > 1 ==> w[0] != '0')
  }

  lemma {:induction false} DigitsNumeral(n: nat)
    ensures Numeral(Digits(n)) && Val(Digits(n)) == n
    ensures n > 0 ==> Digits(n)[0] != '0'
  {
    ValDigits(n);
    if n >= 10 { DigitsNumeral(n / 10); }
  }

  /** Cut before its last `d` digits, a padded numeral is a numeral again. */
  lemma PaddedFront(n: nat, d: nat)
    ensures var s := Padded(n, d + 1); Numeral(s[..|s| - d])
  {
    var s, digits := Padded(n, d + 1), Digits(n);
    DigitsNumeral(n);
    if |digits| < d + 1 {
      assert s[..|s| - d] == "0";
    }
  }

  lemma {:induction false} ValBelow(s: string)
    requires AllDigits(s)
    ensures Val(s) < Pow10(|s|)
  {
    if s != "" { ValBelow(s[..|s| - 1]); }
  }

  lemma SplitAt(w: nat, p: nat, f: nat, n: nat)
    requires n == w * p + f && f < p
    ensures n / p == w && n % p == f
  {
    Quotient(w, p, f, n, n / p, n % p);
  }

  lemma Quotient(w: nat, p: nat, f: nat, n: nat, q: nat, r: nat)
    requires n == w * p + f && f < p && n == q * p + r && r < p
    ensures q == w && r == f
  {
    if q < w { Larger(q, w, p); }
    if w < q { Larger(w, q, p); }
  }

  lemma Larger(x: nat, y: nat, p: nat)
    requires x < y
    ensures y * p >= x * p + p
  {
    assert y * p == x * p + p + (y - x - 1) * p;
  }

  /** The text is the numeral of the whole tokens, a dot, and exactly `decimals` digits of what is left. */
  lemma PrintExactly(amount: u64, decimals: u8) returns (w: string, f: string)
    requires decimals > 0
    ensures Print(amount, decimals) == w + "." + f
    ensures Numeral(w) && Val(w) == amount / Pow10(decimals)
    ensures |f| == decimals && AllDigits(f) && Val(f) == amount % Pow10(decimals)
  {
    var s := Padded(amount, decimals + 1);
    w, f := s[..|s| - decimals], s[|s| - decimals..];
    assert w + f == s;
    ValPadded(amount, decimals + 1);
    PaddedFront(amount, decimals);
    ValConcat(w, f);
    ValBelow(f);
    SplitAt(Val(w), Pow10(decimals), Val(f), amount);
  }

  /** What is left of a fraction: nothing of zero, and otherwise digits that end in another digit than zero. */
  lemma TrimmedFraction(f: string)
    requires AllDigits(f)
    ensures var t := TrimEnd(f, '0');
            && AllDigits(t) && |t| <= |f| && (t == "" <==> Val(f) == 0) && (t != "" ==> t[|t| - 1] != '0')
            && Val(t) * Pow10(|f| - |t|) == Val(f)
  {
    TrimDigits(f);
    TrimmedZeros(f);
    TrimmedValue(f);
    var t := TrimEnd(f, '0');
    if t != "" { Positive(Val(t), Pow10(|f| - |t|)); }
  }

  lemma Positive(x: nat, y: nat)
    requires x > 0 && y > 0
    ensures x * y > 0
  {}

  lemma TrimmedWhole(amount: u64)
    ensures PrintTrimmed(amount, 0) == Digits(amount) && Numeral(Digits(amount)) && Val(Digits(amount)) == amount
  {
    DigitsNumeral(amount);
  }

  /** Trimming leaves the numeral of the whole tokens and, where anything is left, a dot and digits that end in
      another digit than zero. */
  lemma TrimmedExactly(amount: u64, decimals: u8) returns (w: string, t: string)
    ensures PrintTrimmed(amount, decimals) == if amount % Pow10(decimals) == 0 then w else w + "." + t
    ensures Numeral(w) && Val(w) == amount / Pow10(decimals)
    ensures |t| <= decimals && AllDigits(t) && (t != "" ==> t[|t| - 1] != '0')
    ensures Val(t) * Pow10(decimals - |t|) == amount % Pow10(decimals)
  {
    if decimals == 0 {
      TrimmedWhole(amount);
      w, t := Digits(amount), "";
    } else {
      var f;
      w, f := PrintExactly(amount, decimals);
      t := TrimEnd(f, '0');
      TrimmedFraction(f);
      TrimmedText(w, f);
    }
  }

  /** The trimmed text as well, for every amount and every scale. */
  lemma TrimmedThenParse(amount: u64, decimals: u8)
    ensures ParseUi(PrintTrimmed(amount, decimals), decimals) == Some(amount)
  {
    if decimals == 0 {
      PrintThenParse(amount, decimals);
    } else {
      var w, f := PrintShape(amount, decimals);
      var t := TrimEnd(f, '0');
      TrimmedText(w, f);
      FractionCounts(w, f, decimals);
      TrimDigits(f);
      if t == "" {
        ParseWhole(w, decimals);
      } else {
        ParseDotted(w, t, decimals);
        TrimmedZeros(f);
      }
    }
  }

  // ---- every text ----

  /** A part of the text without the plus sign in front of it. */
  function Unsigned(s: string): string {
    if s != "" && s[0] == '+' then s[1..] else s
  }

  function WholePart(s: string): string { Before(s) }
  function FractionPart(s: string): string { Before(After(s)) }

  /** The fraction as the parser keeps it. */
  function Kept(s: string): string { TrimEnd(FractionPart(s), '0') }

  /** The digits the parser reads: whole part and kept fraction in a row, less a sign in front. */
  function Read(s: string): string { Unsigned(WholePart(s) + Kept(s)) }

  /** What a text must look like to be accepted at a scale: at most one dot, something besides trailing zeros, a
      fraction that fits, no sign but in front of everything read, a digit once the scale is filled up, and 64 bits.
      */
  predicate Accepts(s: string, decimals: u8) {
    && Dot(After(s)) == |After(s)|
    && WholePart(s) + Kept(s) != ""
    && |Kept(s)| <= decimals
    && AllDigits(Read(s)) && |Read(s)| + (decimals - |Kept(s)|) > 0
    && Val(Read(s)) * Pow10(decimals - |Kept(s)|) <= U64_MAX
  }

  lemma ParseFilled(u: string, n: nat)
    requires u != ""
    ensures var v := Unsigned(u);
            ParseU64(u + Zeros(n)) ==
            if AllDigits(v) && |v| + n > 0 && Val(v) * Pow10(n) <= U64_MAX then Some(Val(v) * Pow10(n)) else None
  {
    var v, text := Unsigned(u), u + Zeros(n);
    var t := if text[0] == '+' && |text| > 1 then text[1..] else text;
    if u[0] == '+' && |u| + n == 1 {
      assert text == u && !IsDigit(text[0]);
    } else {
      assert t == v + Zeros(n);
      if AllDigits(v) {
        ValShifted(v, n);
      } else {
        var i :| 0 <= i < |v| && !IsDigit(v[i]);
        assert !IsDigit(t[i]);
      }
    }
  }

  /** Every text at every scale: what is accepted, and the amount it gives. */
  lemma ParseUiExactly(s: string, decimals: u8)
    ensures ParseUi(s, decimals).Some? <==> Accepts(s, decimals)
    ensures ParseUi(s, decimals).Some? ==>
              ParseUi(s, decimals).value == Val(Read(s)) * Pow10(decimals - |Kept(s)|)
  {
    var u := WholePart(s) + Kept(s);
    if u != "" && |Kept(s)| <= decimals { ParseFilled(u, decimals - |Kept(s)|); }
  }

  /** The plus sign stands in the fraction. */
  predicate SignInFraction(s: string) {
    FractionPart(s) != "" && FractionPart(s)[0] == '+'
  }

  /** The digits a text shows before and after the dot. */
  function WholeDigits(s: string): string { Unsigned(WholePart(s)) }
  function FractionDigits(s: string): string { Unsigned(FractionPart(s)) }

  predicate HasDigit(s: string) { WholeDigits(s) != "" || FractionDigits(s) != "" }

  /** `amount` is the number the digits of the text spell, at the scale; without a digit they spell none. */
  predicate Spells(s: string, amount: nat, decimals: nat) {
    && HasDigit(s) && AllDigits(WholeDigits(s)) && AllDigits(FractionDigits(s))
    && amount * Pow10(|FractionDigits(s)|) ==
       (Val(WholeDigits(s)) * Pow10(|FractionDigits(s)|) + Val(FractionDigits(s))) * Pow10(decimals)
  }

  lemma DigitsSplit(a: string, b: string)
    requires AllDigits(a + b)
    ensures AllDigits(a) && AllDigits(b)
  {
    assert forall i :: 0 <= i < |a| ==> (a + b)[i] == a[i];
    assert forall i :: 0 <= i < |b| ==> (a + b)[|a| + i] == b[i];
  }

  lemma UnsignedFront(a: string, t: string)
    requires t != "" ==> t[0] != '+'
    ensures Unsigned(a + t) == Unsigned(a) + t
  {
    if a == "" {
      assert a + t == t && Unsigned(a) + t == t;
    } else {
      assert (a + t)[0] == a[0] && (a + t)[1..] == a[1..] + t;
    }
  }

  lemma KeptFront(f: string)
    ensures TrimEnd(f, '0') != "" ==> f != "" && TrimEnd(f, '0')[0] == f[0]
    ensures AllDigits(TrimEnd(f, '0')) ==> AllDigits(f)
  {
    TrimmedZeros(f);
    var t, z := TrimEnd(f, '0'), Zeros(|f| - |TrimEnd(f, '0')|);
    assert f == t + z;
  }

  lemma DigitsInPlace(s: string, decimals: u8)
    requires Accepts(s, decimals) && !SignInFraction(s)
    ensures Read(s) == WholeDigits(s) + Kept(s)
    ensures AllDigits(WholeDigits(s)) && AllDigits(FractionPart(s)) && AllDigits(Kept(s))
  {
    KeptFront(FractionPart(s));
    UnsignedFront(WholePart(s), Kept(s));
    DigitsSplit(WholeDigits(s), Kept(s));
  }

  lemma JoinedScale(w: string, t: string, decimals: nat)
    requires AllDigits(w) && AllDigits(t) && AllDigits(w + t) && |t| <= decimals
    ensures Val(w + t) * Pow10(decimals - |t|) == Scale(w, t, decimals)
  {
    ValShifted(w + t, decimals - |t|);
    JoinedValue(w, t, decimals);
  }

  /** Without a sign in the fraction the digits are read where they stand. */
  lemma ReadInPlace(s: string, decimals: u8)
    requires Accepts(s, decimals) && !SignInFraction(s)
    ensures AllDigits(WholeDigits(s)) && AllDigits(FractionPart(s)) && AllDigits(Kept(s))
    ensures Val(Read(s)) * Pow10(decimals - |Kept(s)|) == Scale(WholeDigits(s), Kept(s), decimals)
  {
    DigitsInPlace(s, decimals);
    JoinedScale(WholeDigits(s), Kept(s), decimals);
  }

  lemma SignInside(a: string, t: string)
    requires a != "" && t != "" && t[0] == '+'
    ensures !AllDigits(Unsigned(a + t))
  {
    assert Unsigned(a + t)[|Unsigned(a)|] == '+';
  }

  /** A sign in the fraction takes a digit's place. */
  lemma ReadShifted(s: string, decimals: u8)
    requires Accepts(s, decimals) && SignInFraction(s)
    ensures var f := FractionDigits(s);
            && WholePart(s) == "" && AllDigits(f) && Read(s) == TrimEnd(f, '0')
            && |Kept(s)| == |Read(s)| + 1
  {
    var f := FractionDigits(s);
    assert FractionPart(s) == "+" + f;
    TrimStops("+", f, '0');
    var t := TrimEnd(f, '0');
    assert Kept(s) == "+" + t;
    if WholePart(s) != "" { SignInside(WholePart(s), Kept(s)); }
    assert WholePart(s) + Kept(s) == Kept(s);
    TrimmedZeros(f);
  }

  lemma TenthSpelled(s: string, decimals: u8)
    requires Accepts(s, decimals) && SignInFraction(s)
    ensures var f, n := FractionDigits(s), decimals - |Kept(s)|;
            AllDigits(f) && 10 * (Val(Read(s)) * Pow10(n)) * Pow10(|f|) == Val(f) * Pow10(decimals)
  {
    ReadShifted(s, decimals);
    var f, t := FractionDigits(s), Read(s);
    ScaleFraction(t, decimals);
    ScaleDenotes("", f, decimals);
    assert Val("") * Pow10(|f|) == 0;
  }

  lemma ScaleFraction(f: string, decimals: nat)
    requires AllDigits(f) && |f| < decimals
    ensures Scale("", f, decimals) == 10 * (Val(f) * Pow10(decimals - 1 - |f|))
  {
    var n := decimals - 1 - |f|;
    assert Val("") * Pow10(decimals) == 0 && Pow10(decimals - |f|) == 10 * Pow10(n);
    Tenth(Val(f), Pow10(n));
  }

  lemma Tenth(v: nat, p: nat)
    ensures v * (10 * p) == 10 * (v * p)
  {}

  /** With a sign in the fraction ten times the amount is what the text spells. */
  lemma SignedReads(s: string, decimals: u8)
    requires ParseUi(s, decimals).Some? && SignInFraction(s)
    ensures var v, f := ParseUi(s, decimals).value, FractionDigits(s);
            && WholeDigits(s) == "" && AllDigits(f)
            && (HasDigit(s) ==> Spells(s, 10 * v, decimals))
            && (Spells(s, v, decimals) <==> HasDigit(s) && Val(f) == 0)
            && (!HasDigit(s) ==> v == 0)
  {
    var v, f := ParseUi(s, decimals).value, FractionDigits(s);
    ParseUiExactly(s, decimals);
    ReadShifted(s, decimals);
    TenthSpelled(s, decimals);
    assert Val(WholeDigits(s)) * Pow10(|f|) == 0;
    NotTenth(v, Pow10(|f|), Val(f), Pow10(decimals));
  }

  lemma UnsignedReads(s: string, decimals: u8)
    requires ParseUi(s, decimals).Some? && !SignInFraction(s)
    ensures var v := ParseUi(s, decimals).value;
            && AllDigits(WholeDigits(s)) && AllDigits(FractionDigits(s))
            && (Spells(s, v, decimals) <==> HasDigit(s))
            && (!HasDigit(s) ==> v == 0)
  {
    ParseUiExactly(s, decimals);
    ReadInPlace(s, decimals);
    ScaleDenotes(WholeDigits(s), FractionPart(s), decimals);
    if !HasDigit(s) { NothingRead(s, decimals); }
  }

  /** Exactly when an accepted text gives the amount it spells: it shows a digit, and no plus sign stands in a fraction
      that counts. Otherwise it is a lone sign read as zero, or read as a tenth of what it spells. */
  lemma ReadsAsWritten(s: string, decimals: u8)
    requires ParseUi(s, decimals).Some?
    ensures AllDigits(WholeDigits(s)) && AllDigits(FractionDigits(s))
    ensures var v := ParseUi(s, decimals).value;
            && (Spells(s, v, decimals) <==> HasDigit(s) && !(SignInFraction(s) && Val(FractionDigits(s)) != 0))
            && (!HasDigit(s) ==> v == 0)
            && (SignInFraction(s) && HasDigit(s) ==> Spells(s, 10 * v, decimals))
  {
    if SignInFraction(s) { SignedReads(s, decimals); } else { UnsignedReads(s, decimals); }
  }

  lemma NothingRead(s: string, decimals: u8)
    requires Accepts(s, decimals) && !HasDigit(s) && !SignInFraction(s)
    ensures Val(Read(s)) * Pow10(decimals - |Kept(s)|) == 0
  {
    assert Kept(s) == "" && Read(s) == "";
  }

  lemma NotTenth(v: nat, p: nat, f: nat, q: nat)
    requires 10 * v * p == f * q && p > 0 && q > 0
    ensures v * p == f * q <==> f == 0
  {
    if f != 0 { assert f * q > 0; } else { assert f * q == 0; }
  }

  // ---- both ways to be misread are real ----

  lemma SignOnly(s: string)
    requires |s| == 1 && s[0] == '+'
    ensures WholePart(s) == s && FractionPart(s) == "" && Kept(s) == "" && Read(s) == "" && After(s) == ""
  {
    assert s[1..] == "" && Dot(s) == 1;
  }

  /** A plus sign with no digit at all is read as zero at every scale but the whole one. */
  lemma LonePlus(decimals: u8)
    ensures !HasDigit("+") && ParseUi("+", decimals) == if decimals > 0 then Some(0) else None
  {
    SignOnly("+");
    ParseUiExactly("+", decimals);
    assert Val("") * Pow10(decimals) == 0;
  }

  lemma SignThenFraction(s: string, f: string)
    requires |s| == |f| + 2 && s[0] == '.' && s[1] == '+' && s[2..] == f && AllDigits(f)
    ensures SignInFraction(s) && FractionDigits(s) == f && WholePart(s) == "" && Dot(After(s)) == |After(s)|
    ensures Kept(s) == "+" + TrimEnd(f, '0') && Read(s) == TrimEnd(f, '0')
  {
    assert After(s) == s[1..] && s[1..][1..] == f;
    NoDot(f);
    assert Before(After(s)) == After(s) == "+" + f;
    TrimStops("+", f, '0');
    assert WholePart(s) + Kept(s) == Kept(s);
  }

  lemma NothingCounts(f: string)
    requires AllDigits(f) && TrimEnd(f, '0') == ""
    ensures Val(f) == 0
  {
    TrimmedValue(f);
  }

  /** A dot, a plus sign and a fraction that is not zero: whenever the text is accepted it is misread, and it is
      accepted as soon as a digit's place is left for the sign. */
  lemma SignMisread(s: string, f: string, decimals: u8)
    requires |s| == |f| + 2 && s[0] == '.' && s[1] == '+' && s[2..] == f && AllDigits(f) && Val(f) != 0
    ensures AllDigits(TrimEnd(f, '0'))
    ensures ParseUi(s, decimals).Some? <==>
            |TrimEnd(f, '0')| < decimals && Val(TrimEnd(f, '0')) * Pow10(decimals - 1 - |TrimEnd(f, '0')|) <= U64_MAX
    ensures ParseUi(s, decimals).Some? ==> !Spells(s, ParseUi(s, decimals).value, decimals)
  {
    SignThenFraction(s, f);
    TrimDigits(f);
    ParseUiExactly(s, decimals);
    var t := TrimEnd(f, '0');
    if t == "" { NothingCounts(f); }
    assert |Kept(s)| == |t| + 1 && (|t| < decimals ==> decimals - |Kept(s)| == decimals - 1 - |t|);
    if ParseUi(s, decimals).Some? { ReadsAsWritten(s, decimals); }
  }
}
