/** The numbers of the calculator. The source computes with Rust's `f64`;
    here a value is the term that produced it, so no arithmetic is
    interpreted and a property about values says which operation was applied
    to which operands, in which order. */
module Floats {
  import opened Wrappers

  datatype F64 =
    | Lit(r: real)                 // a parsed literal, by its exact decimal value
    | Sum(a: F64, b: F64)          // a + b
    | Difference(a: F64, b: F64)   // a - b
    | Product(a: F64, b: F64)      // a * b
    | Quotient(a: F64, b: F64)     // a / b
    | Power(a: F64, b: F64)        // a.powf(b)
    | Minimum(a: F64, b: F64)      // a.min(b)
    | Maximum(a: F64, b: F64)      // a.max(b)
    | Sine(a: F64)                 // a.sin()
    | Cosine(a: F64)               // a.cos()
    | Tangent(a: F64)              // a.tan()
    | SquareRoot(a: F64)           // a.sqrt()

  predicate IsDigit(c: char) { '0' <= c <= '9' }

  /** The characters the lexer collects into its number buffer. */
  predicate IsNumChar(c: char) { IsDigit(c) || c == '.' }

  /** The length of the run of ASCII digits that starts s. */
  function LeadingDigits(s: string): (n: nat)
    ensures n <= |s|
    ensures forall i :: 0 <= i < n ==> IsDigit(s[i])
    ensures n < |s| ==> !IsDigit(s[n])
  {
    if s != [] && IsDigit(s[0]) then 1 + LeadingDigits(s[1..]) else 0
  }

  function DigitsValue(d: string): nat
    requires forall i :: 0 <= i < |d| ==> IsDigit(d[i])
  {
    if d == [] then 0
    else
      assert IsDigit(d[|d| - 1]);
      DigitsValue(d[..|d| - 1]) * 10 + (d[|d| - 1] as int - '0' as int)
  }

  function Pow10(n: nat): (r: nat)
    ensures r >= 1
  {
    if n == 0 then 1 else 10 * Pow10(n - 1)
  }

  /** Text over digits and '.' that Rust's f64 parser accepts: the grammar
      `Digit+ | Digit+ '.' Digit* | Digit* '.' Digit+`, that is, at most one
      decimal point and at least one digit. */
  ghost predicate IsDecimal(text: string)
  {
    multiset(text)['.'] <= 1 && exists i :: 0 <= i < |text| && IsDigit(text[i])
  }

  /** The value of the decimal `whole.frac`. */
  function DecimalValue(whole: string, frac: string): real
    requires forall i :: 0 <= i < |whole| ==> IsDigit(whole[i])
    requires forall i :: 0 <= i < |frac| ==> IsDigit(frac[i])
  {
    DigitsValue(whole) as real + DigitsValue(frac) as real / Pow10(|frac|) as real
  }

  /** `text.parse::<f64>()` on the only texts the lexer hands it: runs of
      digits and decimal points. It reads the integer digits, an optional
      point and the fraction digits, and fails on anything left over. */
  function ParseF64(text: string): (r: Option<F64>)
    requires forall i :: 0 <= i < |text| ==> IsNumChar(text[i])
    ensures r.Some? <==> IsDecimal(text)
    ensures r.Some? ==> r.value.Lit?
  {
    var n := LeadingDigits(text);
    if n == |text| then
      if n == 0 then None else Some(Lit(DigitsValue(text) as real))
    else
      var frac := text[n + 1..];
      var m := LeadingDigits(frac);
      ParseShape(text, n, m);
      if m < |frac| || (n == 0 && m == 0) then None
      else Some(Lit(DecimalValue(text[..n], frac)))
  }

  lemma NoPoints(s: string)
    requires forall i :: 0 <= i < |s| ==> IsDigit(s[i])
    ensures multiset(s)['.'] == 0
  {
  }

  lemma PointCount(text: string, n: nat)
    requires n < |text| && text[n] == '.'
    requires forall i :: 0 <= i < n ==> IsDigit(text[i])
    ensures multiset(text)['.'] == 1 + multiset(text[n + 1..])['.']
  {
    var whole, frac := text[..n], text[n + 1..];
    assert text == whole + ['.'] + frac;
    NoPoints(whole);
    assert multiset(text) == multiset(whole) + multiset{'.'} + multiset(frac);
  }

  /** Why ParseF64's branches decide IsDecimal. */
  lemma ParseShape(text: string, n: nat, m: nat)
    requires forall i :: 0 <= i < |text| ==> IsNumChar(text[i])
    requires n == LeadingDigits(text) < |text|
    requires m == LeadingDigits(text[n + 1..])
    ensures IsDecimal(text) <==> m == |text| - n - 1 && (n > 0 || m > 0)
  {
    var whole, frac := text[..n], text[n + 1..];
    assert text[n] == '.' by { assert IsNumChar(text[n]); }
    PointCount(text, n);
    if m < |frac| {
      assert frac[m] == '.' by { assert IsNumChar(text[n + 1 + m]); }
      assert multiset(frac)['.'] >= 1;
    } else {
      NoPoints(frac);
      if n > 0 {
        assert IsDigit(text[0]);
      } else if m > 0 {
        assert IsDigit(text[n + 1]);
      } else {
        assert forall i :: 0 <= i < |text| ==> !IsDigit(text[i]);
      }
    }
  }

  lemma {:induction false} LeadingDigitsOf(w: string, rest: string)
    requires forall i :: 0 <= i < |w| ==> IsDigit(w[i])
    requires rest == [] || !IsDigit(rest[0])
    ensures LeadingDigits(w + rest) == |w|
    decreases |w|
  {
    if w == [] {
      assert w + rest == rest;
    } else {
      assert (w + rest)[0] == w[0] && (w + rest)[1..] == w[1..] + rest;
      LeadingDigitsOf(w[1..], rest);
    }
  }

  /** A run of digits reads as the integer it spells in base ten. */
  lemma ParseWhole(w: string)
    requires w != [] && forall i :: 0 <= i < |w| ==> IsDigit(w[i])
    ensures ParseF64(w) == Some(Lit(DigitsValue(w) as real))
  {
    LeadingDigitsOf(w, []);
    assert w + [] == w;
  }

  /** `w.f` reads as w plus f over ten to the number of fraction digits;
      either side may be empty, not both. */
  lemma ParseFraction(w: string, f: string)
    requires forall i :: 0 <= i < |w| ==> IsDigit(w[i])
    requires forall i :: 0 <= i < |f| ==> IsDigit(f[i])
    requires w != [] || f != []
    ensures ParseF64(w + "." + f) == Some(Lit(DecimalValue(w, f)))
  {
    var text := w + "." + f;
    assert LeadingDigits(text) == |w| by {
      LeadingDigitsOf(w, "." + f);
      assert text == w + ("." + f);
    }
    assert LeadingDigits(f) == |f| by {
      LeadingDigitsOf(f, []);
      assert f + [] == f;
    }
    assert text[|w| + 1..] == f;
    assert text[..|w|] == w;
    assert forall i :: 0 <= i < |text| ==> IsNumChar(text[i]);
  }
}
