/** Switching between the number and the identifier buffer without a
    symbol in between (`1sin2`, `sin1cos`). `tokennize` (the Lexing module)
    flushes the buffer it leaves but does not empty it, so the next run in
    that mode continues the old text. This module states what the loop does
    to such inputs, defines the evidently intended loop, which empties the
    buffer it leaves, proves that it reads them as their parts, and proves
    that the two loops agree on every text without identifier characters. */
module ModeSwitches {
  import opened Wrappers
  import opened Floats
  import opened Tokens
  import opened Lexing

  predicate IsDigitText(s: string) { forall i :: 0 <= i < |s| ==> IsDigit(s[i]) }

  lemma {:induction false} DigitsJoin(a: string, b: string)
    requires IsDigitText(a) && IsDigitText(b)
    ensures IsDigitText(a + b)
  {
    forall i | 0 <= i < |a + b|
      ensures IsDigit((a + b)[i])
    {
      if i < |a| {
        assert (a + b)[i] == a[i];
      } else {
        assert (a + b)[i] == b[i - |a|];
      }
    }
  }

  /** No non-empty text appended to a function name gives a function name. */
  lemma ConcatenatedNames(n1: string, n2: string)
    requires ParseFunction(n1).Some? && n2 != []
    ensures ParseFunction(n1 + n2).None?
  {
    assert (n1 + n2)[..|n1|] == n1;
    assert "sqrt"[..3] == "sqr";
  }

  // ---- The loop as written (Lexing.Feed) ----

  lemma StaleFirstNumber(w: string)
    requires w != [] && IsDigitText(w)
    ensures Scan(Start, w) == Ok(Scanner(w, "", true, false, []))
  {
    var next := Scanner([w[0]], "", true, false, []);
    assert IsNumChar(w[0]) && Start.numStack + [w[0]] == [w[0]];
    assert Feed(Start, w[0]) == Ok(next);
    ScanNumberRun(next, w[1..]);
    assert [w[0]] + w[1..] == w;
  }

  lemma StaleFirstName(n: string)
    requires n != [] && IsNameText(n)
    ensures Scan(Start, n) == Ok(Scanner("", n, false, true, []))
  {
    var next := Scanner("", [n[0]], false, true, []);
    assert IsNameChar(n[0]) && Start.fncStack + [n[0]] == [n[0]];
    assert Feed(Start, n[0]) == Ok(next);
    ScanNameRun(next, n[1..]);
    assert [n[0]] + n[1..] == n;
  }

  /** A name after a number, as written: the number is flushed and the
      identifier buffer grows from whatever text it still holds. */
  lemma StaleNameAfterNumber(num: string, fnc: string, out: seq<Token>, n: string)
    requires num != [] && IsDigitText(num) && n != [] && IsNameText(n)
    ensures Scan(Scanner(num, fnc, true, false, out), n)
         == Ok(Scanner(num, fnc + n, false, true, out + [Number(Lit(DigitsValue(num) as real))]))
  {
    var st := Scanner(num, fnc, true, false, out);
    var next := Scanner(num, fnc + [n[0]], false, true, out + [Number(Lit(DigitsValue(num) as real))]);
    ParseWhole(num);
    assert IsNameChar(n[0]);
    assert Feed(st, n[0]) == Ok(next);
    ScanNameRun(next, n[1..]);
    assert fnc + [n[0]] + n[1..] == fnc + n;
  }

  /** A number after a name, as written: the name is flushed and the
      number buffer grows from whatever text it still holds. */
  lemma StaleNumberAfterName(num: string, fnc: string, out: seq<Token>, w: string)
    requires IsDigitText(num) && ParseFunction(fnc).Some? && w != [] && IsDigitText(w)
    ensures Scan(Scanner(num, fnc, false, true, out), w)
         == Ok(Scanner(num + w, fnc, true, false, out + [ParseFunction(fnc).value]))
  {
    var st := Scanner(num, fnc, false, true, out);
    var next := Scanner(num + [w[0]], fnc, true, false, out + [ParseFunction(fnc).value]);
    assert IsNumChar(w[0]);
    assert Feed(st, w[0]) == Ok(next);
    ScanNumberRun(next, w[1..]);
    assert num + [w[0]] + w[1..] == num + w;
  }

  lemma StaleNumberThenName(w: string, n: string)
    requires w != [] && IsDigitText(w) && n != [] && IsNameText(n)
    ensures Scan(Start, w + n) == Ok(Scanner(w, n, false, true, [Number(Lit(DigitsValue(w) as real))]))
  {
    StaleFirstNumber(w);
    StaleNameAfterNumber(w, "", [], n);
    assert "" + n == n && [] + [Number(Lit(DigitsValue(w) as real))] == [Number(Lit(DigitsValue(w) as real))];
    ScanAppend(Start, w, n);
  }

  lemma StaleNameThenNumber(n: string, w: string)
    requires n != [] && IsNameText(n) && ParseFunction(n).Some? && w != [] && IsDigitText(w)
    ensures Scan(Start, n + w) == Ok(Scanner(w, n, true, false, [ParseFunction(n).value]))
  {
    StaleFirstName(n);
    StaleNumberAfterName("", n, [], w);
    assert "" + w == w && [] + [ParseFunction(n).value] == [ParseFunction(n).value];
    ScanAppend(Start, n, w);
  }

  lemma StaleNumberNameNumberScan(w1: string, n: string, w2: string)
    requires w1 != [] && IsDigitText(w1) && w2 != [] && IsDigitText(w2)
    requires n != [] && IsNameText(n) && ParseFunction(n).Some?
    ensures Scan(Start, w1 + n + w2)
         == Ok(Scanner(w1 + w2, n, true, false, [Number(Lit(DigitsValue(w1) as real)), ParseFunction(n).value]))
  {
    var x, f := Number(Lit(DigitsValue(w1) as real)), ParseFunction(n).value;
    StaleNumberThenName(w1, n);
    StaleNumberAfterName(w1, n, [x], w2);
    assert [x] + [f] == [x, f];
    ScanAppend(Start, w1 + n, w2);
  }

  /** As written, `1sin2` lexes as `1 sin 12`: the second number carries
      the digits of the first. */
  lemma StaleNumberNameNumber(w1: string, n: string, w2: string)
    requires w1 != [] && IsDigitText(w1) && w2 != [] && IsDigitText(w2)
    requires n != [] && IsNameText(n) && ParseFunction(n).Some?
    ensures Lex(w1 + n + w2) == Ok([Number(Lit(DigitsValue(w1) as real)), ParseFunction(n).value,
                                         Number(Lit(DigitsValue(w1 + w2) as real))])
  {
    var x, f := Number(Lit(DigitsValue(w1) as real)), ParseFunction(n).value;
    var y := Number(Lit(DigitsValue(w1 + w2) as real));
    StaleNumberNameNumberScan(w1, n, w2);
    DigitsJoin(w1, w2);
    ParseWhole(w1 + w2);
    assert Flush(Scanner(w1 + w2, n, true, false, [x, f])) == Ok([y]);
    assert [x, f] + [y] == [x, f, y];
  }

  lemma StaleNameNumberNameScan(n1: string, w: string, n2: string)
    requires n1 != [] && IsNameText(n1) && ParseFunction(n1).Some?
    requires n2 != [] && IsNameText(n2)
    requires w != [] && IsDigitText(w)
    ensures Scan(Start, n1 + w + n2)
         == Ok(Scanner(w, n1 + n2, false, true, [ParseFunction(n1).value, Number(Lit(DigitsValue(w) as real))]))
  {
    var f, x := ParseFunction(n1).value, Number(Lit(DigitsValue(w) as real));
    StaleNameThenNumber(n1, w);
    StaleNameAfterNumber(w, n1, [f], n2);
    assert [f] + [x] == [f, x];
    ScanAppend(Start, n1 + w, n2);
  }

  /** As written, `sin1cos` fails: the second name is read as `sincos`,
      which is no function. */
  lemma StaleNameNumberName(n1: string, w: string, n2: string)
    requires n1 != [] && IsNameText(n1) && ParseFunction(n1).Some?
    requires n2 != [] && IsNameText(n2)
    requires w != [] && IsDigitText(w)
    ensures Lex(n1 + w + n2) == Err(InvalidFunction(n1 + n2))
  {
    StaleNameNumberNameScan(n1, w, n2);
    ConcatenatedNames(n1, n2);
  }

  // ---- The intended loop ----

  /** One iteration of the intended loop: leaving a mode for the other
      empties the buffer it leaves, as the symbol branch does for both. */
  function ResetFeed(st: Scanner, c: char): (r: Result<Scanner, LexError>)
    requires Valid(st)
    ensures r.Ok? ==> Valid(r.value)
  {
    if c == ' ' then
      Ok(st)
    else if IsNumChar(c) then
      if st.parsingFnc then
        match ParseFunction(st.fncStack)
        case None => Err(InvalidFunction(st.fncStack))
        case Some(f) =>
          Ok(st.(output := st.output + [f], parsingFnc := false, fncStack := "", parsingNum := true, numStack := st.numStack + [c]))
      else
        Ok(st.(parsingNum := true, numStack := st.numStack + [c]))
    else if IsSymbol(c) then
      match Flush(st)
      case Err(e) => Err(e)
      case Ok(flushed) => Ok(Scanner("", "", false, false, st.output + flushed + [ParseOp(c).value]))
    else if st.parsingNum then
      match ParseF64(st.numStack)
      case None => Err(InvalidNumber(st.numStack))
      case Some(v) =>
        Ok(st.(output := st.output + [Number(v)], parsingNum := false, numStack := "", parsingFnc := true, fncStack := st.fncStack + [c]))
    else
      Ok(st.(parsingFnc := true, fncStack := st.fncStack + [c]))
  }

  function ResetScan(st: Scanner, input: string): (r: Result<Scanner, LexError>)
    requires Valid(st)
    ensures r.Ok? ==> Valid(r.value)
    decreases |input|
  {
    if input == [] then Ok(st)
    else
      match ResetFeed(st, input[0])
      case Err(e) => Err(e)
      case Ok(next) => ResetScan(next, input[1..])
  }

  /** `tokennize` with the intended loop. */
  function ResetLex(input: string): Result<seq<Token>, LexError>
  {
    match ResetScan(Start, input)
    case Err(e) => Err(e)
    case Ok(st) =>
      match Flush(st)
      case Err(e) => Err(e)
      case Ok(flushed) => Ok(st.output + flushed)
  }

  /** The two steps fail alike and emit alike; they differ only in that
      the intended one empties the buffer of the mode it leaves. */
  lemma ResetFeedAgrees(st: Scanner, c: char)
    requires Valid(st)
    ensures Feed(st, c).Err? ==> ResetFeed(st, c) == Feed(st, c)
    ensures ResetFeed(st, c).Ok? <==> Feed(st, c).Ok?
    ensures Feed(st, c).Ok? ==>
      var a := Feed(st, c).value;
      ResetFeed(st, c).value == a.(numStack := if st.parsingNum && !a.parsingNum then "" else a.numStack,
                                   fncStack := if st.parsingFnc && !a.parsingFnc then "" else a.fncStack)
  {
  }

  /** Every buffer whose mode is off is empty. */
  predicate Tidy(st: Scanner)
  {
    (!st.parsingNum ==> st.numStack == "") && (!st.parsingFnc ==> st.fncStack == "")
  }

  lemma ResetFeedKeepsTidy(st: Scanner, c: char)
    requires Valid(st) && Tidy(st) && ResetFeed(st, c).Ok?
    ensures Tidy(ResetFeed(st, c).value)
  {
  }

  /** The intended loop never carries text over from a mode it has left. */
  lemma {:induction false} ResetScanKeepsTidy(st: Scanner, input: string)
    requires Valid(st) && Tidy(st) && ResetScan(st, input).Ok?
    ensures Tidy(ResetScan(st, input).value)
    decreases |input|
  {
    if input != [] {
      ResetFeedKeepsTidy(st, input[0]);
      ResetScanKeepsTidy(ResetFeed(st, input[0]).value, input[1..]);
    }
  }

  /** Without identifier characters the scanner never enters identifier
      mode, so the two loops take the same steps. */
  lemma {:induction false} ScansAgreeWithoutNames(st: Scanner, input: string)
    requires Valid(st) && !st.parsingFnc
    requires forall i :: 0 <= i < |input| ==> !IsNameChar(input[i])
    ensures Scan(st, input) == ResetScan(st, input)
    decreases |input|
  {
    if input != [] {
      assert !IsNameChar(input[0]);
      match Feed(st, input[0])
      case Err(_) =>
      case Ok(next) =>
        assert ResetFeed(st, input[0]) == Ok(next) && !next.parsingFnc;
        ScansAgreeWithoutNames(next, input[1..]);
    }
  }

  /** The buffer left in place is harmless on texts of numbers and symbols
      only, such as the one of src/main.rs. */
  lemma LexAgreesWithoutNames(input: string)
    requires forall i :: 0 <= i < |input| ==> !IsNameChar(input[i])
    ensures Lex(input) == ResetLex(input)
  {
    ScansAgreeWithoutNames(Start, input);
  }

  lemma {:induction false} ResetScanAppend(st: Scanner, a: string, b: string)
    requires Valid(st)
    ensures ResetScan(st, a + b) == match ResetScan(st, a) case Err(e) => Err(e) case Ok(mid) => ResetScan(mid, b)
    decreases |a|
  {
    if a != [] {
      assert (a + b)[0] == a[0] && (a + b)[1..] == a[1..] + b;
      match ResetFeed(st, a[0])
      case Err(_) =>
      case Ok(next) => ResetScanAppend(next, a[1..], b);
    } else {
      assert a + b == b;
    }
  }

  lemma {:induction false} ResetNumberRun(st: Scanner, s: string)
    requires Valid(st) && st.parsingNum && IsNumText(s)
    ensures ResetScan(st, s) == Ok(st.(numStack := st.numStack + s))
    decreases |s|
  {
    if s == [] {
      assert st.numStack + s == st.numStack;
    } else {
      var next := st.(numStack := st.numStack + [s[0]]);
      assert ResetFeed(st, s[0]) == Ok(next);
      ResetNumberRun(next, s[1..]);
      assert next.numStack + s[1..] == st.numStack + s;
    }
  }

  lemma {:induction false} ResetNameRun(st: Scanner, s: string)
    requires Valid(st) && st.parsingFnc && IsNameText(s)
    ensures ResetScan(st, s) == Ok(st.(fncStack := st.fncStack + s))
    decreases |s|
  {
    if s == [] {
      assert st.fncStack + s == st.fncStack;
    } else {
      var next := st.(fncStack := st.fncStack + [s[0]]);
      assert ResetFeed(st, s[0]) == Ok(next);
      ResetNameRun(next, s[1..]);
      assert next.fncStack + s[1..] == st.fncStack + s;
    }
  }

  lemma FirstNumber(w: string)
    requires w != [] && IsDigitText(w)
    ensures ResetScan(Start, w) == Ok(Scanner(w, "", true, false, []))
  {
    var next := Scanner([w[0]], "", true, false, []);
    assert IsNumChar(w[0]) && Start.numStack + [w[0]] == [w[0]];
    assert ResetFeed(Start, w[0]) == Ok(next);
    ResetNumberRun(next, w[1..]);
    assert [w[0]] + w[1..] == w;
  }

  lemma FirstName(n: string)
    requires n != [] && IsNameText(n)
    ensures ResetScan(Start, n) == Ok(Scanner("", n, false, true, []))
  {
    var next := Scanner("", [n[0]], false, true, []);
    assert IsNameChar(n[0]) && Start.fncStack + [n[0]] == [n[0]];
    assert ResetFeed(Start, n[0]) == Ok(next);
    ResetNameRun(next, n[1..]);
    assert [n[0]] + n[1..] == n;
  }

  /** A name after a number: the identifier buffer starts empty. */
  lemma NameAfterNumber(num: string, out: seq<Token>, n: string)
    requires num != [] && IsDigitText(num) && n != [] && IsNameText(n)
    ensures ResetScan(Scanner(num, "", true, false, out), n)
         == Ok(Scanner("", n, false, true, out + [Number(Lit(DigitsValue(num) as real))]))
  {
    var st := Scanner(num, "", true, false, out);
    var next := Scanner("", [n[0]], false, true, out + [Number(Lit(DigitsValue(num) as real))]);
    ParseWhole(num);
    assert IsNameChar(n[0]) && "" + [n[0]] == [n[0]];
    assert ResetFeed(st, n[0]) == Ok(next);
    ResetNameRun(next, n[1..]);
    assert [n[0]] + n[1..] == n;
  }

  /** A number after a name: the number buffer starts empty. */
  lemma NumberAfterName(fnc: string, out: seq<Token>, w: string)
    requires ParseFunction(fnc).Some? && w != [] && IsDigitText(w)
    ensures ResetScan(Scanner("", fnc, false, true, out), w)
         == Ok(Scanner(w, "", true, false, out + [ParseFunction(fnc).value]))
  {
    var st := Scanner("", fnc, false, true, out);
    var next := Scanner([w[0]], "", true, false, out + [ParseFunction(fnc).value]);
    assert IsNumChar(w[0]) && "" + [w[0]] == [w[0]];
    assert ResetFeed(st, w[0]) == Ok(next);
    ResetNumberRun(next, w[1..]);
    assert [w[0]] + w[1..] == w;
  }

  lemma NumberThenName(w: string, n: string)
    requires w != [] && IsDigitText(w) && n != [] && IsNameText(n)
    ensures ResetScan(Start, w + n) == Ok(Scanner("", n, false, true, [Number(Lit(DigitsValue(w) as real))]))
  {
    FirstNumber(w);
    NameAfterNumber(w, [], n);
    assert [] + [Number(Lit(DigitsValue(w) as real))] == [Number(Lit(DigitsValue(w) as real))];
    ResetScanAppend(Start, w, n);
  }

  lemma NameThenNumber(n: string, w: string)
    requires n != [] && IsNameText(n) && ParseFunction(n).Some? && w != [] && IsDigitText(w)
    ensures ResetScan(Start, n + w) == Ok(Scanner(w, "", true, false, [ParseFunction(n).value]))
  {
    FirstName(n);
    NumberAfterName(n, [], w);
    assert [] + [ParseFunction(n).value] == [ParseFunction(n).value];
    ResetScanAppend(Start, n, w);
  }

  lemma NumberNameNumberScan(w1: string, n: string, w2: string)
    requires w1 != [] && IsDigitText(w1) && w2 != [] && IsDigitText(w2)
    requires n != [] && IsNameText(n) && ParseFunction(n).Some?
    ensures ResetScan(Start, w1 + n + w2)
         == Ok(Scanner(w2, "", true, false, [Number(Lit(DigitsValue(w1) as real)), ParseFunction(n).value]))
  {
    var x, f := Number(Lit(DigitsValue(w1) as real)), ParseFunction(n).value;
    NumberThenName(w1, n);
    NumberAfterName(n, [x], w2);
    assert [x] + [f] == [x, f];
    ResetScanAppend(Start, w1 + n, w2);
  }

  /** `1sin2` lexes as `1 sin 2`. */
  lemma NumberNameNumber(w1: string, n: string, w2: string)
    requires w1 != [] && IsDigitText(w1) && w2 != [] && IsDigitText(w2)
    requires n != [] && IsNameText(n) && ParseFunction(n).Some?
    ensures ResetLex(w1 + n + w2) == Ok([Number(Lit(DigitsValue(w1) as real)), ParseFunction(n).value,
                                    Number(Lit(DigitsValue(w2) as real))])
  {
    var x, f := Number(Lit(DigitsValue(w1) as real)), ParseFunction(n).value;
    var y := Number(Lit(DigitsValue(w2) as real));
    NumberNameNumberScan(w1, n, w2);
    ParseWhole(w2);
    assert Flush(Scanner(w2, "", true, false, [x, f])) == Ok([y]);
    assert [x, f] + [y] == [x, f, y];
  }

  lemma NameNumberNameScan(n1: string, w: string, n2: string)
    requires n1 != [] && IsNameText(n1) && ParseFunction(n1).Some?
    requires n2 != [] && IsNameText(n2)
    requires w != [] && IsDigitText(w)
    ensures ResetScan(Start, n1 + w + n2)
         == Ok(Scanner("", n2, false, true, [ParseFunction(n1).value, Number(Lit(DigitsValue(w) as real))]))
  {
    var f, x := ParseFunction(n1).value, Number(Lit(DigitsValue(w) as real));
    NameThenNumber(n1, w);
    NameAfterNumber(w, [f], n2);
    assert [f] + [x] == [f, x];
    ResetScanAppend(Start, n1 + w, n2);
  }

  /** `sin1cos` lexes as `sin 1 cos`. */
  lemma NameNumberName(n1: string, w: string, n2: string)
    requires n1 != [] && IsNameText(n1) && ParseFunction(n1).Some?
    requires n2 != [] && IsNameText(n2) && ParseFunction(n2).Some?
    requires w != [] && IsDigitText(w)
    ensures ResetLex(n1 + w + n2) == Ok([ParseFunction(n1).value, Number(Lit(DigitsValue(w) as real)),
                                    ParseFunction(n2).value])
  {
    var f, x, g := ParseFunction(n1).value, Number(Lit(DigitsValue(w) as real)), ParseFunction(n2).value;
    NameNumberNameScan(n1, w, n2);
    assert Flush(Scanner("", n2, false, true, [f, x])) == Ok([g]);
    assert [f, x] + [g] == [f, x, g];
  }
}
