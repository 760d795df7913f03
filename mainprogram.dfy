/** The program of src/main.rs: the compound-interest expression
    `1*(1+1/999)^(999*1)` put through `Parser`'s three stages. The lexing
    half is stated for the text shape `w1*(w2+w3/w4)^(w5*w6)` with any
    digit runs, built from its end one symbol at a time, and then read on
    the program's own text. */
module MainProgram {
  import opened Wrappers
  import opened Floats
  import opened Tokens
  import opened Lexing
  import opened Parsing
  import opened ScenarioResults
  import ModeSwitches

  predicate Digits(w: string) { w != [] && forall i :: 0 <= i < |w| ==> IsDigit(w[i]) }

  /** The number token a run of digits lexes to. */
  function NumberOf(w: string): Token
    requires Digits(w)
  {
    Number(Lit(DigitsValue(w) as real))
  }

  lemma DigitRun(w: string)
    requires Digits(w)
    ensures Lex(w) == Ok([NumberOf(w)])
  {
    LexNumber(w);
    ParseWhole(w);
  }

  /** Digits, a symbol, then text whose tokens are known. */
  lemma AfterDigits(w: string, c: char, b: string, tb: seq<Token>)
    requires Digits(w) && IsSymbol(c) && Lex(b) == Ok(tb)
    ensures Lex(w + [c] + b) == Ok([NumberOf(w), ParseOp(c).value] + tb)
  {
    DigitRun(w);
    LexSymbolSplit(w, c, b);
    assert [NumberOf(w)] + [ParseOp(c).value] + tb == [NumberOf(w), ParseOp(c).value] + tb;
  }

  /** A symbol, then text whose tokens are known. */
  lemma AfterSymbol(c: char, b: string, tb: seq<Token>)
    requires IsSymbol(c) && Lex(b) == Ok(tb)
    ensures Lex([c] + b) == Ok([ParseOp(c).value] + tb)
  {
    assert Scan(Start, []) == Ok(Start) && Flush(Start) == Ok([]) && Start.output + [] == [];
    LexSymbolSplit([], c, b);
    assert [] + [c] + b == [c] + b;
    assert [] + [ParseOp(c).value] + tb == [ParseOp(c).value] + tb;
  }

  /** Digits and a symbol that ends the text. */
  lemma DigitsLast(w: string, c: char)
    requires Digits(w) && IsSymbol(c)
    ensures Lex(w + [c]) == Ok([NumberOf(w), ParseOp(c).value])
  {
    assert Scan(Start, []) == Ok(Start) && Flush(Start) == Ok([]) && Start.output + [] == [];
    AfterDigits(w, c, [], []);
    assert w + [c] + [] == w + [c];
    assert [NumberOf(w), ParseOp(c).value] + [] == [NumberOf(w), ParseOp(c).value];
  }

  /** `^(w5*w6)`. */
  function ExponentText(w5: string, w6: string): string
  {
    ['^'] + (['('] + (w5 + ['*'] + (w6 + [')'])))
  }

  function ExponentTokens(w5: string, w6: string): seq<Token>
    requires Digits(w5) && Digits(w6)
  {
    [Pow] + ([LParen] + ([NumberOf(w5), Mul] + [NumberOf(w6), RParen]))
  }

  lemma ProductLexed(w5: string, w6: string)
    requires Digits(w5) && Digits(w6)
    ensures Lex(w5 + ['*'] + (w6 + [')'])) == Ok([NumberOf(w5), Mul] + [NumberOf(w6), RParen])
  {
    DigitsLast(w6, ')');
    AfterDigits(w5, '*', w6 + [')'], [NumberOf(w6), RParen]);
  }

  lemma ExponentGroupLexed(w5: string, w6: string)
    requires Digits(w5) && Digits(w6)
    ensures Lex(['('] + (w5 + ['*'] + (w6 + [')']))) == Ok([LParen] + ([NumberOf(w5), Mul] + [NumberOf(w6), RParen]))
  {
    ProductLexed(w5, w6);
    AfterSymbol('(', w5 + ['*'] + (w6 + [')']), [NumberOf(w5), Mul] + [NumberOf(w6), RParen]);
  }

  lemma ExponentLexed(w5: string, w6: string)
    requires Digits(w5) && Digits(w6)
    ensures Lex(ExponentText(w5, w6)) == Ok(ExponentTokens(w5, w6))
  {
    ExponentGroupLexed(w5, w6);
    AfterSymbol('^', ['('] + (w5 + ['*'] + (w6 + [')'])), [LParen] + ([NumberOf(w5), Mul] + [NumberOf(w6), RParen]));
  }

  lemma QuotientLexed(w3: string, w4: string, g: string, tg: seq<Token>)
    requires Digits(w3) && Digits(w4) && Lex(g) == Ok(tg)
    ensures Lex(w3 + ['/'] + (w4 + [')'] + g)) == Ok([NumberOf(w3), Div] + ([NumberOf(w4), RParen] + tg))
  {
    AfterDigits(w4, ')', g, tg);
    AfterDigits(w3, '/', w4 + [')'] + g, [NumberOf(w4), RParen] + tg);
  }

  lemma SumLexed(w2: string, w3: string, w4: string, g: string, tg: seq<Token>)
    requires Digits(w2) && Digits(w3) && Digits(w4) && Lex(g) == Ok(tg)
    ensures Lex(w2 + ['+'] + (w3 + ['/'] + (w4 + [')'] + g)))
         == Ok([NumberOf(w2), Add] + ([NumberOf(w3), Div] + ([NumberOf(w4), RParen] + tg)))
  {
    QuotientLexed(w3, w4, g, tg);
    AfterDigits(w2, '+', w3 + ['/'] + (w4 + [')'] + g), [NumberOf(w3), Div] + ([NumberOf(w4), RParen] + tg));
  }

  lemma BaseGroupLexed(w2: string, w3: string, w4: string, g: string, tg: seq<Token>)
    requires Digits(w2) && Digits(w3) && Digits(w4) && Lex(g) == Ok(tg)
    ensures Lex(['('] + (w2 + ['+'] + (w3 + ['/'] + (w4 + [')'] + g))))
         == Ok([LParen] + ([NumberOf(w2), Add] + ([NumberOf(w3), Div] + ([NumberOf(w4), RParen] + tg))))
  {
    SumLexed(w2, w3, w4, g, tg);
    AfterSymbol('(', w2 + ['+'] + (w3 + ['/'] + (w4 + [')'] + g)),
      [NumberOf(w2), Add] + ([NumberOf(w3), Div] + ([NumberOf(w4), RParen] + tg)));
  }

  lemma FactorLexed(w1: string, w2: string, w3: string, w4: string, g: string, tg: seq<Token>)
    requires Digits(w1) && Digits(w2) && Digits(w3) && Digits(w4) && Lex(g) == Ok(tg)
    ensures Lex(w1 + ['*'] + (['('] + (w2 + ['+'] + (w3 + ['/'] + (w4 + [')'] + g)))))
         == Ok([NumberOf(w1), Mul] + ([LParen] + ([NumberOf(w2), Add] + ([NumberOf(w3), Div] + ([NumberOf(w4), RParen] + tg)))))
  {
    BaseGroupLexed(w2, w3, w4, g, tg);
    AfterDigits(w1, '*', ['('] + (w2 + ['+'] + (w3 + ['/'] + (w4 + [')'] + g))),
      [LParen] + ([NumberOf(w2), Add] + ([NumberOf(w3), Div] + ([NumberOf(w4), RParen] + tg))));
  }

  /** The text `w1*(w2+w3/w4)^(w5*w6)`. */
  function MainText(w1: string, w2: string, w3: string, w4: string, w5: string, w6: string): string
  {
    w1 + ['*'] + (['('] + (w2 + ['+'] + (w3 + ['/'] + (w4 + [')'] + ExponentText(w5, w6)))))
  }

  lemma Fifteen<T>(a: T, b: T, c: T, d: T, e: T, f: T, g: T, h: T, i: T, j: T, k: T, l: T, m: T, n: T, o: T)
    ensures [a, b] + ([c] + ([d, e] + ([f, g] + ([h, i] + ([j] + ([k] + ([l, m] + [n, o])))))))
         == [a, b, c, d, e, f, g, h, i] + [j, k, l, m, n, o]
  {
  }

  /** Any text of that shape lexes to the token shape of MainShape, each
      digit run to one number. */
  lemma MainTextLexed(w1: string, w2: string, w3: string, w4: string, w5: string, w6: string)
    requires Digits(w1) && Digits(w2) && Digits(w3) && Digits(w4) && Digits(w5) && Digits(w6)
    ensures Lex(MainText(w1, w2, w3, w4, w5, w6)) == Ok(MainShape(
      Lit(DigitsValue(w1) as real), Lit(DigitsValue(w2) as real), Lit(DigitsValue(w3) as real),
      Lit(DigitsValue(w4) as real), Lit(DigitsValue(w5) as real), Lit(DigitsValue(w6) as real)))
  {
    ExponentLexed(w5, w6);
    FactorLexed(w1, w2, w3, w4, ExponentText(w5, w6), ExponentTokens(w5, w6));
    Fifteen(NumberOf(w1), Mul, LParen, NumberOf(w2), Add, NumberOf(w3), Div, NumberOf(w4), RParen,
            Pow, LParen, NumberOf(w5), Mul, NumberOf(w6), RParen);
  }

  const Program := "1*(1+1/999)^(999*1)"

  /** The value the program prints: `1 * (1 + 1/999) ^ (999 * 1)` as a term. */
  const Compounded := Product(Lit(1.0), Power(Sum(Lit(1.0), Quotient(Lit(1.0), Lit(999.0))), Product(Lit(999.0), Lit(1.0))))

  lemma ProgramText()
    ensures MainText("1", "1", "1", "999", "999", "1") == Program
  {
  }

  lemma ProgramDigits()
    ensures Digits("1") && Digits("999")
    ensures DigitsValue("1") == 1 && DigitsValue("999") == 999
  {
    assert IsDigit("999"[0]) && IsDigit("999"[1]) && IsDigit("999"[2]);
    assert DigitsValue("1") == 1 by { assert "1"[..0] == ""; }
    assert DigitsValue("999") == 999 by {
      assert "999"[..2] == "99" && "99"[..1] == "9" && "9"[..0] == "";
    }
  }

  /** The program's text lexes to fifteen tokens, its numbers 1 and 999. */
  lemma ProgramLexed()
    ensures Lex(Program) == Ok(MainShape(Lit(1.0), Lit(1.0), Lit(1.0), Lit(999.0), Lit(999.0), Lit(1.0)))
  {
    ProgramDigits();
    MainTextLexed("1", "1", "1", "999", "999", "1");
    ProgramText();
  }

  /** The program's text has no identifier character, so the loop as written
      and the intended loop, which empties the buffer it leaves, lex it alike. */
  lemma ProgramLexedAlike()
    ensures ModeSwitches.ResetLex(Program) == Lex(Program)
  {
    forall i | 0 <= i < |Program|
      ensures !IsNameChar(Program[i])
    {
    }
    ModeSwitches.LexAgreesWithoutNames(Program);
  }

  /** Where the source would panic, the stage that failed. */
  datatype Failure = LexFailed(lexError: LexError) | ShuntFailed(shuntError: ShuntError)

  /** The stack a fresh parser ends with on text: lex, shunt, evaluate. */
  function Calculation(text: string): Result<seq<F64>, Failure>
  {
    match Lex(text)
    case Err(e) => Err(LexFailed(e))
    case Ok(infix) =>
      match ShuntingYard(infix)
      case Err(e) => Err(ShuntFailed(e))
      case Ok(postfix) => Ok(Run(postfix, []))
  }

  /** The builder chain of `main` on any text: a new parser, `input`,
      `tokenize`, `shunt`, `evaluate`; a stage's error stops the chain. */
  method Calculate(text: string) returns (r: Result<seq<F64>, Failure>)
    ensures r == Calculation(text)
  {
    var p := new Parser();
    p.Input(text);
    var lexError := p.Tokenize();
    if lexError.Some? {
      return Err(LexFailed(lexError.value));
    }
    var shuntError := p.Shunt();
    if shuntError.Some? {
      return Err(ShuntFailed(shuntError.value));
    }
    p.Evaluate();
    r := Ok(p.stack);
  }

  /** The three stages in turn leave the compounded term alone on the stack. */
  lemma ProgramCalculated()
    ensures Calculation(Program) == Ok([Compounded])
  {
    ProgramLexed();
    MainShapeShunted(Lit(1.0), Lit(1.0), Lit(1.0), Lit(999.0), Lit(999.0), Lit(1.0));
    MainShapeEvaluated(Lit(1.0), Lit(1.0), Lit(1.0), Lit(999.0), Lit(999.0), Lit(1.0));
  }

  /** `main`: the chain on the program's text, then the bottom of the stack
      (`None` where `p.stack[0]` would panic). */
  method CompoundInterest() returns (result: Option<F64>)
    ensures result == Some(Compounded)
  {
    var r := Calculate(Program);
    ProgramCalculated();
    if r.Err? || r.value == [] {
      result := None;
    } else {
      result := Some(r.value[0]);
    }
  }
}
