/** Worked inputs: what the shunting-yard conversion and the evaluation
    loop do with the shape of the expression in src/main.rs,
    `1*(1+1/999)^(999*1)`, for any six numbers in its six places. */
module Scenarios {
  import opened Wrappers
  import opened Floats
  import opened Seqs
  import opened Tokens
  import opened Parsing

  lemma FromNumber(x: F64, rest: seq<Token>, ops: seq<Token>, out: seq<Token>)
    ensures ShuntFrom([Number(x)] + rest, ops, out) == ShuntFrom(rest, ops, out + [Number(x)])
  {
    NumberToOutput(x, ops, out);
    assert ([Number(x)] + rest)[1..] == rest;
  }

  lemma FromPushed(tok: Token, rest: seq<Token>, ops: seq<Token>, out: seq<Token>)
    requires tok == LParen ||
      (IsOperator(tok) && (ops == [] || IsParen(Last(ops)) || (IsOperator(Last(ops)) && !PopsBefore(Last(ops), tok))))
    ensures ShuntFrom([tok] + rest, ops, out) == ShuntFrom(rest, ops + [tok], out)
  {
    if tok == LParen { PushedToStack(tok, ops, out); } else { OperatorPushed(tok, ops, out); }
    assert ([tok] + rest)[1..] == rest;
  }

  lemma FromClosed(rest: seq<Token>, below: seq<Token>, inner: seq<Token>, out: seq<Token>)
    requires LParen !in inner
    ensures ShuntFrom([RParen] + rest, below + [LParen] + inner, out) == ShuntFrom(rest, below, out + Reverse(inner))
  {
    GroupClosed(below, inner, out);
    assert ([RParen] + rest)[1..] == rest;
  }

  lemma FromPopped(tok: Token, top: Token, rest: seq<Token>, out: seq<Token>)
    requires IsOperator(tok) && IsOperator(top) && PopsBefore(top, tok)
    ensures ShuntFrom([tok] + rest, [top], out) == ShuntFrom(rest, [tok], out + [top])
  {
    assert PopOperators(tok, [top], out) == Ok(([], out + [top])) by {
      assert Init([top]) == [] && Last([top]) == top;
    }
    assert [] + [tok] == [tok];
    assert ([tok] + rest)[1..] == rest;
  }

  lemma ShuntA(a: F64, rest: seq<Token>)
    ensures ShuntFrom([Number(a), Mul, LParen] + rest, [], []) == ShuntFrom(rest, [Mul, LParen], [Number(a)])
  {
    Cons3(Number(a), Mul, LParen, rest);
    FromNumber(a, [Mul] + ([LParen] + rest), [], []);
    assert [] + [Number(a)] == [Number(a)];
    FromPushed(Mul, [LParen] + rest, [], [Number(a)]);
    assert [] + [Mul] == [Mul];
    FromPushed(LParen, rest, [Mul], [Number(a)]);
    assert [Mul] + [LParen] == [Mul, LParen];
  }

  lemma ShuntB(b: F64, c: F64, rest: seq<Token>, out: seq<Token>)
    ensures ShuntFrom([Number(b), Add, Number(c)] + rest, [Mul, LParen], out)
      == ShuntFrom(rest, [Mul, LParen, Add], out + [Number(b), Number(c)])
  {
    Cons3(Number(b), Add, Number(c), rest);
    FromNumber(b, [Add] + ([Number(c)] + rest), [Mul, LParen], out);
    FromPushed(Add, [Number(c)] + rest, [Mul, LParen], out + [Number(b)]);
    FromNumber(c, rest, [Mul, LParen] + [Add], out + [Number(b)]);
    Snoc2(out, Number(b), Number(c));
    Snoc2([Mul], LParen, Add);
    assert [Mul] + [LParen] == [Mul, LParen] && [Mul] + [LParen, Add] == [Mul, LParen, Add];
  }

  lemma ShuntC(d: F64, rest: seq<Token>, out: seq<Token>)
    ensures ShuntFrom([Div, Number(d), RParen] + rest, [Mul, LParen, Add], out)
      == ShuntFrom(rest, [Mul], out + [Number(d), Div, Add])
  {
    Cons3(Div, Number(d), RParen, rest);
    FromPushed(Div, [Number(d)] + ([RParen] + rest), [Mul, LParen, Add], out);
    FromNumber(d, [RParen] + rest, [Mul, LParen, Add] + [Div], out);
    StackShape(Mul, LParen, Add, Div);
    FromClosed(rest, [Mul], [Add, Div], out + [Number(d)]);
    Reverse2(Add, Div);
    Snoc3(out, Number(d), Div, Add);
    assert out + [Number(d)] + [Div, Add] == out + [Number(d)] + [Div] + [Add];
  }

  /** `a*(b+c/d)` leaves `*` on the stack and `a b c d / +` in the output. */
  lemma FirstGroupShunted(a: F64, b: F64, c: F64, d: F64, rest: seq<Token>)
    ensures ShuntFrom([Number(a), Mul, LParen, Number(b), Add, Number(c), Div, Number(d), RParen] + rest, [], []) ==
      ShuntFrom(rest, [Mul], [Number(a), Number(b), Number(c), Number(d), Div, Add])
  {
    var r6 := [Div, Number(d), RParen] + rest;
    var r3 := [Number(b), Add, Number(c)] + r6;
    Nine(Number(a), Mul, LParen, Number(b), Add, Number(c), Div, Number(d), RParen, rest);
    ShuntA(a, r3);
    ShuntB(b, c, r6, [Number(a)]);
    ShuntC(d, rest, [Number(a)] + [Number(b), Number(c)]);
    Six(Number(a), Number(b), Number(c), Number(d), Div, Add);
  }

  lemma ShuntD(e: F64, rest: seq<Token>, out: seq<Token>)
    ensures ShuntFrom([Pow, LParen, Number(e)] + rest, [Mul], out) == ShuntFrom(rest, [Mul, Pow, LParen], out + [Number(e)])
  {
    Cons3(Pow, LParen, Number(e), rest);
    FromPushed(Pow, [LParen] + ([Number(e)] + rest), [Mul], out);
    FromPushed(LParen, [Number(e)] + rest, [Mul] + [Pow], out);
    FromNumber(e, rest, [Mul] + [Pow] + [LParen], out);
    assert [Mul] + [Pow] + [LParen] == [Mul, Pow, LParen];
  }

  lemma ShuntE(f: F64, out: seq<Token>)
    ensures ShuntFrom([Mul, Number(f), RParen], [Mul, Pow, LParen], out) == Ok(([Mul, Pow], out + [Number(f), Mul]))
  {
    Cons3(Mul, Number(f), RParen, []);
    assert [Mul, Number(f), RParen] + [] == [Mul, Number(f), RParen];
    FromPushed(Mul, [Number(f)] + ([RParen] + []), [Mul, Pow, LParen], out);
    FromNumber(f, [RParen] + [], [Mul, Pow, LParen] + [Mul], out);
    StackShape(Mul, Pow, LParen, Mul);
    assert [Mul] + [Pow] == [Mul, Pow];
    FromClosed([], [Mul, Pow], [Mul], out + [Number(f)]);
    Reverse1(Mul);
    Snoc2(out, Number(f), Mul);
  }

  /** `^(e*f)` over `*` pushes `^` and emits `e f *`. */
  lemma SecondGroupShunted(e: F64, f: F64, out: seq<Token>)
    ensures ShuntFrom([Pow, LParen, Number(e), Mul, Number(f), RParen], [Mul], out) ==
      Ok(([Mul, Pow], out + [Number(e), Number(f), Mul]))
  {
    assert [Pow, LParen, Number(e), Mul, Number(f), RParen] == [Pow, LParen, Number(e)] + [Mul, Number(f), RParen];
    ShuntD(e, [Mul, Number(f), RParen], out);
    ShuntE(f, out + [Number(e)]);
    assert out + [Number(e)] + [Number(f), Mul] == out + [Number(e), Number(f), Mul];
  }
}

module ScenarioResults {
  import opened Wrappers
  import opened Floats
  import opened Seqs
  import opened Tokens
  import opened Lexing
  import opened Parsing
  import opened Scenarios

  /** The tokens of `a*(b+c/d)^(e*f)`, the shape of src/main.rs's
      `1*(1+1/999)^(999*1)`, written as its two groups. */
  function MainShape(a: F64, b: F64, c: F64, d: F64, e: F64, f: F64): seq<Token>
  {
    [Number(a), Mul, LParen, Number(b), Add, Number(c), Div, Number(d), RParen] +
    [Pow, LParen, Number(e), Mul, Number(f), RParen]
  }

  /** `shunt` turns it into `a b c d / + e f * ^ *`. */
  lemma MainShapeShunted(a: F64, b: F64, c: F64, d: F64, e: F64, f: F64)
    ensures ShuntingYard(MainShape(a, b, c, d, e, f)) ==
      Ok([Number(a), Number(b), Number(c), Number(d), Div, Add, Number(e), Number(f), Mul, Pow, Mul])
  {
    var second := [Pow, LParen, Number(e), Mul, Number(f), RParen];
    FirstGroupShunted(a, b, c, d, second);
    var out := [Number(a), Number(b), Number(c), Number(d), Div, Add];
    SecondGroupShunted(e, f, out);
    Reverse2(Mul, Pow);
    Eleven(Number(a), Number(b), Number(c), Number(d), Div, Add, Number(e), Number(f), Mul, Pow, Mul);
  }

  /** The expression tree of `a*(b+c/d)^(e*f)`. */
  function MainTree(a: F64, b: F64, c: F64, d: F64, e: F64, f: F64): Expr
  {
    BinaryNode(Mul, Literal(a),
      BinaryNode(Pow,
        BinaryNode(Add, Literal(b), BinaryNode(Div, Literal(c), Literal(d))),
        BinaryNode(Mul, Literal(e), Literal(f))))
  }

  lemma MainTreePostfix(a: F64, b: F64, c: F64, d: F64, e: F64, f: F64)
    ensures PostfixOf(MainTree(a, b, c, d, e, f))
      == [Number(a), Number(b), Number(c), Number(d), Div, Add, Number(e), Number(f), Mul, Pow, Mul]
  {
    var quotient := BinaryNode(Div, Literal(c), Literal(d));
    var sum := BinaryNode(Add, Literal(b), quotient);
    var product := BinaryNode(Mul, Literal(e), Literal(f));
    var power := BinaryNode(Pow, sum, product);
    assert PostfixOf(quotient) == [Number(c), Number(d), Div];
    assert PostfixOf(sum) == [Number(b), Number(c), Number(d), Div, Add];
    assert PostfixOf(product) == [Number(e), Number(f), Mul];
    assert PostfixOf(power) == [Number(b), Number(c), Number(d), Div, Add, Number(e), Number(f), Mul, Pow];
  }

  lemma MainTreeValue(a: F64, b: F64, c: F64, d: F64, e: F64, f: F64)
    ensures WellFormed(MainTree(a, b, c, d, e, f))
    ensures ValueOf(MainTree(a, b, c, d, e, f)) == Product(a, Power(Sum(b, Quotient(c, d)), Product(e, f)))
  {
    var quotient := BinaryNode(Div, Literal(c), Literal(d));
    var sum := BinaryNode(Add, Literal(b), quotient);
    var product := BinaryNode(Mul, Literal(e), Literal(f));
    var power := BinaryNode(Pow, sum, product);
    assert WellFormed(quotient) && WellFormed(sum) && WellFormed(product);
    assert WellFormed(power);
    assert ValueOf(quotient) == Quotient(c, d);
    assert ValueOf(sum) == Sum(b, Quotient(c, d));
    assert ValueOf(product) == Product(e, f);
    assert ValueOf(power) == Power(Sum(b, Quotient(c, d)), Product(e, f));
  }

  /** Evaluating the postfix form on an empty stack leaves exactly
      `a * (b + c / d) ^ (e * f)`, each operator applied in the written
      operand order. */
  lemma MainShapeEvaluated(a: F64, b: F64, c: F64, d: F64, e: F64, f: F64)
    ensures Run([Number(a), Number(b), Number(c), Number(d), Div, Add, Number(e), Number(f), Mul, Pow, Mul], [])
      == [Product(a, Power(Sum(b, Quotient(c, d)), Product(e, f)))]
  {
    MainTreePostfix(a, b, c, d, e, f);
    MainTreeValue(a, b, c, d, e, f);
    RunPostfix(MainTree(a, b, c, d, e, f), []);
  }

  /** `x op` at the start of the input: x goes out, op waits. */
  lemma LeadingOperand(x: F64, op: Token, rest: seq<Token>)
    requires IsOperator(op)
    ensures ShuntFrom([Number(x), op] + rest, [], []) == ShuntFrom(rest, [op], [Number(x)])
  {
    var r1 := [op] + rest;
    assert [Number(x), op] + rest == [Number(x)] + r1;
    FromNumber(x, r1, [], []);
    assert [] + [Number(x)] == [Number(x)];
    FromPushed(op, rest, [], [Number(x)]);
    assert [] + [op] == [op];
  }

  lemma PowerTail(y: F64, z: F64, out: seq<Token>)
    ensures ShuntFrom([Number(y), Pow, Number(z)], [Pow], out) == Ok(([Pow, Pow], out + [Number(y), Number(z)]))
  {
    var r2 := [Number(z)] + [];
    var r1 := [Pow] + r2;
    assert [Number(y), Pow, Number(z)] == [Number(y)] + r1;
    FromNumber(y, r1, [Pow], out);
    FromPushed(Pow, r2, [Pow], out + [Number(y)]);
    FromNumber(z, [], [Pow] + [Pow], out + [Number(y)]);
    assert [Pow] + [Pow] == [Pow, Pow];
    assert out + [Number(y)] + [Number(z)] == out + [Number(y), Number(z)];
  }

  /** `^` is right-associative: `x^y^z` groups as `x^(y^z)`. */
  lemma PowerRightAssociative(x: F64, y: F64, z: F64)
    ensures ShuntingYard([Number(x), Pow, Number(y), Pow, Number(z)]) ==
      Ok([Number(x), Number(y), Number(z), Pow, Pow])
  {
    assert [Number(x), Pow, Number(y), Pow, Number(z)] == [Number(x), Pow] + [Number(y), Pow, Number(z)];
    LeadingOperand(x, Pow, [Number(y), Pow, Number(z)]);
    PowerTail(y, z, [Number(x)]);
    assert Reverse([Pow, Pow]) == [Pow, Pow] by {
      assert Init([Pow, Pow]) == [Pow];
      assert Reverse([Pow]) == [Pow];
    }
    assert [Number(x)] + [Number(y), Number(z)] + [Pow, Pow] == [Number(x), Number(y), Number(z), Pow, Pow];
  }

  lemma MinusTail(y: F64, z: F64, out: seq<Token>)
    ensures ShuntFrom([Number(y), Sub, Number(z)], [Sub], out) == Ok(([Sub], out + [Number(y), Sub, Number(z)]))
  {
    Cons3(Number(y), Sub, Number(z), []);
    assert [Number(y), Sub, Number(z)] + [] == [Number(y), Sub, Number(z)];
    FromNumber(y, [Sub] + ([Number(z)] + []), [Sub], out);
    FromPopped(Sub, Sub, [Number(z)] + [], out + [Number(y)]);
    FromNumber(z, [], [Sub], out + [Number(y)] + [Sub]);
    Snoc3(out, Number(y), Sub, Number(z));
  }

  /** `-` is left-associative: `x-y-z` groups as `(x-y)-z`. */
  lemma MinusLeftAssociative(x: F64, y: F64, z: F64)
    ensures ShuntingYard([Number(x), Sub, Number(y), Sub, Number(z)]) ==
      Ok([Number(x), Number(y), Sub, Number(z), Sub])
  {
    assert [Number(x), Sub, Number(y), Sub, Number(z)] == [Number(x), Sub] + [Number(y), Sub, Number(z)];
    LeadingOperand(x, Sub, [Number(y), Sub, Number(z)]);
    MinusTail(y, z, [Number(x)]);
    assert Reverse([Sub]) == [Sub];
    assert [Number(x)] + [Number(y), Sub, Number(z)] + [Sub] == [Number(x), Number(y), Sub, Number(z), Sub];
  }

  lemma UnclosedGroupLoop(x: F64, y: F64)
    ensures ShuntFrom([LParen, Number(x), Add, Number(y)], [], []) == Ok(([LParen, Add], [Number(x), Number(y)]))
  {
    var r3 := [Number(y)] + [];
    var r2 := [Add] + r3;
    var r1 := [Number(x)] + r2;
    assert [LParen, Number(x), Add, Number(y)] == [LParen] + r1;
    FromPushed(LParen, r1, [], []);
    assert [] + [LParen] == [LParen];
    FromNumber(x, r2, [LParen], []);
    assert [] + [Number(x)] == [Number(x)];
    FromPushed(Add, r3, [LParen], [Number(x)]);
    FromNumber(y, [], [LParen] + [Add], [Number(x)]);
    assert [LParen] + [Add] == [LParen, Add];
    assert [Number(x)] + [Number(y)] == [Number(x), Number(y)];
  }

  /** An unclosed `(` is no error: it is drained into the output. */
  lemma UnclosedGroupShunted(x: F64, y: F64)
    ensures ShuntingYard([LParen, Number(x), Add, Number(y)]) == Ok([Number(x), Number(y), Add, LParen])
  {
    UnclosedGroupLoop(x, y);
    assert Reverse([LParen, Add]) == [Add, LParen] by {
      assert Init([LParen, Add]) == [LParen];
      assert Reverse([LParen]) == [LParen];
    }
    assert [Number(x), Number(y)] + [Add, LParen] == [Number(x), Number(y), Add, LParen];
  }

  /** ... where evaluation passes over it. */
  lemma UnclosedGroupEvaluated(x: F64, y: F64)
    ensures Run([Number(x), Number(y), Add, LParen], []) == [Sum(x, y)]
  {
    var tree := BinaryNode(Add, Literal(x), Literal(y));
    assert PostfixOf(tree) == [Number(x), Number(y), Add];
    RunPostfix(tree, []);
    RunAppend([Number(x), Number(y), Add], [LParen], []);
    assert [Number(x), Number(y), Add] + [LParen] == [Number(x), Number(y), Add, LParen];
    assert [LParen][1..] == [];
  }

  /** Inside `sqrt(x*y+…`, the `+` pops `*` and stops at the `(`: the
      function below the group is never reached, so nothing fails. */
  lemma OperatorStopsAtGroup(out: seq<Token>)
    ensures PopOperators(Add, [Sqrt, LParen, Mul], out) == Ok(([Sqrt, LParen], out + [Mul]))
  {
    assert Init([Sqrt, LParen, Mul]) == [Sqrt, LParen];
  }

  /** A function followed by an operator fails: when `+` arrives, `sqrt`
      is still on the stack and has no precedence. */
  lemma FunctionBeforeOperatorFails(x: F64, y: F64)
    ensures ShuntingYard([Sqrt, LParen, Number(x), RParen, Add, Number(y)]) == Err(MissingPrecedence(Sqrt))
  {
    var r5 := [Number(y)];
    var r4 := [Add] + r5;
    var r3 := [RParen] + r4;
    var r2 := [Number(x)] + r3;
    var r1 := [LParen] + r2;
    assert [Sqrt, LParen, Number(x), RParen, Add, Number(y)] == [Sqrt] + r1;
    PushedToStack(Sqrt, [], []);
    assert ([Sqrt] + r1)[1..] == r1;
    FromPushed(LParen, r2, [] + [Sqrt], []);
    FromNumber(x, r3, [] + [Sqrt] + [LParen], []);
    assert [] + [Sqrt] + [LParen] == [Sqrt] + [LParen] + [];
    FromClosed(r4, [Sqrt], [], [] + [Number(x)]);
    FunctionOnTopFails(Add, [Sqrt], [] + [Number(x)] + Reverse([]));
    assert ([Add] + r5)[0] == Add;
  }

  /** An operator short of operands empties the stack. */
  lemma MissingOperandEmpties(y: F64)
    ensures Run([Number(y), Add], []) == []
  {
    assert [Number(y), Add][1..] == [Add];
    assert [Add][1..] == [];
  }
}

module LexingScenarios {
  import opened Wrappers
  import opened Floats
  import opened Tokens
  import opened Lexing

  /** Two decimal points make the number buffer unreadable. */
  lemma DoublePointRejected()
    ensures Lex("1..2") == Err(InvalidNumber("1..2"))
  {
    LexNumber("1..2");
    assert multiset("1..2")['.'] == 2;
  }

  /** A known name becomes its function token. */
  lemma FunctionNameRead()
    ensures Lex("sqrt") == Ok([Sqrt])
  {
    LexName("sqrt");
  }

  /** An unknown name fails the whole input, with that name. */
  lemma UnknownNameRejected()
    ensures Lex("foo(1)") == Err(InvalidFunction("foo"))
  {
    assert IsNameText("foo") by {
      assert IsNameChar("foo"[0]) && IsNameChar("foo"[1]) && IsNameChar("foo"[2]);
    }
    LexName("foo");
    LexSymbolSplit("foo", '(', "1)");
    assert "foo" + ['('] + "1)" == "foo(1)";
  }

  /** A run of digits reads as its decimal value. */
  lemma TwelveRead()
    ensures Lex("12") == Ok([Number(Lit(12.0))])
  {
    LexNumber("12");
    assert IsDecimal("12") by { assert IsDigit("12"[0]); }
    ParseWhole("12");
    assert DigitsValue("12") == 12 by {
      assert "12"[..1] == "1";
      assert DigitsValue("1") == 1 by { assert "1"[..0] == ""; }
    }
  }
}
