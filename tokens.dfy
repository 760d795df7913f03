/** The token model of src/token.rs: the closed set of tokens, their
    classification, precedence and associativity lookups, and the single
    token step of the postfix stack machine. */
module Tokens {
  import opened Wrappers
  import opened Floats
  import opened Seqs

  /** The source's enum, plus `Comma`: the lexer and the parser both use a
      comma token that the enum as written lacks. It falls into the
      catch-all arm of every classification below. */
  datatype Token =
    | Number(value: F64)
    | Add | Sub | Mul | Div | Pow
    | Max | Min | Sin | Cos | Tan | Sqrt
    | LParen | RParen
    | Comma

  predicate IsParen(t: Token)
  {
    match t
    case RParen | LParen => true
    case _ => false
  }

  predicate IsFunction(t: Token)
  {
    match t
    case Max | Min | Sin | Cos | Tan | Sqrt => true
    case _ => false
  }

  predicate IsOperator(t: Token)
  {
    match t
    case Add | Sub | Mul | Div | Pow => true
    case _ => false
  }

  /** At most one classification holds of any token; numbers and commas
      have none. */
  lemma ClassesExclusive(t: Token)
    ensures !(IsParen(t) && IsFunction(t))
    ensures !(IsParen(t) && IsOperator(t))
    ensures !(IsFunction(t) && IsOperator(t))
    ensures t.Number? || t == Comma <==> !IsParen(t) && !IsFunction(t) && !IsOperator(t)
  {
  }

  /** Binding strength of the infix operators; the `Some(0)` catch-all of
      the source is never reached. */
  function Precedence(t: Token): (r: Option<int>)
    ensures r.Some? <==> IsOperator(t)
    ensures r == Some(1) <==> t == Add || t == Sub
    ensures r == Some(2) <==> t == Mul || t == Div
    ensures r == Some(3) <==> t == Pow
  {
    if IsOperator(t) then
      match t
      case Add | Sub => Some(1)
      case Mul | Div => Some(2)
      case Pow => Some(3)
      case _ => Some(0)
    else
      None
  }

  /** `Some(true)` means right-associative. */
  function Associativity(t: Token): (r: Option<bool>)
    ensures r.Some? <==> IsOperator(t)
    ensures r == Some(true) <==> t == Pow
  {
    if IsOperator(t) then
      match t
      case Add | Sub | Mul | Div => Some(false)
      case Pow => Some(true)
      case _ => None
    else
      None
  }

  /** Tokens whose step pops two operands: the operators, `min` and `max`. */
  predicate IsBinary(t: Token) { IsOperator(t) || t == Min || t == Max }

  predicate IsUnary(t: Token) { t == Sin || t == Cos || t == Tan || t == Sqrt }

  /** How many values a token's step pops. */
  function Arity(t: Token): nat
  {
    if IsBinary(t) then 2 else if IsUnary(t) then 1 else 0
  }

  /** How many values a token's step pushes when it succeeds. */
  function Pushed(t: Token): nat
  {
    if IsParen(t) || t == Comma then 0 else 1
  }

  /** The f64 operation of a binary token, applied to left operand a and
      right operand b. */
  function Apply2(t: Token, a: F64, b: F64): F64
    requires IsBinary(t)
  {
    match t
    case Add => Sum(a, b)
    case Sub => Difference(a, b)
    case Mul => Product(a, b)
    case Div => Quotient(a, b)
    case Pow => Power(a, b)
    case Min => Minimum(a, b)
    case Max => Maximum(a, b)
  }

  function Apply1(t: Token, a: F64): F64
    requires IsUnary(t)
  {
    match t
    case Sin => Sine(a)
    case Cos => Cosine(a)
    case Tan => Tangent(a)
    case Sqrt => SquareRoot(a)
  }

  /** One step of the stack machine: the success flag of `Token::evaluate`
      and the stack it leaves behind, top at the end. A binary token pops
      its right operand first; when the stack runs out the pops already
      done stay done. */
  function Step(t: Token, stack: seq<F64>): (r: (Option<()>, seq<F64>))
    ensures r.0.None? <==> |stack| < Arity(t)
    ensures r.0.None? ==> r.1 == []
    ensures r.0.Some? ==> |r.1| == |stack| - Arity(t) + Pushed(t)
    ensures r.0.Some? ==> r.1[..|stack| - Arity(t)] == stack[..|stack| - Arity(t)]
  {
    if IsBinary(t) then
      if |stack| < 2 then (None, [])
      else (Some(()), stack[..|stack| - 2] + [Apply2(t, stack[|stack| - 2], stack[|stack| - 1])])
    else if IsUnary(t) then
      if stack == [] then (None, [])
      else (Some(()), Init(stack) + [Apply1(t, Last(stack))])
    else if t.Number? then
      (Some(()), stack + [t.value])
    else
      (Some(()), stack)
  }

  /** A binary token maps `s ++ [a, b]` to `s ++ [op(a, b)]`: the value on
      top is the right operand. */
  lemma StepBinary(t: Token, s: seq<F64>, a: F64, b: F64)
    requires IsBinary(t)
    ensures Step(t, s + [a, b]) == (Some(()), s + [Apply2(t, a, b)])
  {
    assert (s + [a, b])[..|s|] == s;
  }

  lemma StepUnary(t: Token, s: seq<F64>, a: F64)
    requires IsUnary(t)
    ensures Step(t, s + [a]) == (Some(()), s + [Apply1(t, a)])
  {
    assert Init(s + [a]) == s;
  }

  lemma StepNumber(j: F64, s: seq<F64>)
    ensures Step(Number(j), s) == (Some(()), s + [j])
  {
  }

  /** Parentheses and commas are no-ops of the machine. */
  lemma StepNeutral(t: Token, s: seq<F64>)
    requires IsParen(t) || t == Comma
    ensures Step(t, s) == (Some(()), s)
  {
  }

  /** `Vec::pop`. */
  method Pop(stack: seq<F64>) returns (x: Option<F64>, rest: seq<F64>)
    ensures stack == [] ==> x == None && rest == []
    ensures stack != [] ==> x == Some(Last(stack)) && rest == Init(stack)
  {
    if stack == [] {
      x, rest := None, [];
    } else {
      x, rest := Some(stack[|stack| - 1]), stack[..|stack| - 1];
    }
  }

  /** `let (b, a) = (stack.pop()?, stack.pop()?); stack.push(op(a, b))`. */
  method EvaluateBinary(t: Token, stack: seq<F64>) returns (r: Option<()>, s: seq<F64>)
    requires IsBinary(t)
    ensures (r, s) == Step(t, stack)
  {
    var b, a;
    b, s := Pop(stack);
    if b.None? {
      return None, s;
    }
    a, s := Pop(s);
    if a.None? {
      return None, s;
    }
    assert s == stack[..|stack| - 2];
    s := s + [Apply2(t, a.value, b.value)];
    r := Some(());
  }

  /** `let a = stack.pop()?; stack.push(f(a))`. */
  method EvaluateUnary(t: Token, stack: seq<F64>) returns (r: Option<()>, s: seq<F64>)
    requires IsUnary(t)
    ensures (r, s) == Step(t, stack)
  {
    var a;
    a, s := Pop(stack);
    if a.None? {
      return None, s;
    }
    s := s + [Apply1(t, a.value)];
    r := Some(());
  }

  /** `Token::evaluate`: the stack the source mutates in place is passed in
      and the mutated stack returned. */
  method Evaluate(t: Token, stack: seq<F64>) returns (r: Option<()>, s: seq<F64>)
    ensures (r, s) == Step(t, stack)
  {
    s := stack;
    if IsFunction(t) && !IsOperator(t) {
      if t == Min || t == Max {
        r, s := EvaluateBinary(t, s);
      } else {
        r, s := EvaluateUnary(t, s);
      }
      return;
    } else if !IsFunction(t) && IsOperator(t) {
      r, s := EvaluateBinary(t, s);
      return;
    } else if !IsFunction(t) && !IsOperator(t) {
      if t.Number? {
        s := s + [t.value];
      }
    }
    r := Some(());
  }
}
