/** The parser of src/parser.rs: Dijkstra's shunting-yard conversion from
    infix to postfix tokens, and the postfix evaluation loop, as methods of
    a `Parser` object whose fields hold each stage's result. */
module Parsing {
  import opened Wrappers
  import opened Floats
  import opened Seqs
  import opened Tokens
  import opened Lexing

  /** `op.precedence().unwrap()` on a non-operator on top of the operator
      stack: the one failure of `shunt`. */
  datatype ShuntError = MissingPrecedence(top: Token)

  /** Operator stack and output queue, both with their newest element last. */
  type ShuntState = (seq<Token>, seq<Token>)

  /** The pop loops move a suffix of the operator stack, top first, to the
      end of the output. */
  ghost predicate MovedSuffix(ops: seq<Token>, out: seq<Token>, ops': seq<Token>, out': seq<Token>)
  {
    |ops'| <= |ops| && ops' == ops[..|ops'|] && out' == out + Reverse(ops[|ops'|..])
  }

  lemma MovedStep(ops: seq<Token>, out: seq<Token>, ops': seq<Token>, out': seq<Token>)
    requires ops != [] && MovedSuffix(Init(ops), out + [Last(ops)], ops', out')
    ensures MovedSuffix(ops, out, ops', out')
  {
    var k := |ops'|;
    assert ops[k..] != [] && Last(ops[k..]) == Last(ops) && Init(ops[k..]) == Init(ops)[k..];
    assert ops' == ops[..k];
  }

  lemma MovedNone(ops: seq<Token>, out: seq<Token>)
    ensures MovedSuffix(ops, out, ops, out)
  {
    assert ops[|ops|..] == [];
    assert out + [] == out;
  }

  /** The loop for a comma: pop into the output until the top is `(` or a
      comma, leaving that delimiter on the stack. */
  function PopArguments(ops: seq<Token>, out: seq<Token>): (r: ShuntState)
    ensures MovedSuffix(ops, out, r.0, r.1)
    ensures forall i :: |r.0| <= i < |ops| ==> ops[i] != LParen && ops[i] != Comma
    ensures r.0 == [] || Last(r.0) == LParen || Last(r.0) == Comma
    decreases |ops|
  {
    if ops == [] || Last(ops) == LParen || Last(ops) == Comma then
      MovedNone(ops, out);
      (ops, out)
    else
      var r := PopArguments(Init(ops), out + [Last(ops)]);
      MovedStep(ops, out, r.0, r.1);
      r
  }

  /** What the loop for `)` leaves: without a `(` the whole stack has gone
      to the output, top first; otherwise the topmost `(` has been dropped,
      what lay above it has gone to the output and what lay below it stays. */
  ghost predicate Grouped(ops: seq<Token>, out: seq<Token>, r: ShuntState)
  {
    (LParen !in ops ==> r == ([], out + Reverse(ops))) &&
    (LParen in ops ==>
      |r.0| < |ops| && ops[|r.0|] == LParen && r.0 == ops[..|r.0|] &&
      r.1 == out + Reverse(ops[|r.0| + 1..]) && LParen !in ops[|r.0| + 1..])
  }

  /** The loop for `)`: pop into the output until a `(` is popped, which is
      dropped. Without a `(` the whole stack goes to the output. */
  function PopGroup(ops: seq<Token>, out: seq<Token>): (r: ShuntState)
    ensures Grouped(ops, out, r)
    decreases |ops|
  {
    if ops == [] then
      assert out + Reverse(ops) == out;
      (ops, out)
    else if Last(ops) == LParen then
      assert ops[|ops| - 1 + 1..] == [];
      assert out + [] == out;
      (Init(ops), out)
    else
      var r := PopGroup(Init(ops), out + [Last(ops)]);
      GroupedStep(ops, out, r);
      r
  }

  /** Popping a top that is no `(` into the output keeps Grouped. */
  lemma GroupedStep(ops: seq<Token>, out: seq<Token>, r: ShuntState)
    requires ops != [] && Last(ops) != LParen
    requires Grouped(Init(ops), out + [Last(ops)], r)
    ensures Grouped(ops, out, r)
  {
    assert ops == Init(ops) + [Last(ops)];
    if LParen in Init(ops) {
      var k := |r.0|;
      var above := ops[k + 1..];
      assert above != [] && Last(above) == Last(ops) && Init(above) == Init(ops)[k + 1..];
      assert Reverse(above) == [Last(ops)] + Reverse(Init(ops)[k + 1..]);
      assert r.1 == out + Reverse(above);
      assert r.0 == ops[..k] by { assert Init(ops)[..k] == ops[..k]; }
    } else {
      assert LParen !in ops;
      assert out + Reverse(ops) == out + [Last(ops)] + Reverse(Init(ops));
    }
  }

  /** In `below + [(] + inner` with no `(` in inner, the only `(` with no
      `(` after it is the one between below and inner. */
  lemma TopmostOpen(below: seq<Token>, inner: seq<Token>, k: nat)
    requires LParen !in inner
    requires k < |below + [LParen] + inner|
    requires (below + [LParen] + inner)[k] == LParen
    requires LParen !in (below + [LParen] + inner)[k + 1..]
    ensures k == |below|
  {
    var ops := below + [LParen] + inner;
    assert forall j :: k < j < |ops| ==> ops[j] != LParen by {
      forall j | k < j < |ops| ensures ops[j] != LParen {
        assert ops[j] == ops[k + 1..][j - k - 1];
      }
    }
    assert forall j :: |below| < j < |ops| ==> ops[j] != LParen by {
      forall j | |below| < j < |ops| ensures ops[j] != LParen {
        assert ops[j] == inner[j - |below| - 1];
      }
    }
    assert ops[|below|] == LParen;
  }

  /** `)` stops at the topmost `(`: what lies above it goes to the output,
      top first, the `(` is dropped and what lies below it stays. */
  lemma GroupClosed(below: seq<Token>, inner: seq<Token>, out: seq<Token>)
    requires LParen !in inner
    ensures PopGroup(below + [LParen] + inner, out) == (below, out + Reverse(inner))
  {
    var ops := below + [LParen] + inner;
    var r := PopGroup(ops, out);
    assert LParen in ops by { assert ops[|below|] == LParen; }
    var k := |r.0|;
    assert k == |below| by { TopmostOpen(below, inner, k); }
    assert ops[..k] == below;
    assert ops[k + 1..] == inner;
  }

  /** The test of `shunt`'s operator loop: the operator on top of the stack
      goes to the output before tok when its precedence is at least tok's
      and tok is left-associative. */
  predicate PopsBefore(top: Token, tok: Token)
    requires IsOperator(top) && IsOperator(tok)
  {
    Precedence(top).value >= Precedence(tok).value && !Associativity(tok).value
  }

  /** The loop for an operator: pop while the top is neither parenthesis
      and has precedence at least that of tok, tok being left-associative.
      A top that is no operator has no precedence: the source's `unwrap`
      fails. */
  function PopOperators(tok: Token, ops: seq<Token>, out: seq<Token>): (r: Result<ShuntState, ShuntError>)
    requires IsOperator(tok)
    ensures r.Ok? ==> MovedSuffix(ops, out, r.value.0, r.value.1)
    ensures r.Ok? ==> forall i :: |r.value.0| <= i < |ops| ==>
      IsOperator(ops[i]) && PopsBefore(ops[i], tok)
    ensures r.Ok? && r.value.0 != [] ==>
      var top := Last(r.value.0);
      IsParen(top) || (IsOperator(top) && !PopsBefore(top, tok))
    ensures r.Err? ==>
      exists j :: 0 <= j < |ops| && r.error.top == ops[j] &&
        !IsParen(ops[j]) && !IsOperator(ops[j]) &&
        forall i :: j < i < |ops| ==> IsOperator(ops[i]) && PopsBefore(ops[i], tok)
    decreases |ops|
  {
    if ops == [] then
      MovedNone(ops, out);
      Ok((ops, out))
    else
      var op := Last(ops);
      if IsParen(op) then
        MovedNone(ops, out);
        Ok((ops, out))
      else if Precedence(op).None? then
        Err(MissingPrecedence(op))
      else if !PopsBefore(op, tok) then
        MovedNone(ops, out);
        Ok((ops, out))
      else
        var r := PopOperators(tok, Init(ops), out + [op]);
        if r.Ok? then
          MovedStep(ops, out, r.value.0, r.value.1);
          r
        else
          assert forall i :: 0 <= i < |Init(ops)| ==> Init(ops)[i] == ops[i];
          r
  }

  /** What one iteration of `shunt`'s main loop does with token tok, by the
      source's dispatch on (is_operator, is_function, is_paren). */
  function ShuntStep(tok: Token, ops: seq<Token>, out: seq<Token>): Result<ShuntState, ShuntError>
  {
    if !IsOperator(tok) && IsFunction(tok) && !IsParen(tok) then
      Ok((ops + [tok], out))
    else if !IsOperator(tok) && !IsFunction(tok) && !IsParen(tok) then
      if tok == Comma then Ok(PopArguments(ops, out)) else Ok((ops, out + [tok]))
    else if !IsOperator(tok) && IsParen(tok) then
      if tok == LParen then Ok((ops + [tok], out)) else Ok(PopGroup(ops, out))
    else
      match PopOperators(tok, ops, out)
      case Err(e) => Err(e)
      case Ok(st) => Ok((st.0 + [tok], st.1))
  }

  /** The main loop of `shunt` over the remaining input queue. */
  function ShuntFrom(input: seq<Token>, ops: seq<Token>, out: seq<Token>): Result<ShuntState, ShuntError>
    decreases |input|
  {
    if input == [] then Ok((ops, out))
    else
      match ShuntStep(input[0], ops, out)
      case Err(e) => Err(e)
      case Ok(st) => ShuntFrom(input[1..], st.0, st.1)
  }

  /** What `shunt` leaves in `postfix_tokens`: the main loop's output, then
      whatever the operator stack still holds, top first. */
  function ShuntingYard(infix: seq<Token>): Result<seq<Token>, ShuntError>
  {
    match ShuntFrom(infix, [], [])
    case Err(e) => Err(e)
    case Ok(st) => Ok(st.1 + Reverse(st.0))
  }

  /** The postfix loop of `evaluate`: each token's step in turn, its
      underflow result ignored. */
  function Run(tokens: seq<Token>, stack: seq<F64>): seq<F64>
    decreases |tokens|
  {
    if tokens == [] then stack else Run(tokens[1..], Step(tokens[0], stack).1)
  }

  /** A number goes straight to the output. */
  lemma NumberToOutput(x: F64, ops: seq<Token>, out: seq<Token>)
    ensures ShuntStep(Number(x), ops, out) == Ok((ops, out + [Number(x)]))
  {
  }

  /** `(` and functions wait on the operator stack. */
  lemma PushedToStack(tok: Token, ops: seq<Token>, out: seq<Token>)
    requires tok == LParen || IsFunction(tok)
    ensures ShuntStep(tok, ops, out) == Ok((ops + [tok], out))
  {
    ClassesExclusive(tok);
  }

  /** An operator over an empty stack, a parenthesis or an operator it does
      not yield to is pushed without moving anything. */
  lemma OperatorPushed(tok: Token, ops: seq<Token>, out: seq<Token>)
    requires IsOperator(tok)
    requires ops == [] || IsParen(Last(ops)) || (IsOperator(Last(ops)) && !PopsBefore(Last(ops), tok))
    ensures ShuntStep(tok, ops, out) == Ok((ops + [tok], out))
  {
    ClassesExclusive(tok);
  }

  /** Pow is right-associative, so it never pops anything; it still fails
      on a non-operator, non-parenthesis top. */
  lemma PowPopsNothing(ops: seq<Token>, out: seq<Token>)
    ensures PopOperators(Pow, ops, out) ==
      if ops != [] && !IsParen(Last(ops)) && !IsOperator(Last(ops)) then Err(MissingPrecedence(Last(ops)))
      else Ok((ops, out))
  {
  }

  /** An operator that finds a function token on top of the operator stack
      fails: functions have no precedence. */
  lemma FunctionOnTopFails(tok: Token, ops: seq<Token>, out: seq<Token>)
    requires IsOperator(tok) && ops != [] && IsFunction(Last(ops))
    ensures PopOperators(tok, ops, out) == Err(MissingPrecedence(Last(ops)))
  {
    ClassesExclusive(Last(ops));
  }

  /** What the operator stack may hold: operators, functions and `(`. */
  predicate Stacked(t: Token) { IsOperator(t) || IsFunction(t) || t == LParen }

  /** The tokens that carry meaning into the postfix output. */
  predicate Emitted(t: Token) { t.Number? || IsOperator(t) || IsFunction(t) }

  predicate IsNumberToken(t: Token) { t.Number? }

  ghost predicate ShuntInv(ops: seq<Token>, out: seq<Token>)
  {
    (forall i :: 0 <= i < |ops| ==> Stacked(ops[i])) &&
    (forall i :: 0 <= i < |out| ==> Emitted(out[i]))
  }

  /** The number of `(` on the operator stack after tok, given n before. */
  function OpenAfter(n: nat, tok: Token): nat
  {
    if tok == LParen then n + 1
    else if tok == RParen then (if n > 0 then n - 1 else 0)
    else n
  }

  /** The `(` of input that no `)` closes. */
  function Unclosed(n: nat, input: seq<Token>): nat
    decreases |input|
  {
    if input == [] then n else Unclosed(OpenAfter(n, input[0]), input[1..])
  }

  /** Tokens that may leave the operator stack for the output: no `(`. */
  ghost predicate Movable(m: seq<Token>)
  {
    forall i :: 0 <= i < |m| ==> Stacked(m[i]) && m[i] != LParen
  }

  lemma MovableReversed(m: seq<Token>)
    requires Movable(m)
    ensures forall i :: 0 <= i < |Reverse(m)| ==> Emitted(Reverse(m)[i]) && !IsNumberToken(Reverse(m)[i])
  {
    forall i | 0 <= i < |Reverse(m)| ensures Emitted(Reverse(m)[i]) && !IsNumberToken(Reverse(m)[i]) {
      ReverseElements(m, Reverse(m)[i]);
    }
  }

  lemma MoveOutput(out: seq<Token>, m: seq<Token>)
    requires Movable(m)
    ensures Filter(IsNumberToken, out + Reverse(m)) == Filter(IsNumberToken, out)
    ensures (forall i :: 0 <= i < |out| ==> Emitted(out[i])) ==>
      forall i :: 0 <= i < |out + Reverse(m)| ==> Emitted((out + Reverse(m))[i])
  {
    MovableReversed(m);
    FilterAppend(IsNumberToken, out, Reverse(m));
    FilterNone(IsNumberToken, Reverse(m));
  }

  lemma MoveCounts(kept: seq<Token>, out: seq<Token>, m: seq<Token>)
    requires Movable(m)
    ensures multiset(out + Reverse(m)) + multiset(Filter(Emitted, kept))
      == multiset(out) + multiset(Filter(Emitted, kept + m))
    ensures multiset(kept + m)[LParen] == multiset(kept)[LParen]
  {
    FilterAppend(Emitted, kept, m);
    FilterAll(Emitted, m);
    ReverseMultiset(m);
  }

  /** Moving a suffix without `(` from the stack to the output keeps the
      invariant, the numbers, the meaning tokens and the `(` count. */
  lemma MoveKeeps(ops: seq<Token>, out: seq<Token>, ops': seq<Token>, out': seq<Token>)
    requires ShuntInv(ops, out) && MovedSuffix(ops, out, ops', out')
    requires LParen !in ops[|ops'|..]
    ensures ShuntInv(ops', out')
    ensures Filter(IsNumberToken, out') == Filter(IsNumberToken, out)
    ensures multiset(out') + multiset(Filter(Emitted, ops')) == multiset(out) + multiset(Filter(Emitted, ops))
    ensures multiset(ops')[LParen] == multiset(ops)[LParen]
  {
    var m := ops[|ops'|..];
    assert ops == ops' + m;
    assert Movable(m) by {
      forall i | 0 <= i < |m| ensures Stacked(m[i]) && m[i] != LParen {
        assert m[i] == ops[|ops'| + i];
      }
    }
    MoveOutput(out, m);
    MoveCounts(ops', out, m);
  }

  /** What one main-loop step keeps, from (ops, out) to (ops', out') on tok:
      the stack and output invariant; each number goes straight to the
      output; meaning tokens move between input, stack and output without
      loss or duplication; the `(` count follows OpenAfter. */
  ghost predicate StepFacts(tok: Token, ops: seq<Token>, out: seq<Token>, ops': seq<Token>, out': seq<Token>)
  {
    ShuntInv(ops', out') && NumbersKept(out, [tok], out') && MeaningKept(ops, out, [tok], ops', out') &&
    multiset(ops')[LParen] == OpenAfter(multiset(ops)[LParen], tok)
  }

  /** The numbers of input are appended to the output, in order. */
  ghost predicate NumbersKept(out: seq<Token>, input: seq<Token>, out': seq<Token>)
  {
    Filter(IsNumberToken, out') == Filter(IsNumberToken, out) + Filter(IsNumberToken, input)
  }

  /** The meaning tokens of input are added to those of the stack and the
      output, without loss or duplication. */
  ghost predicate MeaningKept(ops: seq<Token>, out: seq<Token>, input: seq<Token>, ops': seq<Token>, out': seq<Token>)
  {
    multiset(out') + multiset(Filter(Emitted, ops'))
      == multiset(out) + multiset(Filter(Emitted, ops)) + multiset(Filter(Emitted, input))
  }

  /** A token that is no number adds nothing to the numbers of the output. */
  lemma NoNumberKept(tok: Token, out: seq<Token>, out': seq<Token>)
    requires !tok.Number? && Filter(IsNumberToken, out') == Filter(IsNumberToken, out)
    ensures NumbersKept(out, [tok], out')
  {
    FilterSingle(IsNumberToken, tok);
    assert Filter(IsNumberToken, out) + [] == Filter(IsNumberToken, out);
  }

  /** Pushing tok after some tokens moved from the stack to the output. */
  lemma PushMeaning(tok: Token, ops: seq<Token>, out: seq<Token>, kept: seq<Token>, out': seq<Token>)
    requires multiset(out') + multiset(Filter(Emitted, kept)) == multiset(out) + multiset(Filter(Emitted, ops))
    ensures MeaningKept(ops, out, [tok], kept + [tok], out')
  {
    FilterAppend(Emitted, kept, [tok]);
  }

  /** A token that means nothing adds nothing to the meaning tokens. */
  lemma NoMeaningKept(tok: Token, ops: seq<Token>, out: seq<Token>, ops': seq<Token>, out': seq<Token>)
    requires !Emitted(tok)
    requires multiset(out') + multiset(Filter(Emitted, ops')) == multiset(out) + multiset(Filter(Emitted, ops))
    ensures MeaningKept(ops, out, [tok], ops', out')
  {
    FilterSingle(Emitted, tok);
    assert multiset(Filter(Emitted, [tok])) == multiset{};
  }

  lemma PushCount(tok: Token, ops: seq<Token>)
    requires tok != RParen
    ensures multiset(ops + [tok])[LParen] == OpenAfter(multiset(ops)[LParen], tok)
  {
    assert multiset(ops + [tok]) == multiset(ops) + multiset{tok};
  }

  lemma PushInv(tok: Token, ops: seq<Token>, out: seq<Token>)
    requires ShuntInv(ops, out) && Stacked(tok)
    ensures ShuntInv(ops + [tok], out)
  {
    assert forall i :: 0 <= i < |ops| ==> (ops + [tok])[i] == ops[i];
  }

  lemma PushKeeps(tok: Token, ops: seq<Token>, out: seq<Token>)
    requires ShuntInv(ops, out) && (IsFunction(tok) || tok == LParen)
    ensures StepFacts(tok, ops, out, ops + [tok], out)
  {
    NoNumberKept(tok, out, out);
    PushMeaning(tok, ops, out, ops, out);
    PushCount(tok, ops);
    PushInv(tok, ops, out);
  }

  lemma NumberKeeps(tok: Token, ops: seq<Token>, out: seq<Token>)
    requires ShuntInv(ops, out) && tok.Number?
    ensures StepFacts(tok, ops, out, ops, out + [tok])
  {
    FilterAppend(IsNumberToken, out, [tok]);
  }

  lemma CommaKeeps(ops: seq<Token>, out: seq<Token>)
    requires ShuntInv(ops, out)
    ensures var st := PopArguments(ops, out); StepFacts(Comma, ops, out, st.0, st.1)
  {
    var st := PopArguments(ops, out);
    MoveKeeps(ops, out, st.0, st.1);
    NoNumberKept(Comma, out, st.1);
    NoMeaningKept(Comma, ops, out, st.0, st.1);
  }

  lemma DropOpenOutput(ops: seq<Token>, out: seq<Token>, rest: seq<Token>, out': seq<Token>)
    requires ShuntInv(ops, out)
    requires MovedSuffix(ops, out, rest + [LParen], out') && LParen !in ops[|rest| + 1..]
    ensures ShuntInv(rest, out')
    ensures Filter(IsNumberToken, out') == Filter(IsNumberToken, out) + Filter(IsNumberToken, [RParen])
  {
    var kept := rest + [LParen];
    MoveKeeps(ops, out, kept, out');
    assert forall i :: 0 <= i < |rest| ==> rest[i] == kept[i];
    assert [RParen][1..] == [];
  }

  lemma DropOpenCounts(ops: seq<Token>, out: seq<Token>, rest: seq<Token>, out': seq<Token>)
    requires multiset(out') + multiset(Filter(Emitted, rest + [LParen]))
      == multiset(out) + multiset(Filter(Emitted, ops))
    ensures multiset(out') + multiset(Filter(Emitted, rest))
      == multiset(out) + multiset(Filter(Emitted, ops)) + multiset(Filter(Emitted, [RParen]))
  {
    FilterSwapMultiset(Emitted, multiset(out'), multiset(out) + multiset(Filter(Emitted, ops)), rest, LParen, RParen);
  }

  lemma DropOpenParens(ops: seq<Token>, out: seq<Token>, rest: seq<Token>, out': seq<Token>)
    requires ShuntInv(ops, out)
    requires MovedSuffix(ops, out, rest + [LParen], out') && LParen !in ops[|rest| + 1..]
    ensures multiset(rest)[LParen] == OpenAfter(multiset(ops)[LParen], RParen)
  {
    var kept := rest + [LParen];
    MoveKeeps(ops, out, kept, out');
    assert multiset(kept) == multiset(rest) + multiset{LParen};
  }

  /** A `)` that finds its `(` drops it: meaning tokens and numbers are
      unaffected and one fewer `(` remains. */
  lemma DropOpenKeeps(ops: seq<Token>, out: seq<Token>, rest: seq<Token>, out': seq<Token>)
    requires ShuntInv(ops, out)
    requires MovedSuffix(ops, out, rest + [LParen], out') && LParen !in ops[|rest| + 1..]
    ensures StepFacts(RParen, ops, out, rest, out')
  {
    DropOpenOutput(ops, out, rest, out');
    MoveKeeps(ops, out, rest + [LParen], out');
    DropOpenCounts(ops, out, rest, out');
    DropOpenParens(ops, out, rest, out');
  }

  lemma FoundOpenKeeps(ops: seq<Token>, out: seq<Token>)
    requires ShuntInv(ops, out) && LParen in ops
    ensures var st := PopGroup(ops, out); StepFacts(RParen, ops, out, st.0, st.1)
  {
    var st := PopGroup(ops, out);
    var k := |st.0|;
    assert ops[..k + 1] == st.0 + [LParen];
    assert MovedSuffix(ops, out, st.0 + [LParen], st.1) by {
      assert ops[k + 1..] == ops[|st.0 + [LParen]|..];
    }
    DropOpenKeeps(ops, out, st.0, st.1);
  }

  lemma NoOpenKeeps(ops: seq<Token>, out: seq<Token>, out': seq<Token>)
    requires ShuntInv(ops, out) && LParen !in ops && out' == out + Reverse(ops)
    ensures StepFacts(RParen, ops, out, [], out')
  {
    assert MovedSuffix(ops, out, [], out') by {
      assert ops[0..] == ops;
    }
    MoveKeeps(ops, out, [], out');
    NoNumberKept(RParen, out, out');
    NoMeaningKept(RParen, ops, out, [], out');
  }

  lemma CloseKeeps(ops: seq<Token>, out: seq<Token>)
    requires ShuntInv(ops, out)
    ensures var st := PopGroup(ops, out); StepFacts(RParen, ops, out, st.0, st.1)
  {
    if LParen in ops {
      FoundOpenKeeps(ops, out);
    } else {
      NoOpenKeeps(ops, out, out + Reverse(ops));
    }
  }

  lemma OperatorKeeps(tok: Token, ops: seq<Token>, out: seq<Token>, kept: seq<Token>, out': seq<Token>)
    requires ShuntInv(ops, out) && IsOperator(tok)
    requires MovedSuffix(ops, out, kept, out') && LParen !in ops[|kept|..]
    ensures StepFacts(tok, ops, out, kept + [tok], out')
  {
    MoveKeeps(ops, out, kept, out');
    NoNumberKept(tok, out, out');
    PushMeaning(tok, ops, out, kept, out');
    PushCount(tok, kept);
    PushInv(tok, kept, out');
  }

  /** Every successful main-loop step keeps StepFacts. */
  lemma StepKeeps(tok: Token, ops: seq<Token>, out: seq<Token>)
    requires ShuntInv(ops, out) && ShuntStep(tok, ops, out).Ok?
    ensures var st := ShuntStep(tok, ops, out).value; StepFacts(tok, ops, out, st.0, st.1)
  {
    ClassesExclusive(tok);
    if IsOperator(tok) {
      var mid := PopOperators(tok, ops, out).value;
      assert LParen !in ops[|mid.0|..] by {
        forall i | |mid.0| <= i < |ops| ensures ops[i] != LParen { }
      }
      OperatorKeeps(tok, ops, out, mid.0, mid.1);
    } else if IsFunction(tok) || tok == LParen {
      PushKeeps(tok, ops, out);
    } else if tok == RParen {
      CloseKeeps(ops, out);
    } else if tok == Comma {
      CommaKeeps(ops, out);
    } else {
      NumberKeeps(tok, ops, out);
    }
  }

  /** StepFacts over a whole input sequence. */
  ghost predicate RunFacts(input: seq<Token>, ops: seq<Token>, out: seq<Token>, ops': seq<Token>, out': seq<Token>)
  {
    ShuntInv(ops', out') && NumbersKept(out, input, out') && MeaningKept(ops, out, input, ops', out') &&
    multiset(ops')[LParen] == Unclosed(multiset(ops)[LParen], input)
  }

  lemma RunFactsEmpty(ops: seq<Token>, out: seq<Token>)
    requires ShuntInv(ops, out)
    ensures RunFacts([], ops, out, ops, out)
  {
    assert Filter(IsNumberToken, out) + [] == Filter(IsNumberToken, out);
  }

  lemma ComposeFacts(tok: Token, rest: seq<Token>, ops: seq<Token>, out: seq<Token>,
                     mid: ShuntState, ops': seq<Token>, out': seq<Token>)
    requires StepFacts(tok, ops, out, mid.0, mid.1) && RunFacts(rest, mid.0, mid.1, ops', out')
    ensures RunFacts([tok] + rest, ops, out, ops', out')
  {
    var input := [tok] + rest;
    assert Filter(IsNumberToken, out') == Filter(IsNumberToken, out) + Filter(IsNumberToken, input) by {
      FilterAppend(IsNumberToken, [tok], rest);
      ConcatAssociative(Filter(IsNumberToken, out), Filter(IsNumberToken, [tok]), Filter(IsNumberToken, rest));
    }
    assert multiset(out') + multiset(Filter(Emitted, ops'))
        == multiset(out) + multiset(Filter(Emitted, ops)) + multiset(Filter(Emitted, input)) by {
      FilterAppend(Emitted, [tok], rest);
      MultisetChain(multiset(out') + multiset(Filter(Emitted, ops')), multiset(mid.1) + multiset(Filter(Emitted, mid.0)),
        multiset(out) + multiset(Filter(Emitted, ops)), Filter(Emitted, [tok]), Filter(Emitted, rest));
    }
    assert multiset(ops')[LParen] == Unclosed(multiset(ops)[LParen], input) by {
      assert input[0] == tok && input[1..] == rest;
    }
  }

  lemma {:induction false} ShuntFromKeeps(input: seq<Token>, ops: seq<Token>, out: seq<Token>)
    requires ShuntInv(ops, out) && ShuntFrom(input, ops, out).Ok?
    ensures var st := ShuntFrom(input, ops, out).value; RunFacts(input, ops, out, st.0, st.1)
    decreases |input|
  {
    if input == [] {
      RunFactsEmpty(ops, out);
    } else {
      var tok := input[0];
      var next := ShuntStep(tok, ops, out).value;
      var st := ShuntFrom(input, ops, out).value;
      StepKeeps(tok, ops, out);
      ShuntFromKeeps(input[1..], next.0, next.1);
      assert input == [tok] + input[1..];
      ComposeFacts(tok, input[1..], ops, out, next, st.0, st.1);
    }
  }

  /** The main loop's result for infix, before the final drain. */
  function Unfinished(infix: seq<Token>): ShuntState
    requires ShuntingYard(infix).Ok?
  {
    ShuntFrom(infix, [], []).value
  }

  lemma UnfinishedFacts(infix: seq<Token>)
    requires ShuntingYard(infix).Ok?
    ensures var st := Unfinished(infix);
      ShuntingYard(infix).value == st.1 + Reverse(st.0) && RunFacts(infix, [], [], st.0, st.1)
  {
    ShuntFromKeeps(infix, [], []);
  }

  /** A successful conversion outputs only numbers, operators, functions
      and unmatched `(`: never a `)` or a comma. */
  lemma ShuntedTokens(infix: seq<Token>)
    requires ShuntingYard(infix).Ok?
    ensures var p := ShuntingYard(infix).value;
      (forall i :: 0 <= i < |p| ==> Emitted(p[i]) || p[i] == LParen) && RParen !in p && Comma !in p
  {
    var st := Unfinished(infix);
    UnfinishedFacts(infix);
    DrainedTokens(st.0, st.1);
  }

  /** The drained output of a state that keeps ShuntInv. */
  lemma DrainedTokens(ops: seq<Token>, out: seq<Token>)
    requires ShuntInv(ops, out)
    ensures var p := out + Reverse(ops);
      (forall i :: 0 <= i < |p| ==> Emitted(p[i]) || p[i] == LParen) && RParen !in p && Comma !in p
  {
    var p := out + Reverse(ops);
    forall i | 0 <= i < |p| ensures Emitted(p[i]) || p[i] == LParen {
      if i >= |out| {
        assert p[i] == Reverse(ops)[i - |out|];
        ReverseElements(ops, p[i]);
      }
    }
  }

  /** Each number, operator and function of the input appears in the
      output exactly once. */
  lemma ShuntedMeaning(infix: seq<Token>)
    requires ShuntingYard(infix).Ok?
    ensures multiset(Filter(Emitted, ShuntingYard(infix).value)) == multiset(Filter(Emitted, infix))
  {
    var st := Unfinished(infix);
    UnfinishedFacts(infix);
    FilterAppend(Emitted, st.1, Reverse(st.0));
    FilterAll(Emitted, st.1);
    FilterReverseMultiset(Emitted, st.0);
    assert Filter(Emitted, []) == [];
  }

  /** The numbers reach the output in their input order. */
  lemma ShuntedNumbers(infix: seq<Token>)
    requires ShuntingYard(infix).Ok?
    ensures Filter(IsNumberToken, ShuntingYard(infix).value) == Filter(IsNumberToken, infix)
  {
    var st := Unfinished(infix);
    UnfinishedFacts(infix);
    forall i | 0 <= i < |Reverse(st.0)| ensures !IsNumberToken(Reverse(st.0)[i]) {
      ReverseElements(st.0, Reverse(st.0)[i]);
    }
    FilterAppend(IsNumberToken, st.1, Reverse(st.0));
    FilterNone(IsNumberToken, Reverse(st.0));
    assert Filter(IsNumberToken, []) == [];
  }

  /** The output holds exactly as many `(` as the input leaves unclosed, and
      they all come after the last number: they were drained from the stack. */
  lemma ShuntedParens(infix: seq<Token>)
    requires ShuntingYard(infix).Ok?
    ensures var p := ShuntingYard(infix).value;
      multiset(p)[LParen] == Unclosed(0, infix) &&
      forall i, j :: 0 <= i < j < |p| && p[i] == LParen ==> !p[j].Number?
  {
    var st := Unfinished(infix);
    UnfinishedFacts(infix);
    DrainedCount(st.0, st.1);
    DrainedOrder(st.0, st.1);
  }

  lemma DrainedCount(ops: seq<Token>, out: seq<Token>)
    requires forall i :: 0 <= i < |out| ==> Emitted(out[i])
    ensures multiset(out + Reverse(ops))[LParen] == multiset(ops)[LParen]
  {
    ReverseMultiset(ops);
    assert LParen !in multiset(out);
  }

  lemma DrainedOrder(ops: seq<Token>, out: seq<Token>)
    requires ShuntInv(ops, out)
    ensures var p := out + Reverse(ops);
      forall i, j :: 0 <= i < j < |p| && p[i] == LParen ==> !p[j].Number?
  {
    var p := out + Reverse(ops);
    forall i, j | 0 <= i < j < |p| && p[i] == LParen ensures !p[j].Number? {
      assert i >= |out|;
      assert p[j] == Reverse(ops)[j - |out|];
      ReverseElements(ops, p[j]);
    }
  }

  /** Running a concatenation runs its parts in turn. */
  lemma {:induction false} RunAppend(a: seq<Token>, b: seq<Token>, stack: seq<F64>)
    ensures Run(a + b, stack) == Run(b, Run(a, stack))
    decreases |a|
  {
    if a == [] {
      assert a + b == b;
    } else {
      assert (a + b)[0] == a[0] && (a + b)[1..] == a[1..] + b;
      RunAppend(a[1..], b, Step(a[0], stack).1);
    }
  }

  /** Expression trees: the reference meaning of a postfix sequence. */
  datatype Expr =
    | Literal(v: F64)
    | BinaryNode(op: Token, left: Expr, right: Expr)
    | UnaryNode(f: Token, arg: Expr)

  ghost predicate WellFormed(e: Expr)
  {
    match e
    case Literal(_) => true
    case BinaryNode(op, l, r) => IsBinary(op) && WellFormed(l) && WellFormed(r)
    case UnaryNode(f, a) => IsUnary(f) && WellFormed(a)
  }

  /** The postfix form of e: operands first, left before right. */
  function PostfixOf(e: Expr): seq<Token>
  {
    match e
    case Literal(v) => [Number(v)]
    case BinaryNode(op, l, r) => PostfixOf(l) + PostfixOf(r) + [op]
    case UnaryNode(f, a) => PostfixOf(a) + [f]
  }

  function ValueOf(e: Expr): F64
    requires WellFormed(e)
  {
    match e
    case Literal(v) => v
    case BinaryNode(op, l, r) => Apply2(op, ValueOf(l), ValueOf(r))
    case UnaryNode(f, a) => Apply1(f, ValueOf(a))
  }

  /** The evaluation loop computes what the expression means: running the
      postfix form of e on any stack pushes exactly the value of e, with
      each operator applied to its left and right operands in that order. */
  lemma {:induction false} RunPostfix(e: Expr, stack: seq<F64>)
    requires WellFormed(e)
    ensures Run(PostfixOf(e), stack) == stack + [ValueOf(e)]
  {
    match e
    case Literal(v) =>
    case BinaryNode(op, l, r) =>
      RunAppend(PostfixOf(l) + PostfixOf(r), [op], stack);
      RunAppend(PostfixOf(l), PostfixOf(r), stack);
      RunPostfix(l, stack);
      RunPostfix(r, stack + [ValueOf(l)]);
      assert stack + [ValueOf(l)] + [ValueOf(r)] == stack + [ValueOf(l), ValueOf(r)];
      StepBinary(op, stack, ValueOf(l), ValueOf(r));
    case UnaryNode(f, a) =>
      RunAppend(PostfixOf(a), [f], stack);
      RunPostfix(a, stack);
      StepUnary(f, stack, ValueOf(a));
  }

  /** `Parser`: the lexer it owns and the three results of its stages. */
  class Parser {
    var lexer: Lexer
    var infixTokens: seq<Token>
    var postfixTokens: seq<Token>
    var stack: seq<F64>

    /** `Parser::new`. */
    constructor ()
      ensures fresh(lexer) && lexer.text == ""
      ensures infixTokens == [] && postfixTokens == [] && stack == []
    {
      lexer := new Lexer();
      infixTokens, postfixTokens, stack := [], [], [];
    }

    /** `input`: hands the expression text to the lexer. */
    method Input(insert: string)
      modifies lexer
      ensures lexer.text == insert
    {
      lexer.SetText(insert);
    }

    /** `tokenize`: the lexer's tokens become the infix tokens; a lexer
        failure (a panic in the source) is returned and changes nothing. */
    method Tokenize() returns (err: Option<LexError>)
      modifies this`infixTokens
      ensures Lex(lexer.text).Ok? ==> err == None && infixTokens == Lex(lexer.text).value
      ensures Lex(lexer.text).Err? ==> err == Some(Lex(lexer.text).error) && infixTokens == old(infixTokens)
    {
      var r := lexer.Tokenize();
      match r
      case Ok(tokens) =>
        infixTokens := tokens;
        err := None;
      case Err(e) =>
        err := Some(e);
    }

    /** `shunt`: converts `infixTokens` into `postfixTokens`; the operator
        stack it uses is empty when it finishes. */
    method Shunt() returns (err: Option<ShuntError>)
      modifies this`postfixTokens
      ensures ShuntingYard(infixTokens).Ok? ==> err == None && postfixTokens == ShuntingYard(infixTokens).value
      ensures ShuntingYard(infixTokens).Err? ==> err == Some(ShuntingYard(infixTokens).error) && postfixTokens == old(postfixTokens)
    {
      var inputQueue := infixTokens;
      var operatorStack: seq<Token> := [];
      var outputQueue: seq<Token> := [];
      while inputQueue != []
        invariant ShuntFrom(inputQueue, operatorStack, outputQueue) == ShuntFrom(infixTokens, [], [])
        decreases |inputQueue|
      {
        var tok := inputQueue[0];
        inputQueue := inputQueue[1..];
        ghost var ops0, out0 := operatorStack, outputQueue;
        if !IsOperator(tok) && IsFunction(tok) && !IsParen(tok) {
          operatorStack := operatorStack + [tok];
        } else if !IsOperator(tok) && !IsFunction(tok) && !IsParen(tok) {
          if tok == Comma {
            while operatorStack != [] && Last(operatorStack) != LParen && Last(operatorStack) != Comma
              invariant PopArguments(operatorStack, outputQueue) == PopArguments(ops0, out0)
              decreases |operatorStack|
            {
              outputQueue := outputQueue + [Last(operatorStack)];
              operatorStack := Init(operatorStack);
            }
          } else {
            outputQueue := outputQueue + [tok];
          }
        } else if !IsOperator(tok) && IsParen(tok) {
          if tok == LParen {
            operatorStack := operatorStack + [tok];
          } else {
            while operatorStack != []
              invariant PopGroup(operatorStack, outputQueue) == PopGroup(ops0, out0)
              decreases |operatorStack|
            {
              var op := Last(operatorStack);
              operatorStack := Init(operatorStack);
              if op == LParen {
                break;
              }
              outputQueue := outputQueue + [op];
            }
          }
        } else {
          while operatorStack != []
            invariant PopOperators(tok, operatorStack, outputQueue) == PopOperators(tok, ops0, out0)
            decreases |operatorStack|
          {
            var op := Last(operatorStack);
            if IsParen(op) {
              break;
            } else if Precedence(op).None? {
              return Some(MissingPrecedence(op));
            } else if !PopsBefore(op, tok) {
              break;
            }
            outputQueue := outputQueue + [op];
            operatorStack := Init(operatorStack);
          }
          operatorStack := operatorStack + [tok];
        }
        assert ShuntStep(tok, ops0, out0) == Ok((operatorStack, outputQueue));
      }
      ghost var final := outputQueue + Reverse(operatorStack);
      while operatorStack != []
        invariant outputQueue + Reverse(operatorStack) == final
        decreases |operatorStack|
      {
        outputQueue := outputQueue + [Last(operatorStack)];
        operatorStack := Init(operatorStack);
      }
      postfixTokens := outputQueue;
      err := None;
    }

    /** `evaluate`: runs every postfix token on `stack`, which is not
        cleared first; underflows are ignored. */
    method Evaluate()
      modifies this`stack
      ensures stack == Run(postfixTokens, old(stack))
    {
      var tokens := postfixTokens;
      while tokens != []
        invariant Run(tokens, stack) == Run(postfixTokens, old(stack))
        decreases |tokens|
      {
        var tok := tokens[0];
        tokens := tokens[1..];
        var _, next := Tokens.Evaluate(tok, stack);
        stack := next;
      }
    }
  }
}
