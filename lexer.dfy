/** The lexer of src/lexer.rs: lookup tables for function names and
    symbol characters, and `tokennize`, a one-pass scanner with a number
    buffer, an identifier buffer and a mode flag for each. */
module Lexing {
  import opened Wrappers
  import opened Floats
  import opened Tokens
  import opened Seqs

  /** The scanner's failures, which the source raises as panics. */
  datatype LexError =
    | InvalidFunction(name: string)   // `parse_function` on an unknown name
    | InvalidNumber(text: string)     // `unwrap` of a failed f64 parse

  /** `parse_function`: exact, case-sensitive names only. */
  function ParseFunction(func: string): (r: Option<Token>)
    ensures r.Some? <==> func in {"max", "min", "sin", "cos", "tan", "sqrt"}
    ensures r.Some? ==> IsFunction(r.value)
  {
    match func
    case "max" => Some(Max)
    case "min" => Some(Min)
    case "sin" => Some(Sin)
    case "cos" => Some(Cos)
    case "tan" => Some(Tan)
    case "sqrt" => Some(Sqrt)
    case _ => None
  }

  /** The eight single-character symbols. */
  predicate IsSymbol(c: char) { c in "+-/*^()," }

  /** Tokens that only `parse_op` produces. */
  predicate IsStructural(t: Token) { IsOperator(t) || IsParen(t) || t == Comma }

  /** `parse_op`; `None` is its panic, which the scanner never reaches. */
  function ParseOp(op: char): (r: Option<Token>)
    ensures r.Some? <==> IsSymbol(op)
    ensures r.Some? ==> IsStructural(r.value)
  {
    match op
    case '+' => Some(Add)
    case '-' => Some(Sub)
    case '/' => Some(Div)
    case '*' => Some(Mul)
    case '^' => Some(Pow)
    case '(' => Some(LParen)
    case ')' => Some(RParen)
    case ',' => Some(Comma)
    case _ => None
  }

  /** The distinct symbols give distinct tokens. */
  lemma ParseOpInjective(c: char, d: char)
    requires IsSymbol(c) && IsSymbol(d) && c != d
    ensures ParseOp(c) != ParseOp(d)
  {
  }

  /** The scanner's local state: `num_stack`, `fnc_stack`, `parsing_num`,
      `parsing_fnc` and `output_queue`. */
  datatype Scanner = Scanner(numStack: string, fncStack: string, parsingNum: bool, parsingFnc: bool, output: seq<Token>)

  const Start := Scanner("", "", false, false, [])

  /** The scanner's invariant: never in both modes at once (so the
      "both at once" panics cannot happen), and the number buffer holds
      only digits and points. */
  predicate Valid(st: Scanner)
  {
    !(st.parsingNum && st.parsingFnc) &&
    forall i :: 0 <= i < |st.numStack| ==> IsNumChar(st.numStack[i])
  }

  /** The token a pending buffer turns into: none when neither mode is on. */
  function Flush(st: Scanner): (r: Result<seq<Token>, LexError>)
    requires Valid(st)
    ensures r.Ok? ==> |r.value| == (if st.parsingNum || st.parsingFnc then 1 else 0)
    ensures st.parsingNum ==> (r.Ok? <==> IsDecimal(st.numStack))
    ensures st.parsingFnc ==> (r.Ok? <==> ParseFunction(st.fncStack).Some?)
    ensures r.Ok? && st.parsingNum ==> r.value == [Number(ParseF64(st.numStack).value)] && r.value[0].Number?
    ensures r.Ok? && st.parsingFnc ==> r.value == [ParseFunction(st.fncStack).value] && IsFunction(r.value[0])
    ensures r.Err? && st.parsingNum ==> r.error == InvalidNumber(st.numStack) && !IsDecimal(st.numStack)
    ensures r.Err? && !st.parsingNum ==> r.error == InvalidFunction(st.fncStack) && st.parsingFnc
  {
    if st.parsingNum then
      match ParseF64(st.numStack)
      case Some(v) => Ok([Number(v)])
      case None => Err(InvalidNumber(st.numStack))
    else if st.parsingFnc then
      match ParseFunction(st.fncStack)
      case Some(f) => Ok([f])
      case None => Err(InvalidFunction(st.fncStack))
    else
      Ok([])
  }

  /** One iteration of the scanning loop on character c. Only a symbol
      empties the buffers; leaving a mode for the other flushes the buffer
      it leaves but keeps its text (see the ModeSwitches module). */
  function Feed(st: Scanner, c: char): (r: Result<Scanner, LexError>)
    requires Valid(st)
    ensures r.Ok? ==> Valid(r.value)
  {
    if c == ' ' then
      Ok(st)
    else if IsNumChar(c) then
      if st.parsingFnc then
        match ParseFunction(st.fncStack)
        case None => Err(InvalidFunction(st.fncStack))
        case Some(f) =>
          Ok(st.(output := st.output + [f], parsingFnc := false, parsingNum := true, numStack := st.numStack + [c]))
      else
        Ok(st.(parsingNum := true, numStack := st.numStack + [c]))
    else if IsSymbol(c) then
      match Flush(st)
      case Err(e) => Err(e)
      case Ok(flushed) => Ok(Scanner("", "", false, false, st.output + flushed + [ParseOp(c).value]))
    else if st.parsingNum then
      match ParseF64(st.numStack)
      case None => Err(InvalidNumber(st.numStack))
      case Some(v) =>
        Ok(st.(output := st.output + [Number(v)], parsingNum := false, parsingFnc := true, fncStack := st.fncStack + [c]))
    else
      Ok(st.(parsingFnc := true, fncStack := st.fncStack + [c]))
  }

  /** The scanning loop over the rest of the input; the first error ends it. */
  function Scan(st: Scanner, input: string): (r: Result<Scanner, LexError>)
    requires Valid(st)
    ensures r.Ok? ==> Valid(r.value)
    decreases |input|
  {
    if input == [] then Ok(st)
    else
      match Feed(st, input[0])
      case Err(e) => Err(e)
      case Ok(next) => Scan(next, input[1..])
  }

  /** What `tokennize` computes for a whole input. */
  function Lex(input: string): Result<seq<Token>, LexError>
  {
    match Scan(Start, input)
    case Err(e) => Err(e)
    case Ok(st) =>
      match Flush(st)
      case Err(e) => Err(e)
      case Ok(flushed) => Ok(st.output + flushed)
  }

  /** The empty input gives no tokens. */
  lemma LexEmpty()
    ensures Lex("") == Ok([])
  {
    assert Scan(Start, "") == Ok(Start);
    assert Flush(Start) == Ok([]);
    assert Start.output + [] == [];
  }

  /** Scanning a concatenation scans the first part, then the second. */
  lemma {:induction false} ScanAppend(st: Scanner, a: string, b: string)
    requires Valid(st)
    ensures Scan(st, a + b) == match Scan(st, a) case Err(e) => Err(e) case Ok(mid) => Scan(mid, b)
    decreases |a|
  {
    if a != [] {
      assert (a + b)[0] == a[0] && (a + b)[1..] == a[1..] + b;
      match Feed(st, a[0])
      case Err(_) =>
      case Ok(next) => ScanAppend(next, a[1..], b);
    } else {
      assert a + b == b;
    }
  }

  /** A space emits nothing and changes no state, wherever it stands; only
      ' ' is skipped this way. */
  lemma SpaceInvisible(a: string, b: string)
    ensures Lex(a + " " + b) == Lex(a + b)
  {
    ScanAppend(Start, a, " " + b);
    ScanAppend(Start, a, b);
    assert a + " " + b == a + (" " + b);
    match Scan(Start, a)
    case Err(_) =>
    case Ok(mid) =>
      assert (" " + b)[0] == ' ' && (" " + b)[1..] == b;
      assert Scan(mid, " " + b) == Scan(mid, b);
  }

  /** A symbol flushes the pending buffer into at most one token, clears
      both buffers and both modes, and emits its own `parse_op` token. */
  lemma SymbolStep(st: Scanner, c: char)
    requires Valid(st) && IsSymbol(c)
    ensures Feed(st, c).Ok? <==> Flush(st).Ok?
    ensures Feed(st, c).Ok? ==>
      Feed(st, c).value == Scanner("", "", false, false, st.output + Flush(st).value + [ParseOp(c).value])
  {
  }

  /** Digits and points go to the number buffer. Coming from the
      identifier buffer they flush its function token and leave its text. */
  lemma DigitStep(st: Scanner, c: char)
    requires Valid(st) && IsNumChar(c)
    ensures Feed(st, c).Err? <==> st.parsingFnc && ParseFunction(st.fncStack).None?
    ensures Feed(st, c).Ok? ==>
      var next := Feed(st, c).value;
      next.numStack == st.numStack + [c] && next.parsingNum && !next.parsingFnc &&
      next.fncStack == st.fncStack &&
      next.output == st.output + (if st.parsingFnc then [ParseFunction(st.fncStack).value] else [])
  {
  }

  /** Every other character goes to the identifier buffer. Coming from
      the number buffer it flushes the number and leaves its text. */
  lemma IdentifierStep(st: Scanner, c: char)
    requires Valid(st) && c != ' ' && !IsNumChar(c) && !IsSymbol(c)
    ensures Feed(st, c).Err? <==> st.parsingNum && !IsDecimal(st.numStack)
    ensures Feed(st, c).Ok? ==>
      var next := Feed(st, c).value;
      next.fncStack == st.fncStack + [c] && next.parsingFnc && !next.parsingNum &&
      next.numStack == st.numStack &&
      next.output == st.output + (if st.parsingNum then [Number(ParseF64(st.numStack).value)] else [])
  {
  }

  /** A character that cannot occur in any function name. */
  predicate IsForeign(c: char)
  {
    c != ' ' && !IsNumChar(c) && !IsSymbol(c) && c !in "maxinscotqr"
  }

  /** An identifier buffer holding a foreign character. */
  ghost predicate Poisoned(st: Scanner)
  {
    st.parsingFnc && exists i :: 0 <= i < |st.fncStack| && IsForeign(st.fncStack[i])
  }

  lemma PoisonedFlushFails(st: Scanner)
    requires Valid(st) && Poisoned(st)
    ensures ParseFunction(st.fncStack).None?
    ensures Flush(st).Err?
  {
  }

  /** Once poisoned, the identifier buffer stays poisoned until its flush
      fails. */
  lemma {:induction false} PoisonedScan(st: Scanner, input: string)
    requires Valid(st) && Poisoned(st)
    ensures Scan(st, input).Ok? ==> Poisoned(Scan(st, input).value)
    decreases |input|
  {
    if input != [] {
      var c := input[0];
      PoisonedFlushFails(st);
      match Feed(st, c)
      case Err(_) =>
      case Ok(next) =>
        assert c == ' ' || (c != ' ' && !IsNumChar(c) && !IsSymbol(c));
        if c != ' ' {
          var i :| 0 <= i < |st.fncStack| && IsForeign(st.fncStack[i]);
          assert next.fncStack[i] == st.fncStack[i];
        }
        PoisonedScan(next, input[1..]);
    }
  }

  /** Any character outside the lexer's alphabet (digits, '.', ' ', the
      eight symbols and the letters of the six function names) lands in the
      identifier buffer and makes the whole scan fail. */
  lemma ForeignCharacterRejected(a: string, c: char, b: string)
    requires IsForeign(c)
    ensures Lex(a + [c] + b).Err?
  {
    assert a + [c] + b == a + ([c] + b);
    ScanAppend(Start, a, [c] + b);
    match Scan(Start, a)
    case Err(_) =>
    case Ok(mid) =>
      assert ([c] + b)[0] == c && ([c] + b)[1..] == b;
      match Feed(mid, c)
      case Err(_) =>
      case Ok(next) =>
        assert next.fncStack[|next.fncStack| - 1] == c;
        PoisonedScan(next, b);
        match Scan(next, b)
        case Err(_) =>
        case Ok(final) => PoisonedFlushFails(final);
  }

  /** The `parse_op` tokens of the characters of s, in order: the reference
      that LexStructural compares the lexer's output against. */
  function SymbolTokens(s: string): (r: seq<Token>)
    ensures |r| <= |s|
    ensures forall i :: 0 <= i < |r| ==> IsParen(r[i]) || IsOperator(r[i]) || r[i] == Comma
  {
    if s == [] then []
    else (if IsSymbol(s[0]) then [ParseOp(s[0]).value] else []) + SymbolTokens(s[1..])
  }

  /** Outside symbols, a step adds at most a number or a function token. */
  lemma FeedAddsNoStructural(st: Scanner, c: char)
    requires Valid(st) && !IsSymbol(c) && Feed(st, c).Ok?
    ensures |Feed(st, c).value.output| >= |st.output|
    ensures Feed(st, c).value.output[..|st.output|] == st.output
    ensures forall t :: t in Feed(st, c).value.output[|st.output|..] ==> t.Number? || IsFunction(t)
  {
  }

  lemma AppendSymbol(out: seq<Token>, flushed: seq<Token>, op: Token)
    requires IsStructural(op) && forall i :: 0 <= i < |flushed| ==> !IsStructural(flushed[i])
    ensures Filter(IsStructural, out + flushed + [op]) == Filter(IsStructural, out) + [op]
  {
    FilterAppend(IsStructural, out + flushed, [op]);
    FilterAppend(IsStructural, out, flushed);
    FilterNone(IsStructural, flushed);
    FilterSingle(IsStructural, op);
  }

  lemma FeedSymbolStructural(st: Scanner, c: char)
    requires Valid(st) && Feed(st, c).Ok? && IsSymbol(c)
    ensures Filter(IsStructural, Feed(st, c).value.output)
         == Filter(IsStructural, st.output) + [ParseOp(c).value]
  {
    SymbolStep(st, c);
    var flushed := Flush(st).value;
    assert forall i :: 0 <= i < |flushed| ==> !IsStructural(flushed[i]);
    AppendSymbol(st.output, flushed, ParseOp(c).value);
  }

  lemma FeedOtherStructural(st: Scanner, c: char)
    requires Valid(st) && Feed(st, c).Ok? && !IsSymbol(c)
    ensures Filter(IsStructural, Feed(st, c).value.output) == Filter(IsStructural, st.output)
  {
    var out := Feed(st, c).value.output;
    FeedAddsNoStructural(st, c);
    var added := out[|st.output|..];
    assert out == st.output + added;
    FilterAppend(IsStructural, st.output, added);
    FilterNone(IsStructural, added);
  }

  lemma FeedStructural(st: Scanner, c: char)
    requires Valid(st) && Feed(st, c).Ok?
    ensures Filter(IsStructural, Feed(st, c).value.output)
         == Filter(IsStructural, st.output) + (if IsSymbol(c) then [ParseOp(c).value] else [])
  {
    if IsSymbol(c) {
      FeedSymbolStructural(st, c);
    } else {
      FeedOtherStructural(st, c);
      assert Filter(IsStructural, st.output) + [] == Filter(IsStructural, st.output);
    }
  }

  lemma {:induction false} ScanStructural(st: Scanner, input: string)
    requires Valid(st) && Scan(st, input).Ok?
    ensures Filter(IsStructural, Scan(st, input).value.output)
         == Filter(IsStructural, st.output) + SymbolTokens(input)
    decreases |input|
  {
    if input != [] {
      var c, rest := input[0], input[1..];
      var next := Feed(st, c).value;
      assert Scan(st, input) == Scan(next, rest);
      var sym := if IsSymbol(c) then [ParseOp(c).value] else [];
      assert SymbolTokens(input) == sym + SymbolTokens(rest);
      FeedStructural(st, c);
      ScanStructural(next, rest);
      ConcatAssociative(Filter(IsStructural, st.output), sym, SymbolTokens(rest));
    }
  }

  /** Each symbol character of the input gives exactly one operator,
      parenthesis or comma token, in input order, and no other character
      gives one. */
  lemma LexStructural(s: string)
    requires Lex(s).Ok?
    ensures Filter(IsStructural, Lex(s).value) == SymbolTokens(s)
  {
    var st := Scan(Start, s).value;
    ScanStructural(Start, s);
    FilterAppend(IsStructural, st.output, Flush(st).value);
    FilterNone(IsStructural, Flush(st).value);
  }

  /** A scan result with `pre` put in front of the tokens already emitted. */
  function Shift(r: Result<Scanner, LexError>, pre: seq<Token>): Result<Scanner, LexError>
  {
    match r
    case Err(e) => Err(e)
    case Ok(st) => Ok(st.(output := pre + st.output))
  }

  lemma FeedPrefix(st: Scanner, pre: seq<Token>, c: char)
    requires Valid(st)
    ensures Feed(st.(output := pre + st.output), c) == Shift(Feed(st, c), pre)
  {
    var moved := st.(output := pre + st.output);
    if c != ' ' && IsSymbol(c) && Flush(st).Ok? {
      assert Flush(moved) == Flush(st);
      assert pre + st.output + Flush(st).value + [ParseOp(c).value]
          == pre + (st.output + Flush(st).value + [ParseOp(c).value]);
    } else if c != ' ' && !IsSymbol(c) {
      assert forall x: seq<Token> :: pre + st.output + x == pre + (st.output + x);
    }
  }

  /** The scan never looks at the tokens it has already emitted. */
  lemma {:induction false} ScanPrefix(st: Scanner, pre: seq<Token>, input: string)
    requires Valid(st)
    ensures Scan(st.(output := pre + st.output), input) == Shift(Scan(st, input), pre)
    decreases |input|
  {
    if input != [] {
      FeedPrefix(st, pre, input[0]);
      match Feed(st, input[0])
      case Err(_) =>
      case Ok(next) => ScanPrefix(next, pre, input[1..]);
    }
  }

  /** Symbols are token boundaries: the lexer maps `a c b` to the tokens of
      `a`, the token of c, then the tokens of `b`, and fails with the first
      failure of the two parts. */
  lemma LexSymbolSplit(a: string, c: char, b: string)
    requires IsSymbol(c)
    ensures Lex(a + [c] + b) ==
      match Lex(a)
      case Err(e) => Err(e)
      case Ok(ta) =>
        match Lex(b)
        case Err(e) => Err(e)
        case Ok(tb) => Ok(ta + [ParseOp(c).value] + tb)
  {
    assert a + [c] + b == a + ([c] + b);
    assert ([c] + b)[0] == c && ([c] + b)[1..] == b;
    ScanAppend(Start, a, [c] + b);
    match Scan(Start, a)
    case Err(_) =>
    case Ok(mid) =>
      SymbolStep(mid, c);
      if Flush(mid).Ok? {
        var pre := mid.output + Flush(mid).value + [ParseOp(c).value];
        assert pre + Start.output == pre;
        assert Feed(mid, c) == Ok(Start.(output := pre + Start.output));
        ScanPrefix(Start, pre, b);
        match Scan(Start, b)
        case Err(_) =>
        case Ok(fin) =>
          assert Flush(fin.(output := pre + fin.output)) == Flush(fin);
          match Flush(fin)
          case Err(_) =>
          case Ok(tail) =>
            assert pre + fin.output + tail == (mid.output + Flush(mid).value) + [ParseOp(c).value] + (fin.output + tail);
      }
  }

  predicate IsNumText(s: string) { forall i :: 0 <= i < |s| ==> IsNumChar(s[i]) }

  lemma {:induction false} ScanNumberRun(st: Scanner, s: string)
    requires Valid(st) && st.parsingNum && IsNumText(s)
    ensures Scan(st, s) == Ok(st.(numStack := st.numStack + s))
    decreases |s|
  {
    if s == [] {
      assert st.numStack + s == st.numStack;
    } else {
      var next := st.(numStack := st.numStack + [s[0]]);
      assert Feed(st, s[0]) == Ok(next);
      ScanNumberRun(next, s[1..]);
      assert next.numStack + s[1..] == st.numStack + s;
    }
  }

  /** A run of digits and points lexes to one number token, or fails as a
      malformed number when Rust's float parser rejects it (e.g. two points). */
  lemma LexNumber(s: string)
    requires s != [] && IsNumText(s)
    ensures Lex(s) == if IsDecimal(s) then Ok([Number(ParseF64(s).value)]) else Err(InvalidNumber(s))
  {
    var first := Scanner([s[0]], "", true, false, []);
    assert Start.numStack + [s[0]] == [s[0]];
    assert Feed(Start, s[0]) == Ok(first);
    ScanNumberRun(first, s[1..]);
    assert [s[0]] + s[1..] == s;
    var last := Scanner(s, "", true, false, []);
    assert Scan(Start, s) == Ok(last);
    if IsDecimal(s) {
      assert Flush(last) == Ok([Number(ParseF64(s).value)]);
      assert last.output + [Number(ParseF64(s).value)] == [Number(ParseF64(s).value)];
    }
  }

  /** Characters the scanner puts into the identifier buffer. */
  predicate IsNameChar(c: char) { c != ' ' && !IsNumChar(c) && !IsSymbol(c) }

  predicate IsNameText(s: string) { forall i :: 0 <= i < |s| ==> IsNameChar(s[i]) }

  lemma {:induction false} ScanNameRun(st: Scanner, s: string)
    requires Valid(st) && st.parsingFnc && IsNameText(s)
    ensures Scan(st, s) == Ok(st.(fncStack := st.fncStack + s))
    decreases |s|
  {
    if s == [] {
      assert st.fncStack + s == st.fncStack;
    } else {
      var next := st.(fncStack := st.fncStack + [s[0]]);
      assert Feed(st, s[0]) == Ok(next);
      ScanNameRun(next, s[1..]);
      assert next.fncStack + s[1..] == st.fncStack + s;
    }
  }

  /** A run of identifier characters lexes to one function token, or fails
      as an invalid function. */
  lemma LexName(s: string)
    requires s != [] && IsNameText(s)
    ensures Lex(s) == match ParseFunction(s) case Some(f) => Ok([f]) case None => Err(InvalidFunction(s))
  {
    var first := Scanner("", [s[0]], false, true, []);
    assert Start.fncStack + [s[0]] == [s[0]];
    assert Feed(Start, s[0]) == Ok(first);
    ScanNameRun(first, s[1..]);
    assert [s[0]] + s[1..] == s;
    var last := Scanner("", s, false, true, []);
    assert Scan(Start, s) == Ok(last);
    if ParseFunction(s).Some? {
      assert Flush(last) == Ok([ParseFunction(s).value]);
      assert last.output + [ParseFunction(s).value] == [ParseFunction(s).value];
    }
  }

  /** `Lexer` with its `string` field (named `text` here). */
  class Lexer {
    var text: string

    /** `Lexer::default`. */
    constructor ()
      ensures text == ""
    {
      text := "";
    }

    /** The `string` builder: replaces the text to scan. */
    method SetText(input: string)
      modifies this
      ensures text == input
    {
      text := input;
    }

    /** `tokennize`. */
    method Tokenize() returns (r: Result<seq<Token>, LexError>)
      ensures r == Lex(text)
    {
      var toBeParsed := text;
      var numStack: string := "";
      var fncStack: string := "";
      var parsingNum := false;
      var parsingFnc := false;
      var outputQueue: seq<Token> := [];
      while toBeParsed != []
        invariant Valid(Scanner(numStack, fncStack, parsingNum, parsingFnc, outputQueue))
        invariant Scan(Scanner(numStack, fncStack, parsingNum, parsingFnc, outputQueue), toBeParsed) == Scan(Start, text)
        decreases |toBeParsed|
      {
        var tok := toBeParsed[0];
        toBeParsed := toBeParsed[1..];
        ghost var before := Scanner(numStack, fncStack, parsingNum, parsingFnc, outputQueue);
        assert Scan(before, [tok] + toBeParsed) == Scan(Start, text);
        if tok == ' ' {
        } else if IsNumChar(tok) {
          if parsingFnc {
            var f := ParseFunction(fncStack);
            if f.None? {
              return Err(InvalidFunction(fncStack));
            }
            outputQueue := outputQueue + [f.value];
            parsingFnc := false;
          }
          parsingNum := true;
          numStack := numStack + [tok];
          assert Feed(before, tok) == Ok(Scanner(numStack, fncStack, parsingNum, parsingFnc, outputQueue));
        } else if IsSymbol(tok) {
          if !parsingFnc && parsingNum {
            var v := ParseF64(numStack);
            if v.None? {
              return Err(InvalidNumber(numStack));
            }
            outputQueue := outputQueue + [Number(v.value)];
          } else if parsingFnc && !parsingNum {
            var f := ParseFunction(fncStack);
            if f.None? {
              return Err(InvalidFunction(fncStack));
            }
            outputQueue := outputQueue + [f.value];
          } else {
            assert Flush(before) == Ok([]);
            assert outputQueue == before.output + [];
          }
          fncStack := "";
          numStack := "";
          parsingFnc := false;
          parsingNum := false;
          outputQueue := outputQueue + [ParseOp(tok).value];
          assert Feed(before, tok) == Ok(Scanner(numStack, fncStack, parsingNum, parsingFnc, outputQueue));
        } else {
          if parsingNum {
            var v := ParseF64(numStack);
            if v.None? {
              return Err(InvalidNumber(numStack));
            }
            outputQueue := outputQueue + [Number(v.value)];
            parsingNum := false;
          }
          parsingFnc := true;
          fncStack := fncStack + [tok];
          assert Feed(before, tok) == Ok(Scanner(numStack, fncStack, parsingNum, parsingFnc, outputQueue));
        }
        assert Feed(before, tok) == Ok(Scanner(numStack, fncStack, parsingNum, parsingFnc, outputQueue));
      }
      ghost var last := Scanner(numStack, fncStack, parsingNum, parsingFnc, outputQueue);
      assert Scan(Start, text) == Ok(last);
      if !parsingFnc && parsingNum {
        var v := ParseF64(numStack);
        if v.None? {
          return Err(InvalidNumber(numStack));
        }
        outputQueue := outputQueue + [Number(v.value)];
      } else if parsingFnc && !parsingNum {
        var f := ParseFunction(fncStack);
        if f.None? {
          return Err(InvalidFunction(fncStack));
        }
        outputQueue := outputQueue + [f.value];
      } else {
        assert Flush(last) == Ok([]);
        assert outputQueue == last.output + [];
      }
      r := Ok(outputQueue);
    }
  }
}
