/*
 * Model of interpreter/main.py: the one-token-lookahead calculator for the
 * grammar  expr -> INTEGER PLUS INTEGER  with single-digit integers, `+` as
 * the only operator and no whitespace skipping.
 *
 * The pure part (Scan, Pull, EvalFrom) specifies what the tokenizer and the
 * evaluator compute; the class Interpretor keeps the source's mutable state
 * (scan cursor `pos`, lookahead `currentToken`) and its methods are proved
 * against those functions.  The generic `Exception` raised by `error()` is the
 * `Failure` outcome.
 */
module Interpreter {

  /** Outcome of an operation that may raise the interpreter's one generic exception. */
  datatype Result<T> = Success(value: T) | Failure

  /** Python's `Token | None`. */
  datatype Option<T> = None | Some(value: T)

  /** The three token types of this version. */
  datatype TokenType = INTEGER | PLUS | EOF

  /** Python's `str | int | None` payload of a token. */
  datatype TokenValue = IntValue(i: int) | StrValue(s: string) | NoValue

  /** The immutable `Token` record; the source's `type` field is `kind` here. */
  datatype Token = Token(kind: TokenType, value: TokenValue)

  /** One tokenizer step: the token produced and where the cursor ends up. */
  datatype Step = Step(token: Token, next: nat)

  /** A run of successive tokenizer calls: the tokens produced and the final cursor. */
  datatype Stream = Stream(tokens: seq<Token>, next: nat)

  function Min(a: int, b: int): int { if a <= b then a else b }

  // ---------------------------------------------------------------------------
  // Characters and tokens
  // ---------------------------------------------------------------------------

  /** The ASCII digits; `str.isdigit` also accepts other Unicode digits (not modelled). */
  predicate IsDigit(c: char) { '0' <= c <= '9' }

  /** The characters the tokenizer accepts. */
  predicate Lexable(c: char) { IsDigit(c) || c == '+' }

  function DigitValue(c: char): (d: int)
    requires IsDigit(c)
    ensures 0 <= d <= 9
    ensures DigitChar(d) == c
  {
    c as int - '0' as int
  }

  function DigitChar(d: int): (c: char)
    requires 0 <= d <= 9
    ensures IsDigit(c)
  {
    ('0' as int + d) as char
  }

  const EofToken := Token(EOF, NoValue)

  /** The shapes of token the tokenizer can produce. */
  predicate WellFormed(t: Token) {
    match t.kind
    case INTEGER => t.value.IntValue? && 0 <= t.value.i <= 9
    case PLUS => t.value == StrValue("+")
    case EOF => t.value == NoValue
  }

  /** The text a well-formed token is lexed from: the inverse of the tokenizer. */
  function Spelling(t: Token): string
    requires WellFormed(t)
  {
    match t.kind
    case INTEGER => [DigitChar(t.value.i)]
    case PLUS => "+"
    case EOF => ""
  }

  function Spellings(ts: seq<Token>): string
    requires forall k :: 0 <= k < |ts| ==> WellFormed(ts[k])
  {
    if ts == [] then "" else Spelling(ts[0]) + Spellings(ts[1..])
  }

  // ---------------------------------------------------------------------------
  // Tokenizer specification: `get_next_token` as a function of (text, pos)
  // ---------------------------------------------------------------------------

  /** One call of the tokenizer with the cursor at `pos`. */
  function Scan(text: string, pos: nat): (r: Result<Step>)
    ensures r.Success? ==> WellFormed(r.value.token)
  {
    if pos >= |text| then Success(Step(EofToken, pos))
    else if IsDigit(text[pos]) then
      Success(Step(Token(INTEGER, IntValue(DigitValue(text[pos]))), pos + 1))
    else if text[pos] == '+' then
      Success(Step(Token(PLUS, StrValue([text[pos]])), pos + 1))
    else Failure
  }

  /** At end of input the tokenizer yields EOF and does not move. */
  lemma ScanAtEnd(text: string, pos: nat)
    requires pos >= |text|
    ensures Scan(text, pos) == Success(Step(EofToken, pos))
  {
  }

  /**
   * Inside the input the tokenizer succeeds exactly on a digit or `+`, and
   * then consumes exactly that one character, producing a token that spells it
   * (so an INTEGER carries the digit's value 0..9 and PLUS carries "+").
   */
  lemma ScanInside(text: string, pos: nat)
    requires pos < |text|
    ensures Scan(text, pos).Success? <==> Lexable(text[pos])
    ensures Scan(text, pos).Success? ==>
      var s := Scan(text, pos).value;
      s.next == pos + 1 && s.token.kind != EOF && Spelling(s.token) == [text[pos]]
    ensures Scan(text, pos).Success? ==>
      (Scan(text, pos).value.token.kind == INTEGER <==> IsDigit(text[pos]))
  {
  }

  /** Every successful tokenizer call consumes exactly the spelling of its token. */
  lemma ScanSpells(text: string, pos: nat)
    requires pos <= |text|
    requires Scan(text, pos).Success?
    ensures var s := Scan(text, pos).value;
      pos <= s.next <= |text| && s.next <= pos + 1 &&
      text[pos..s.next] == Spelling(s.token)
  {
  }

  /** `n` successive tokenizer calls starting with the cursor at `pos`. */
  function Pull(text: string, pos: nat, n: nat): Result<Stream>
    decreases n
  {
    if n == 0 then Success(Stream([], pos))
    else
      match Scan(text, pos)
      case Failure => Failure
      case Success(s) =>
        match Pull(text, s.next, n - 1)
        case Failure => Failure
        case Success(rest) => Success(Stream([s.token] + rest.tokens, rest.next))
  }

  /**
   * A run of `n` calls yields `n` tokens, never moves the cursor past the end
   * of the input and moves it by at most one per call.
   */
  lemma {:induction false} PullBounds(text: string, pos: nat, n: nat)
    requires Pull(text, pos, n).Success?
    ensures var st := Pull(text, pos, n).value;
      |st.tokens| == n && pos <= st.next <= pos + n &&
      (pos <= |text| ==> st.next <= |text|)
    decreases n
  {
    if n > 0 {
      PullBounds(text, Scan(text, pos).value.next, n - 1);
    }
  }

  /** Once the input is exhausted, every further call returns EOF and the cursor stays put. */
  lemma {:induction false} PullAtEnd(text: string, pos: nat, n: nat)
    requires pos >= |text|
    ensures Pull(text, pos, n).Success?
    ensures var st := Pull(text, pos, n).value;
      st.next == pos && |st.tokens| == n &&
      forall k :: 0 <= k < n ==> st.tokens[k] == EofToken
    decreases n
  {
    if n > 0 {
      PullAtEnd(text, pos, n - 1);
    }
  }

  /**
   * A run of `n` calls raises exactly when one of the characters it reaches,
   * those at `pos .. pos+n-1` that exist, is neither a digit nor `+`.
   */
  lemma {:induction false} PullSucceeds(text: string, pos: nat, n: nat)
    requires pos <= |text|
    ensures Pull(text, pos, n).Success? <==>
      forall k :: pos <= k < Min(|text|, pos + n) ==> Lexable(text[k])
    decreases n
  {
    if n > 0 && pos < |text| {
      PullSucceeds(text, pos + 1, n - 1);
    } else if n > 0 {
      PullAtEnd(text, pos, n);
    }
  }

  /** The tokens of a successful run spell exactly the characters it consumed. */
  lemma {:induction false} PullSpells(text: string, pos: nat, n: nat)
    requires pos <= |text|
    requires Pull(text, pos, n).Success?
    ensures var st := Pull(text, pos, n).value;
      (forall k :: 0 <= k < |st.tokens| ==> WellFormed(st.tokens[k])) &&
      pos <= st.next <= |text| &&
      text[pos..st.next] == Spellings(st.tokens)
    decreases n
  {
    if n > 0 {
      var s := Scan(text, pos).value;
      ScanSpells(text, pos);
      PullSpells(text, s.next, n - 1);
      var rest := Pull(text, s.next, n - 1).value;
      var st := Pull(text, pos, n).value;
      assert st.tokens == [s.token] + rest.tokens;
      assert st.tokens[1..] == rest.tokens;
      assert text[pos..st.next] == text[pos..s.next] + text[s.next..st.next];
    }
  }

  // ---------------------------------------------------------------------------
  // Evaluator specification: what `expr` returns, stated on the characters
  // ---------------------------------------------------------------------------

  /**
   * The value of `expr` with the cursor starting at `p`: it succeeds exactly
   * when the three characters from `p` read digit, `+`, digit and the next one
   * is absent or lexable (the final `eat` scans it), and returns the sum.
   */
  function EvalFrom(text: string, p: nat): (r: Result<int>)
    ensures r.Success? ==> 0 <= r.value <= 18
    ensures r.Success? ==> p + 3 <= |text| && text[p + 1] == '+'
  {
    if p + 3 <= |text| && IsDigit(text[p]) && text[p + 1] == '+' && IsDigit(text[p + 2])
       && (p + 3 == |text| || Lexable(text[p + 3]))
    then Success(DigitValue(text[p]) + DigitValue(text[p + 2]))
    else Failure
  }

  /** The value of a fresh interpreter's `expr` on `text`. */
  function Eval(text: string): (r: Result<int>)
    ensures r.Success? ==> 0 <= r.value <= 18
  {
    EvalFrom(text, 0)
  }

  function Kinds(ts: seq<Token>): seq<TokenType>
  {
    seq(|ts|, k requires 0 <= k < |ts| => ts[k].kind)
  }

  /**
   * The character-level evaluator agrees with the token stream: `expr`
   * succeeds exactly when four tokenizer calls succeed and the first three
   * tokens are INTEGER PLUS INTEGER; the value is the sum of the two integer
   * payloads and the cursor ends at index p+4, or at the end of a shorter input.
   */
  lemma EvalIsTokenGrammar(text: string, p: nat)
    requires p <= |text|
    ensures EvalFrom(text, p).Success? <==>
      Pull(text, p, 4).Success? &&
      Kinds(Pull(text, p, 4).value.tokens[..3]) == [INTEGER, PLUS, INTEGER]
    ensures EvalFrom(text, p).Success? ==>
      var st := Pull(text, p, 4).value;
      st.tokens[0].value.IntValue? && st.tokens[2].value.IntValue? &&
      EvalFrom(text, p).value == st.tokens[0].value.i + st.tokens[2].value.i &&
      st.next == Min(|text|, p + 4)
  {
    var s0 := Scan(text, p);
    if s0.Success? {
      var s1 := Scan(text, s0.value.next);
      if s1.Success? {
        var s2 := Scan(text, s1.value.next);
        if s2.Success? {
          var s3 := Scan(text, s2.value.next);
          if s3.Success? {
            assert Pull(text, s2.value.next, 1).value.tokens == [s3.value.token];
            assert Pull(text, s1.value.next, 2).value.tokens == [s2.value.token, s3.value.token];
            assert Pull(text, s0.value.next, 3).value.tokens
                == [s1.value.token, s2.value.token, s3.value.token];
            assert Pull(text, p, 4).value.tokens[..3]
                == [s0.value.token, s1.value.token, s2.value.token];
            assert Kinds(Pull(text, p, 4).value.tokens[..3])
                == [s0.value.token.kind, s1.value.token.kind, s2.value.token.kind];
          }
        }
      }
    }
  }

  /** Characters at index 4 and beyond never affect the outcome of `expr`. */
  lemma EvalIgnoresTail(text: string, tail: string)
    requires |text| >= 4
    ensures Eval(text + tail) == Eval(text)
  {
  }

  /** Concrete inputs and the outcomes the source produces for them. */
  lemma Examples()
    ensures Eval("3+5") == Success(8)
    ensures Eval("9+9") == Success(18)
    ensures Eval("3+5+") == Success(8)
    ensures Eval("3+57") == Success(8)
    ensures Eval("3+5x") == Failure
    ensures Eval("12+3") == Failure
    ensures Eval("3 + 5") == Failure
    ensures Eval("3*5") == Failure
    ensures Eval("3+") == Failure
    ensures Eval("") == Failure
  {
  }

  // ---------------------------------------------------------------------------
  // The interpreter object
  // ---------------------------------------------------------------------------

  class Interpretor {
    /** The input line; the source never reassigns it. */
    const text: string
    /** Current index of scanning `text`. */
    var pos: nat
    /** The one-token lookahead; `None` before the first token is fetched. */
    var currentToken: Option<Token>
    /** How many times the tokenizer has been called (proof bookkeeping only). */
    ghost var scans: nat

    ghost predicate Valid()
      reads this
    {
      pos <= |text| &&
      (currentToken.Some? ==> WellFormed(currentToken.value))
    }

    constructor (text: string)
      ensures this.text == text && pos == 0 && currentToken == None && scans == 0
      ensures Valid()
    {
      this.text := text;
      pos := 0;
      currentToken := None;
      scans := 0;
    }

    /** `__is_end_of_file`: exactly when the tokenizer would answer EOF without moving. */
    predicate AtEndOfFile(): (b: bool)
      reads this
      ensures b <==> Scan(text, pos) == Success(Step(EofToken, pos))
    {
      pos >= |text|
    }

    /** The tokenizer: one call of `Scan` at the cursor, advancing it on success. */
    method GetNextToken() returns (r: Result<Token>)
      requires Valid()
      modifies this`pos, this`scans
      ensures Valid() && scans == old(scans) + 1
      ensures match Scan(text, old(pos))
        case Success(s) => r == Success(s.token) && pos == s.next
        case Failure => r == Failure && pos == old(pos)
    {
      scans := scans + 1;
      if AtEndOfFile() {
        return Success(Token(EOF, NoValue));
      }
      var currentChar := text[pos];
      if IsDigit(currentChar) {
        var token := Token(INTEGER, IntValue(DigitValue(currentChar)));
        pos := pos + 1;
        return Success(token);
      }
      if currentChar == '+' {
        var token := Token(PLUS, StrValue([currentChar]));
        pos := pos + 1;
        return Success(token);
      }
      return Failure;
    }

    /**
     * Consume the lookahead if it has type `kind`, fetching the next token.
     * On a type mismatch nothing changes; if the tokenizer raises, the
     * lookahead keeps its old value.
     */
    method Eat(kind: TokenType) returns (ok: bool)
      requires Valid()
      modifies this`pos, this`currentToken, this`scans
      ensures Valid()
      ensures ok <==> old(currentToken).Some? && old(currentToken).value.kind == kind
                      && Scan(text, old(pos)).Success?
      ensures ok ==> currentToken == Some(Scan(text, old(pos)).value.token)
                     && pos == Scan(text, old(pos)).value.next
      ensures !ok ==> currentToken == old(currentToken) && pos == old(pos)
      ensures scans == if old(currentToken).Some? && old(currentToken).value.kind == kind
                       then old(scans) + 1 else old(scans)
    {
      if currentToken.Some? && currentToken.value.kind == kind {
        var next := GetNextToken();
        if next.Failure? {
          return false;
        }
        currentToken := Some(next.value);
        return true;
      }
      return false;
    }

    /**
     * expr -> INTEGER PLUS INTEGER.  Its outcome is `EvalFrom` at the starting
     * cursor; on success the tokenizer was called exactly four times and the
     * cursor stops at index 4 past the start, or at the end of a shorter input.
     */
    method Expr() returns (r: Result<int>)
      requires Valid()
      modifies this`pos, this`currentToken, this`scans
      ensures Valid()
      ensures r == EvalFrom(text, old(pos))
      ensures r.Success? ==> pos == Min(|text|, old(pos) + 4) && scans == old(scans) + 4
      ensures r.Success? ==>
        (currentToken.Some? && (currentToken.value.kind == EOF <==> |text| == old(pos) + 3))
      ensures r.Success? ==> currentToken == Some(Scan(text, old(pos) + 3).value.token)
    {
      var first := GetNextToken();
      if first.Failure? {
        return Failure;
      }
      currentToken := Some(first.value);

      var left := currentToken.value;
      var ok := Eat(INTEGER);
      if !ok {
        return Failure;
      }

      ok := Eat(PLUS);
      if !ok {
        return Failure;
      }

      var right := currentToken.value;
      ok := Eat(INTEGER);
      if !ok {
        return Failure;
      }

      r := Success(left.value.i + right.value.i);
    }
  }

  /** A fresh interpreter run on the inputs whose outcomes the source fixes. */
  method ExprExamples()
  {
    var a := new Interpretor("3+5x");
    var r := a.Expr();
    assert r == Failure;
    var b := new Interpretor("3+57");
    r := b.Expr();
    assert r == Success(8) && b.pos == 4;
    var c := new Interpretor("12+3");
    r := c.Expr();
    assert r == Failure;
  }
}
