# Single-digit calculator interpreter (first version) in Dafny

This project models `interpreter/main.py`, the first stage of a tutorial
calculator. The file defines a `Token` record and an `Interpretor` object. The
object scans a line of text with a cursor `pos` and keeps a one-token lookahead
`current_token`. Its `expr` method pulls tokens on demand and enforces the fixed
grammar `expr -> INTEGER PLUS INTEGER`. Integers are single digits, `+` is the
only operator, and no whitespace is skipped. Every error raises one generic
exception.

The model lives in module `Interpreter` (`interpreter.dfy`):

- `Token`, `TokenType` and `TokenValue` are datatypes. The source's `type`
  field is called `kind`, because `type` is a Dafny keyword. The payload is
  Python's `str | int | None`.
- The raised exception is the `Failure` outcome of `Result`. The source's
  `error` method is the point where a method returns `Failure`.
- `Scan(text, pos)` is the pure specification of one tokenizer call. `Pull`
  runs `n` successive calls. `EvalFrom(text, p)` states on the characters when
  `expr` succeeds and what it returns. `Eval(text)` is `EvalFrom(text, 0)`,
  the value a fresh interpreter computes.
- Class `Interpretor` holds `text`, `pos` and `currentToken`, plus a ghost call
  counter `scans`. `GetNextToken`, `Eat` and `Expr` are methods proved against
  `Scan` and `EvalFrom`. `__is_end_of_file` is the predicate
  `Interpretor.AtEndOfFile`, which `GetNextToken` uses.

The final `eat(INTEGER)` calls the tokenizer once more, so the fourth
character is lexed. `"3+5x"` therefore fails, while `"3+5+"` and `"3+57"`
both give 8. Characters from index 4 onward are never examined.

## Model

| member | source | states |
|---|---|---|
| `Interpreter.DigitValue` | interpreter/main.py:57-58 | a digit character converts to a value in 0..9, and that value spells the same character back |
| `Interpreter.Scan` | interpreter/main.py:43-68 | every token the tokenizer produces is well formed: INTEGER carries 0..9, PLUS carries "+", EOF carries no value |
| `Interpreter.ScanAtEnd` | interpreter/main.py:40-53 | at or past the end of input the tokenizer returns an EOF token with no value and leaves the cursor where it was |
| `Interpreter.ScanInside` | interpreter/main.py:55-67 | inside the input the tokenizer succeeds if and only if the character is a digit or `+`; it then advances by exactly one, and the token is INTEGER exactly for a digit and spells that character |
| `Interpreter.ScanSpells` | interpreter/main.py:52-65 | a successful call moves the cursor by at most one, stays within the text, and the consumed text is the token's spelling |
| `Interpreter.PullBounds` | interpreter/main.py:52-65 | `n` successful calls yield `n` tokens, move the cursor by at most `n`, and never past the end of the input |
| `Interpreter.PullAtEnd` | interpreter/main.py:40-53 | once the input is exhausted, any number of further calls all succeed with EOF and the cursor does not move |
| `Interpreter.PullSucceeds` | interpreter/main.py:52-67 | `n` calls succeed if and only if every existing character among the next `n` is a digit or `+` |
| `Interpreter.PullSpells` | interpreter/main.py:55-65 | the tokens of a successful run, spelled back, are exactly the characters the run consumed |
| `Interpreter.EvalFrom` | interpreter/main.py:79-98 | a successful `expr` returns a value in 0..18, and the input has `+` right after the first digit |
| `Interpreter.Eval` | interpreter/main.py:79-98 | a fresh interpreter's `expr` returns a value in 0..18 when it succeeds |
| `Interpreter.EvalIsTokenGrammar` | interpreter/main.py:82-95 | `expr` succeeds if and only if four tokenizer calls succeed and the first three tokens are INTEGER PLUS INTEGER; the result is the sum of the two integer payloads and the cursor ends at `min(len, start+4)` |
| `Interpreter.EvalIgnoresTail` | interpreter/main.py:82-95 | appending any text after the first four characters never changes the outcome |
| `Interpreter.Examples` | interpreter/main.py:79-98 | `"3+5"` gives 8, `"9+9"` gives 18, `"3+5+"` and `"3+57"` give 8; `"3+5x"`, `"12+3"`, `"3 + 5"`, `"3*5"`, `"3+"` and `""` fail |
| `Interpreter.Interpretor.constructor` | interpreter/main.py:29-35 | a new interpreter holds the text, starts with the cursor at 0 and no current token |
| `Interpreter.Interpretor.AtEndOfFile` | interpreter/main.py:40-41 | end of file holds exactly when the tokenizer, called at the cursor, would return EOF and leave the cursor where it is |
| `Interpreter.Interpretor.GetNextToken` | interpreter/main.py:43-68 | the method returns `Scan`'s token at the old cursor and moves the cursor to `Scan`'s next position; on failure the cursor is unchanged |
| `Interpreter.Interpretor.Eat` | interpreter/main.py:70-77 | the lookahead is replaced by the next token if and only if its type matches and the tokenizer succeeds; on a mismatch or a tokenizer failure the lookahead and the cursor are unchanged |
| `Interpreter.Interpretor.Expr` | interpreter/main.py:79-98 | the outcome equals `EvalFrom` at the starting cursor; on success the tokenizer ran exactly four times, the cursor is at `min(len, start+4)`, and the lookahead is the token lexed at `start+3`, which is EOF exactly when the input ended there |

## Left out

- `main` (interpreter/main.py:101-112), the interactive read/print loop with its end-of-input handling and empty-line skipping, is I/O plumbing and is not modelled.
- `Token.__str__` and `Token.__repr__` only format tokens for display and are not modelled.
- `IsDigit` accepts only `'0'..'9'`. Python's `str.isdigit` also accepts other Unicode digits, such as superscript digits, on which `int()` would raise a different exception. That path is not modelled.
- The exception message text is not modelled. All failures are one `Failure` outcome. The source's `assert` and `cast` calls become proof obligations that a token is present and that its payload is an integer.
- `Interpreter.Interpretor.Expr`: after a failure the contract says only that the object stays valid. The source raises part-way through, and the exact cursor and lookahead left behind are not stated.
