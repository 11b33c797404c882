# crotchet in Dafny

A model of the two interpreters of **crotchet**, a small Lisp with square
brackets (`[+ 1 2]`), and proofs about them.

**The newer interpreter** is made of three parts:

- **Tokenizer** (`src/lexer.rs`). Each source line loses its `;` comment and
  has its brackets padded with spaces. It is then scanned into brackets,
  string literals and words. A word that parses as a float becomes a Number;
  any other word becomes a Symbol.
- **Evaluator** (`src/eval.rs`). It works on `Object` trees and handles:
  - the ten binary operators;
  - `let`, `set`, `if`, `fn`, `while`, `print`, `input`, `rand`, `round`;
  - the list built-ins `list`, `first`, `rest`, `len`;
  - calls of user functions;
  - lists whose head is not a symbol.

  Every form threads the environment. A form that fails still leaves behind
  whatever its evaluated parts assigned, so each step returns an outcome
  together with the environment after it.
- **Environment** (the `env` module). Its source is not part of this model.
  It is stated as an assumption:
  - an environment is a non-empty stack of frames, innermost last;
  - lookup searches outwards from the innermost frame;
  - assignment writes the innermost frame;
  - `extend` pushes an empty frame on top of the caller's stack.

**The older interpreter** has four parts:

- **Tokenizer and reader** (`src/parser.rs`). The tokenizer pads brackets and
  splits at whitespace. The reader is a recursive descent parser that returns
  one expression plus the tokens after it.
- **Expressions** (`src/expression.rs`). Symbols, numbers, lists, and
  built-in functions, with their `Display`.
- **Evaluator** (`src/evaluator.rs`). It evaluates the head of a list, and
  only then the arguments, and applies the head's function to them.
- **Default environment** (`src/environment.rs`). It holds the four
  arithmetic built-ins `+ - * /`.

## Modelling choices

- **Numbers are `real`.** `f64` rounding, overflow and underflow are not
  modelled. Whether a word parses as a float is decided by a separate
  decimal grammar, `Numbers.ParseNumber`: an optional sign, digits with an
  optional `.`, and an optional exponent.
- **The newer evaluator takes a `fuel` argument.** Fuel drops by one for
  each list form evaluated and for each round of `while`. Running out is
  its own outcome, `OutOfFuel`.
- **Outcomes are kept apart.** Besides `Ok`, an outcome is one of:
  - `Err(fault)`: the source's `Err(String)`. One `Fault` constructor stands
    for each distinct message, and `Evaluator.Message` gives the text.
  - `Panic`: the source's index-out-of-bounds panics. These come from an
    empty form `[]`, `first` or `rest` of an empty list, a call with too few
    arguments, and a `fn` form with fewer than three elements.
  - `Unmodelled(effect)`: an effect this model does not carry out. These
    are `f64` division by zero, reading standard input, and a random draw.
- **The older `Exp::Func` is a tag.** It names one of the four built-ins of
  `default_env`, because those are the only functions the older interpreter
  ever holds. `Environment.Apply` gives the body of each built-in.
- **Printing a float is a parameter** (`formatNumber`) wherever `Display`
  is modelled.
- **The source's quirks are kept as written:**
  - `round`'s error message names `set`;
  - `len` shares `rest`'s message;
  - `input`'s arity message names `get`;
  - `round`, `first`, `rest` and `len` replace an `Err` from evaluating their
    argument with their own message;
  - a string literal gets its brackets padded, because padding happens
    before scanning;
  - the `%` arm of `eval_binary_op` is unreachable, because `eval_list` never
    sends `%` there. `[% a b]` is a call of a function named `%`.
  - `rest` of an empty list panics, because `l[1..]` at `src/eval.rs:427`
    is out of range (`EvalLaws.EmptyListData`).
- **Fuel is only a bound.** An evaluation that finishes without running
  out of fuel gives the same outcome and environment with any larger fuel
  (`EvalFuel.EvalMono`). So a result proved at some fuel is the result of
  the source's unbounded run.

## Model

| member | source | states |
|---|---|---|
| Text.IndexOf | src/lexer.rs:66-73 | the index of the first occurrence of the character, or the length when there is none; nothing before it matches |
| Text.ReplaceConcat | src/lexer.rs:52 | character replacement distributes over concatenation |
| Text.ReplaceAbsent | src/lexer.rs:52 | replacing a character that does not occur changes nothing |
| Text.PadIsTwoReplacements | src/parser.rs:6-8 | the one-pass bracket padding is the source's two chained `replace` calls, `[` first and then `]` |
| Text.PadConcat | src/lexer.rs:52 | padding distributes over concatenation |
| Text.PadIsPadded | src/lexer.rs:52 | after padding, every bracket has a space on both sides |
| Text.PadOccurrences | src/lexer.rs:52 | padding keeps the number of every non-space character, brackets included |
| Text.PadWithoutBrackets | src/lexer.rs:52 | text without brackets is unchanged by padding |
| Text.Lines | src/lexer.rs:40 | `str::lines` yields lines that contain no line feed |
| Text.LinesOccurrences | src/lexer.rs:40 | splitting into lines loses no character other than line feeds and the carriage returns before them |
| Text.StripCarriageReturnOccurrences | src/lexer.rs:40 | dropping a line's final carriage return keeps every other character |
| Text.NonWhitespaceSpan | src/parser.rs:9 | the length of the leading run of non-whitespace, which stops at the first whitespace |
| Text.RemoveWhitespacePad | src/parser.rs:6-9 | padding adds nothing but whitespace |
| Numbers.ParseNumber | src/lexer.rs:90 | a number parse needs a non-empty word |
| Numbers.NumeralsOnly | src/parser.rs:48 | a word that parses as a number consists of digits, signs, `.`, `e` and `E` only |
| Numbers.NonNumeralStart | src/lexer.rs:90 | a word that starts with any other character is not a number |
| Numbers.ParseIntegerText | src/parser.rs:48 | the decimal text of every integer parses back to that integer |
| Numbers.NegativeText | src/lexer.rs:90 | a leading `-` negates the value of an unsigned numeral |
| Numbers.UnsignedText | src/lexer.rs:90 | a word starting with a digit is read as an unsigned numeral |
| Numbers.UnsignedNaturalText | src/parser.rs:48 | the decimal digits of a natural number parse to it |
| Numbers.DigitsAreUnsigned | src/parser.rs:48 | a non-empty run of digits parses to its decimal value |
| Numbers.MantissaNeedsDigitFirst | src/lexer.rs:90 | a mantissa must start with a digit or `.` |
| Numbers.Round | src/eval.rs:378 | `f64::round` gives an integer within one half of its argument, and breaks ties away from zero |
| Numbers.RoundNonNegative | src/eval.rs:378 | on a non-negative argument, the nearest integer with ties rounded up |
| Frames.New | src/eval.rs:459 | a fresh environment has one frame and binds nothing |
| Frames.GetNone | src/eval.rs:36-40 | a lookup fails exactly when no frame binds the name |
| Frames.GetInnermost | src/eval.rs:36-41 | a successful lookup returns the binding of the innermost frame that has the name |
| Frames.Set | src/eval.rs:145 | assignment binds the name, leaves every other name's lookup unchanged, and leaves the outer frames as they were |
| Frames.Extend | src/eval.rs:207 | extending pushes one empty frame and changes no lookup |
| Frames.BindAll | src/eval.rs:208-211 | binding the parameters touches only the innermost frame |
| Frames.BindAllBinds | src/eval.rs:208-211 | after binding, each parameter not repeated later in the list has its argument's value, and other names are looked up as before |
| Frames.PopExtend | src/eval.rs:207-212 | dropping the frame a call pushed gives back the caller's environment |
| Frames.PopSameOuter | src/eval.rs:207-212 | whatever the body did to its own frame, dropping it gives back the caller's environment |
| Frames.SetSet | src/eval.rs:145 | a second assignment to a name overrides the first |
| Lexer.WordSpan | src/lexer.rs:79-89 | a word runs up to whitespace, a bracket or a `"`, and no further |
| Lexer.Tokenize | src/lexer.rs:38-101 | tokenizing never fails; Symbols are words that do not parse as numbers, Numbers are the values of words that do, and a string literal holds no `"`, line feed or `;` |
| Lexer.ScanWellFormed | src/lexer.rs:54-97 | every token scanned from a padded, comment-free line is well formed |
| Lexer.LinesWellFormed | src/lexer.rs:44-98 | every token of every line is well formed |
| Lexer.ClassifyWellFormed | src/lexer.rs:90-94 | a word becomes a well-formed Number or Symbol |
| Lexer.LiteralWellFormed | src/lexer.rs:63-75 | a string literal stops before the next `"` and carries none |
| LexerLaws.TokenizeLinesConcat | src/lexer.rs:44-98 | the tokens of consecutive lines are the concatenation of each line's tokens |
| LexerLaws.SingleLine | src/lexer.rs:40-44 | a source with no line feed is tokenized as a single line |
| LexerLaws.LineBreak | src/lexer.rs:40-44 | a line feed separates tokens, so no token spans two lines |
| LexerLaws.CommentIgnored | src/lexer.rs:46-49 | everything from the first `;` to the end of the line is dropped |
| LexerLaws.ScanClosedLiteral | src/lexer.rs:63-75 | `"..."` is one string-literal token, and scanning resumes after the closing quote |
| LexerLaws.ScanOpenLiteral | src/lexer.rs:66-74 | an unterminated literal runs to the end of the line |
| LexerLaws.ScanWord | src/lexer.rs:76-95 | a maximal word is one token: a Number exactly when it parses as a float, otherwise a Symbol with the word's text |
| LexerLaws.WordSpanPrefix | src/lexer.rs:79-89 | a word followed by a non-word character is taken whole |
| LexerLaws.ScanBrackets | src/lexer.rs:60-62 | without string literals, the scan yields exactly one bracket token per bracket character |
| LexerLaws.LineBrackets | src/lexer.rs:46-62 | the same holds for one comment-free line after padding |
| LexerLaws.LinesBrackets | src/lexer.rs:44-98 | the same holds for a sequence of lines |
| LexerLaws.BracketCount | src/lexer.rs:38-101 | without comments or string literals, `tokenize` yields one `[` token per `[` and one `]` token per `]` in the source |
| LexerLaws.DisplayShapes | src/lexer.rs:13-22 | a bracket displays as itself, a Symbol as its name, a string literal as its text without quotes, and a Number as the float formatter prints it |
| LexerLaws.DisplayScansBack | src/lexer.rs:13-22 | scanning the display of a bracket, of a well-formed Symbol, or of a Number whose printed form reads back as its value gives that token back |
| LexerLaws.TokenizedSymbolDisplay | src/lexer.rs:13-22 | a Symbol produced by `tokenize` displays as a word that does not parse as a number, and scanning it gives the Symbol back |
| LexerExamples.ParseSmallNumbers | src/lexer.rs:90 | `1` and `2` are numbers, and `+` is not |
| LexerExamples.PadAdd | src/lexer.rs:52 | `[+ 1 2]` pads to ` [ + 1 2 ] ` |
| LexerExamples.ScanSpace | src/lexer.rs:56-58 | whitespace yields no token |
| LexerExamples.ScanBracket | src/lexer.rs:61-62 | a bracket is a token of its own |
| LexerExamples.ScanAdd | src/lexer.rs:54-97 | the padded `[+ 1 2]` scans to `[`, `+`, 1, 2, `]` |
| LexerExamples.LineAdd | src/lexer.rs:44-97 | the line `[+ 1 2]` gives the same tokens |
| LexerExamples.AddExample | src/lexer.rs:107-120 | `tokenize("[+ 1 2]")` is `[`, Symbol `+`, Number 1, Number 2, `]` |
| Evaluator.OperatorNamed | src/eval.rs:52 | exactly ten head symbols select a binary operator |
| Evaluator.HeadNamed | src/eval.rs:50-71 | a head symbol selects an operator if it names one, otherwise a builtin form if it names one, otherwise a call |
| Evaluator.Apply | src/eval.rs:113-124 | a comparison gives a Bool, arithmetic gives a Number, and division by zero reaches the unmodelled `f64` infinity |
| Evaluator.EvalSymbol | src/eval.rs:36-42 | a symbol evaluates to its binding exactly when it is bound, and otherwise to the unbound-symbol error naming it |
| Evaluator.ParamNames | src/eval.rs:171-183 | a parameter list is accepted exactly when every entry is a symbol, and gives their names in order |
| Evaluator.EvalFn | src/eval.rs:170-191 | `fn` builds a Lambda exactly when it has a parameter list of symbols and a list body; fewer than two elements panics |
| Evaluator.DropVoid | src/eval.rs:76-79 | the kept values are the non-Void ones, and no non-Void value is lost |
| Evaluator.EvalEach | src/eval.rs:390-392 | on success there is one value per form |
| EvalFuel.EvalEachConcat | src/eval.rs:390-392 | evaluating `a + b` evaluates `a`, then `b` in the environment `a` left, stopping at the first failure; the values are those of `a` followed by those of `b` |
| EvalFuel.EvalEachIndex | src/eval.rs:74-80 | on success, the i-th value is the value of the i-th form in the environment the forms before it left |
| EvalFuel.EvalEachFails | src/eval.rs:74-80 | on failure, some form fails after the forms before it evaluated, and the whole ends with that form's outcome and environment |
| EvalFuel.EvalMono | src/eval.rs:20-34 | an evaluation that finishes without running out of fuel gives the same outcome and environment with any larger fuel |
| EvalFuel.FinishedRunsAgree | src/eval.rs:20-34 | two evaluations of the same form that both finish agree, whatever their fuel |
| EvalFuel.OutOfFuelBelow | src/eval.rs:20-34 | running out of fuel with some bound means running out with every smaller bound |
| EvalFuel.EvalEachMono | src/eval.rs:390-392 | more fuel does not change a finished evaluation of a sequence of forms |
| EvalFuel.EvalLastMono | src/eval.rs:338-340 | more fuel does not change a finished evaluation of a `while` body |
| EvalFuel.WhileLoopMono | src/eval.rs:323-341 | more fuel does not change a finished `while` loop |
| EvalFuel.WhileRoundMono | src/eval.rs:338-341 | more fuel does not change a finished round of a `while` body and the loop after it |
| EvalFuel.EvalListMono | src/eval.rs:44-49 | more fuel does not change a finished list form |
| EvalFuel.EvalNamedMono | src/eval.rs:50-71 | more fuel does not change a finished form with a head symbol |
| EvalFuel.EvalHeadlessMono | src/eval.rs:72-88 | more fuel does not change a finished list with a non-symbol head |
| EvalFuel.BinaryMono | src/eval.rs:92-129 | more fuel does not change a finished binary operation |
| EvalFuel.LetMono | src/eval.rs:132-147 | more fuel does not change a finished `let` |
| EvalFuel.SetMono | src/eval.rs:291-308 | more fuel does not change a finished `set` |
| EvalFuel.IfMono | src/eval.rs:149-168 | more fuel does not change a finished `if` |
| EvalFuel.CallMono | src/eval.rs:193-216 | more fuel does not change a finished function call |
| EvalFuel.PrintMono | src/eval.rs:220-252 | more fuel does not change a finished `print` |
| EvalFuel.InputMono | src/eval.rs:257-289 | more fuel does not change a finished `input` |
| EvalFuel.RandMono | src/eval.rs:348-367 | more fuel does not change a finished `rand` |
| EvalFuel.ListDataMono | src/eval.rs:384-395 | more fuel does not change a finished `list` |
| EvalFuel.OneArgumentMono | src/eval.rs:369-449 | more fuel does not change a finished `round`, `first`, `rest` or `len` |
| Evaluator.EvalLast | src/eval.rs:338-340 | with no body forms the last value is unchanged |
| Evaluator.Eval | src/eval.rs:20-34 | no evaluation changes any frame but the innermost |
| EvalLaws.KeywordNamesForm | src/eval.rs:56-68 | each builtin form is recognised by its own keyword, which is not an operator symbol |
| EvalLaws.FormNamedIsKeyword | src/eval.rs:56-68 | the only symbols naming a form are the keywords |
| EvalLaws.EvalAtom | src/eval.rs:24-33 | an atom leaves the environment unchanged; it evaluates to itself, except that a Lambda gives Void and a Symbol is looked up |
| EvalLaws.EmptyFormPanics | src/eval.rs:48 | the empty form `[]` panics |
| EvalLaws.OtherHeadsAreCalls | src/eval.rs:70 | a head symbol that is neither an operator nor a keyword makes the form a function call |
| EvalLaws.PercentIsACall | src/eval.rs:52-70 | `%` is not routed to the binary operators, so `[% a b]` fails as an unbound call before evaluating its operands |
| EvalLaws.BinaryOrder | src/eval.rs:92-111 | an arity check comes first; both operands are evaluated left to right before either is checked; the left one is checked before the right |
| EvalLaws.ComparisonDuality | src/eval.rs:119-124 | `<` negates `>=`, `<=` negates `>`, `=` negates `!=`, and swapping the operands turns `<` into `>` |
| EvalLaws.ArithmeticInverses | src/eval.rs:115-118 | subtraction undoes addition, and division by a nonzero number undoes multiplication |
| EvalLaws.IfOneBranch | src/eval.rs:149-168 | `if` has exactly three arguments, needs a Bool condition, and evaluates only the selected branch |
| EvalLaws.TargetChecks | src/eval.rs:140-143 | a non-symbol target fails `let` before its value is evaluated, and fails `set` only after it |
| EvalLaws.LetAndSetAgree | src/eval.rs:144-146 | `let` and `set` leave the same environment, binding the name to the value; `let` gives Void and `set` gives the value |
| EvalLaws.HeadlessList | src/eval.rs:72-88 | a list with a non-symbol head evaluates every element and drops the Voids; it evaluates the rest again only when the first survivor is a Lambda |
| EvalLaws.DropVoidConcat | src/eval.rs:74-80 | dropping Voids distributes over concatenation |
| EvalLaws.DropVoidKeeps | src/eval.rs:76-79 | a sequence without Voids is kept whole |
| EvalLaws.DropVoidIdempotent | src/eval.rs:76-79 | dropping Voids twice is the same as once |
| EvalLaws.CallNeedsLambda | src/eval.rs:198-203 | calling an unbound name or a non-Lambda is an error, and evaluates no argument |
| EvalLaws.CallRunsBody | src/eval.rs:205-212 | arguments are evaluated in the caller's environment, and the body runs in a new frame binding the parameters; afterwards the caller's environment is the one the arguments left |
| EvalLaws.ExtraArgumentsIgnored | src/eval.rs:208-209 | arguments beyond the parameters are never evaluated |
| EvalLaws.TooFewArgumentsPanic | src/eval.rs:208-209 | with fewer arguments than parameters, the call panics once the present arguments are evaluated |
| EvalLaws.WhileStart | src/eval.rs:314-336 | `while` needs a condition and at least one body form; a false condition gives Void, and a non-Bool condition is an error |
| EvalLaws.WhileRound | src/eval.rs:323-341 | a true condition runs the body once and loops again, carrying the body's last value |
| EvalLaws.EvalLastIsLast | src/eval.rs:338-340 | the value of the body is the value of its last form |
| EvalLaws.ListThenLen | src/eval.rs:384-395 | `list` gives the evaluated arguments in order, so `len` of it counts the argument forms |
| EvalLaws.FirstAndRest | src/eval.rs:399-434 | on a non-empty list, `first` gives its head and `rest` the others, and together they give the list back |
| EvalLaws.EmptyListData | src/eval.rs:408-447 | on the empty list, `first` and `rest` panic and `len` is 0 |
| EvalLaws.DataBuiltinsNeedList | src/eval.rs:407-449 | a non-list argument, or an error evaluating it, gives the fixed message of `first`, `rest` or `len` |
| EvalLaws.RoundArgument | src/eval.rs:369-381 | `round` rounds a Number to within one half; anything else is the error naming `set` |
| EvalLaws.PrintCountsLikeLen | src/eval.rs:220-252 | `print` gives the number of its argument forms, with the same value and environment as `len` of a `list` of them |
| EvalLaws.RandChecks | src/eval.rs:348-367 | `rand` reaches the random draw exactly when both bounds are Numbers, and otherwise is an error |
| EvalLaws.InputChecks | src/eval.rs:257-289 | `input` takes at most one argument, and reaches the read only after the prompt has evaluated |
| EvalLaws.EvalKeepsOuterFrames | src/eval.rs:207-212 | no evaluation changes the frames of enclosing calls |
| EvalExamples.CallForm | src/eval.rs:193-216 | a one-parameter call runs the body with the argument bound, and returns to the caller's environment |
| EvalExamples.TwoForms | src/eval.rs:72-88 | a program of a definition and an expression evaluates to the list of the expression's value |
| EvalExamples.FactCall | src/eval.rs:505-517 | for every natural n, with fuel linear in n, the test's `fact` gives n! and leaves the environment unchanged |
| EvalExamples.FactorialProgram | src/eval.rs:505-517 | the factorial test program gives `[120]` with any fuel of at least 21 |
| EvalExamples.FibCall | src/eval.rs:491-503 | for every natural n, with fuel linear in n, the test's `fib` gives the n-th number of 1, 1, 2, 3, 5, ... and leaves the environment unchanged |
| EvalExamples.FibonacciProgram | src/eval.rs:491-503 | the fibonacci test program gives `[89]` with any fuel of at least 36 |
| EvalExamples.SquareCall | src/eval.rs:479-489 | the test's `sqr` squares its argument |
| EvalExamples.SquareProgram | src/eval.rs:479-489 | the square test program gives `[100]` with any fuel of at least 4 |
| EvalExamples.CircleArea | src/eval.rs:465-477 | the circle test program gives `[3.14 * 10 * 10]` with any fuel of at least 3 |
| EvalExamples.PiTimesSquare | src/eval.rs:470 | `[* pi [* r r]]` gives 3.14 times the square of `r` |
| EvalExamples.ThreeForms | src/eval.rs:72-88 | two definitions and an expression evaluate to the list of the expression's value |
| EvalExamples.AreaCall | src/eval.rs:527-528 | for every radius, `[area a]` gives 3.14 times its square, reading `pi` and `sqr` from enclosing frames, and leaves the environment unchanged |
| EvalExamples.AreaBodyEval | src/eval.rs:527 | the body of `area` calls `sqr` on the `r` of its own frame, not the global `r` |
| EvalExamples.DefineNumber | src/eval.rs:132-147 | `[let name x]` gives Void and binds `name` to the number `x` |
| EvalExamples.DefineFunction | src/eval.rs:132-147 | `[let name [fn [p] body]]` gives Void and binds `name` to the one-parameter Lambda |
| EvalExamples.AreaOfTen | src/eval.rs:528 | `[area r]` with the global `r` at 10 gives 3.14 * 10 * 10 |
| EvalExamples.CircleAreaByFunction | src/eval.rs:519-537 | the circle-by-function test program gives `[3.14 * 10 * 10]` with any fuel of at least 5 |
| EvalExamples.FiveForms | src/eval.rs:72-88 | four definitions and an expression evaluate to the list of the expression's value |
| Parser.ParseAtom | src/parser.rs:47-53 | a token is a Number exactly when it parses as a float, and otherwise a Symbol with the token's text |
| Parser.Parse | src/parser.rs:34-44 | on success the leftover tokens are a proper suffix of the input |
| Parser.ReadSeq | src/parser.rs:15-31 | on success the leftover tokens are a proper suffix of the input |
| ParserLaws.TokensAreClean | src/parser.rs:5-12 | every token is non-empty and whitespace-free, and a token holding a bracket is that bracket alone |
| ParserLaws.TokensSpellSource | src/parser.rs:5-12 | the tokens, concatenated, are the source without its whitespace |
| ParserLaws.BracketTokens | src/parser.rs:5-12 | there is one `[` token per `[` and one `]` token per `]` in the source |
| ParserLaws.TokenizeAtSpace | src/parser.rs:9 | tokenizing splits at a space: the tokens of `a b` are those of `a` followed by those of `b` |
| ParserLaws.ParseRejects | src/parser.rs:35-41 | no tokens, or a leading `]`, is an error with the source's message |
| ParserLaws.ParseAtomToken | src/parser.rs:42 | any other token is read as an atom, and the rest is left over |
| ParserLaws.ReadSeqUnclosed | src/parser.rs:21-23 | a list with no `]` ahead fails with the missing-`]` message |
| ParserLaws.ParseUnclosed | src/parser.rs:21-40 | a `[` with no `]` after it fails with the missing-`]` message |
| ParserLaws.ReadSeqOnlyError | src/parser.rs:15-31 | every failure of `read_seq` is the missing-`]` error, since a `]` inside a list always closes it |
| ParserLaws.ParseOnlyError | src/parser.rs:34-45 | `parse` of a non-empty input not starting with `]` fails only with the missing-`]` error |
| ParserLaws.ParseOpen | src/parser.rs:40 | a `[` starts a list |
| ParserLaws.ReadSeqClose | src/parser.rs:24-25 | `]` closes the list read so far |
| ParserLaws.ReadSeqStep | src/parser.rs:27-29 | inside a list, each element is one parse, appended in order |
| ParserLaws.ParseExtends | src/parser.rs:34-44 | a successful parse reads the same expression whatever tokens follow, and leaves them over |
| ParserLaws.ReadSeqExtends | src/parser.rs:15-31 | the same holds for reading a list |
| ParserLaws.ParseFlatten | src/parser.rs:15-44 | reading the tokens of any bracket tree gives that tree's expression, and leaves exactly the tokens after it |
| ParserLaws.ReadSeqFlatten | src/parser.rs:15-31 | reading the tokens of a sequence of trees followed by `]` gives the list of their expressions |
| ParserExamples.TokenizeBracketed | src/parser.rs:5-12 | `[w]` for a plain word `w` tokenizes to `[`, `w`, `]` |
| ParserExamples.ReadSingleton | src/parser.rs:15-44 | `[ tok ]` reads as the one-element list of the atom, with nothing left over |
| ParserExamples.InnerCloseStillUnclosed | src/parser.rs:21-23 | `[ [ a ] [ b` fails with the missing-`]` error although a `]` follows it |
| ParserExamples.RenderDoesNotRoundTrip | src/expression.rs:17-20 | the display of a list joins elements with commas and no spaces, so reading it back gives one symbol `a,b`, not the list |
| Expression.JoinComma | src/expression.rs:19 | joining nothing gives the empty text |
| Expression.RenderEach | src/expression.rs:18 | each element is displayed on its own, in order |
| Expression.RenderListShape | src/expression.rs:17-20 | a list displays bracketed, and the empty list as `[]` |
| Expression.RenderListCommas | src/expression.rs:17-20 | a list of n elements has n - 1 separating commas, plus those inside the elements |
| Expression.JoinCommaCount | src/expression.rs:19 | `join(",")` adds one comma between neighbours and no other |
| Environment.DefaultEnv | src/environment.rs:12-87 | the default environment binds exactly `+ - * /`, each to its built-in |
| Environment.ListOfFloats | src/evaluator.rs:63-65 | the only error is the not-a-number message |
| EnvironmentLaws.ListOfFloatsSpec | src/evaluator.rs:55-65 | the argument check succeeds exactly when every argument is a Number, and then yields their values in order |
| EnvironmentLaws.ValuesIndex | src/evaluator.rs:63-65 | the values are in the arguments' order |
| EnvironmentLaws.NonNumberFails | src/environment.rs:19 | any non-Number argument makes every built-in fail before it computes anything |
| EnvironmentLaws.SumConcat | src/environment.rs:19-21 | the left fold of `+` splits over concatenation |
| EnvironmentLaws.ProductZero | src/environment.rs:76-80 | a product is zero exactly when one of its factors is |
| EnvironmentLaws.AddSpec | src/environment.rs:16-24 | `+` is the sum of its arguments, and 0 with none |
| EnvironmentLaws.MulSpec | src/environment.rs:47-56 | `*` is the product of its arguments, and 1 with none |
| EnvironmentLaws.SubSpec | src/environment.rs:27-44 | `-` needs an argument, negates a single one, and otherwise gives the first minus the sum of the rest |
| EnvironmentLaws.DivOneSpec | src/environment.rs:64-74 | `/` with no arguments fails with "expected at least one number"; of one argument it is the reciprocal, and zero is a divide-by-zero error |
| EnvironmentLaws.DivSpec | src/environment.rs:59-84 | `/` of several arguments fails exactly when a divisor is zero, and otherwise gives the first divided by the product of the rest |
| ExpEvaluator.EvalArgs | src/evaluator.rs:38-41 | on success there is one value per argument form |
| ExpEvaluatorLaws.SymbolLookup | src/evaluator.rs:17-21 | a symbol evaluates to its binding exactly when bound, and otherwise to the unexpected-symbol error naming it |
| ExpEvaluatorLaws.OtherForms | src/evaluator.rs:24-50 | a number evaluates to itself, the empty list and a bare function are errors |
| ExpEvaluatorLaws.EvalArgsSpec | src/evaluator.rs:38-41 | the arguments evaluate exactly when each does, to their values in order |
| ExpEvaluatorLaws.EvalArgsFirstError | src/evaluator.rs:38-43 | a failing argument list reports the error of its first failing argument |
| ExpEvaluatorLaws.HeadFirst | src/evaluator.rs:35-45 | a head that fails or is not a function decides the outcome before any argument is looked at |
| ExpEvaluatorLaws.CallApplies | src/evaluator.rs:37-43 | a function head is applied to the evaluated arguments |
| ExpEvaluatorLaws.NumbersEvaluate | src/evaluator.rs:24 | Number arguments evaluate to themselves |
| ExpEvaluatorLaws.BuiltinCall | src/evaluator.rs:27-43 | in the default environment, a built-in's name applied to numbers gives the built-in's result |
| ExpEvaluatorLaws.AddExample | src/environment.rs:16-24 | `[+ 1 2]` evaluates to 3 in the default environment |
| ExpEvaluatorLaws.EvalFirstOnly | src/evaluator.rs:6-11 | `eval` reads only the first expression of its input, and ignores whatever follows |

## Left out

- The newer parser is not part of this model. It is `crate::parser`, which
  turns the tokens into an `Object` tree and is called at `src/eval.rs:13`.
  The newer `eval` (`src/eval.rs:9-18`) is therefore modelled from the
  tree on (`Evaluator.Eval`).
- The newer `env` module is not part of this model. Its behaviour is the
  assumption stated in `Frames`.
- `src/main.rs`, `src/repl.rs` and `src/object.rs` are the command line,
  the read-eval-print loop and an unused type. They are not part of this
  model.
- Output, input and randomness are not carried out:
  - `print` writes nothing; its value and its effect on the environment
    are modelled;
  - `input` and `rand` stop at `Unmodelled` after their argument checks.
- `f64` arithmetic is exact `real` arithmetic. Rounding, overflow,
  underflow, infinities and NaN are not modelled, and division by zero is
  `Unmodelled`.
- Numbers.ParseNumber: does not accept Rust's `inf`, `infinity` and `nan`
  spellings, in either case. Decimal rounding to the nearest `f64` is not
  modelled.
- Evaluator.Eval: with too little fuel the outcome is `OutOfFuel`. The
  source has no such bound; it recurses until it overflows the stack or
  loops forever. Any outcome other than `OutOfFuel` stays the same with
  more fuel (`EvalFuel.EvalMono`).
- Evaluator.Message: the text of each fault is given, but the `{:?}` dump
  of the offending value in the operand errors (`src/eval.rs:106`,
  `src/eval.rs:110`) is not.
- How `Display` prints an `f64` is a parameter, in `Lexer.Display` and
  `Expression.Render`.
- Two lexer tests are not worked as concrete examples:
  - the string-literal test (`src/lexer.rs:122-135`);
  - the multi-line test (`src/lexer.rs:137-175`).

  Their behaviour is covered by `LexerLaws.ScanClosedLiteral`,
  `LexerLaws.LineBreak` and `LexerLaws.ScanWord`.
- That `eval_expr` of the older interpreter never changes the environment
  holds by construction. The environment is only an input of
  `ExpEvaluator.EvalExpr`.
