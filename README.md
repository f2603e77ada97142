# A verified model of the edible configuration language

Edible is a small configuration language. A document is one inline
expression, usually a table:

```
{name: "x", base: {a: 1}, child < $base: {b: [1, 2]}, copy: $child.b[0]}
```

The Go implementation runs it through three stages, and this project
models each of them in Dafny and proves properties about the model.

- **Scanner** (internal/scanner/scanner.go) turns characters into tokens.
  It keeps an indentation stack, a bracket-nesting counter ("sensitivity")
  and a line count. Modelled as the class `Scanner.Scanner`
  (scanner.dfy), whose methods update the same fields the Go struct
  updates.
- **Parser** (internal/parser/parser.go) is recursive descent over the
  token array with a cursor. Modelled as the class `Parser.Parser`
  (parser.dfy). The shapes its results take are predicates and lemmas in
  `ParseShapes` (parse_shapes.dfy).
- **Syntax tree** (internal/parser/expr.go) is the datatype `Syntax.Expr`,
  with its `Span()` (syntax.dfy).
- **Evaluator** (internal/evaluator/evaluator.go) binds every reference to
  a root, then evaluates references, arrays and tables on demand. Memo
  flags are set before recursing. Inherited table entries are merged into
  the tables that inherit them, and the result is materialised into plain
  values. Modelled as the class `Evaluator.Evaluator` (evaluator.dfy):
  - the five Go node-to-record maps are fields of type `map`, keyed by node
    id in an arena of nodes (`Document`, document.dfy);
  - the shared `*tableDataItem` objects live in a map keyed by the table
    item that created them. An entry merged into another table is
    therefore the same entry in both, as Go's aliasing makes it;
  - the invariant the evaluator keeps is `EvaluatorState.Consistent`
    (evaluator_state.dfy), preserved step by step by the lemmas in
    `EvaluatorSteps` (evaluator_steps.dfy);
  - `resolve` is modelled by the pure function `Resolution.Resolve`
    (resolve.dfy) over the records evaluation left. Unlike Go's `resolve`,
    it does not evaluate a reference that evaluation never reached (see
    "Left out"). It also stops at an array or a table that contains
    itself, where Go's `resolve` recurses until the stack overflows.
    `ResolveAsWritten` is that recursion with a stack depth ("fuel"); the
    two agree in both directions: `ResolveAgrees` and `WrittenRefines`
    show that each returns a value exactly when the other does, and it is
    the same value.

Supporting modules:

- `Wrappers`: `Option` and `Result`.
- `Logger`: the error log as an append-only sequence of (message, span)
  entries.
- `Tokens`: `TokenKind` and `Token`, plus token counting.
- `Strconv`: Go's `strconv.ParseInt(s, 10, 64)`, which the parser calls on
  integer literals.

Terminating the mutually recursive evaluator rests on the memo flags.
The ghost set `pending` holds every flag not yet set. Setting a flag
removes it, so the set's size is the measure.

Where the written description of the language and the Go code disagree,
the model follows the code:

- **Arithmetic.** It is not implemented. `evaluate` panics on unary and
  binary nodes, and `unwrap` reports "Unary expressions are not
  supported." / "Binary expressions are not supported.". No numeric
  promotion is modelled.
- **Relative references.** A relative reference's root is the document's
  root table, never the nearest enclosing table. `bind` passes `parent`
  down unchanged.
- **Cyclic references.** Re-entering a reference that is being evaluated
  yields its (still nil) value and no error.
- **Mid-refactor names.** `Pos` and `Span` are the same (start, end)
  pair. Table keys are string literals, as `evaluateTableKeys` reads
  them.

## Model

| member | source | states |
|---|---|---|
| Logger.Logger.constructor | internal/logger/logger.go:25-30 | a new log has no errors |
| Logger.Logger.Add | internal/logger/logger.go:55-60 | appends exactly one (message, span) entry and changes nothing else |
| Syntax.Expr.Recorded | internal/parser/expr.go:16-159 | every node records at least one span, in source order: modifier then keys, operator between or before operands, delimiters around items |
| Syntax.Expr.Span | internal/parser/expr.go:16-159 | a node's span starts where its first recorded span starts and ends where its last ends: literal = its own span; Ref = modifier start to last key end, or the modifier alone with no keys; Unary = operator start to operand end; Binary = left start to right end; Array/Table = open delimiter start to close delimiter end |
| Syntax.SpanCoversOperand | internal/parser/expr.go:68-138 | for spans in source order, every key, operand and array item lies inside its parent's span |
| Syntax.SpanCoversItem | internal/parser/expr.go:142-159 | every table item's key, optional parent and value lie inside the table's span, in that order |
| Syntax.ItemInOrder | internal/parser/expr.go:142-146 | a table item's key ends before its parent starts, and the parent ends before the value starts |
| Syntax.InOrderMonotone | internal/parser/expr.go:68-76 | spans in source order have non-decreasing starts and ends |
| Syntax.RecordedAllAppend | internal/parser/expr.go:127-138 | the spans of a concatenation of expressions are the concatenation of their spans |
| Syntax.RecordedItemsAppend | internal/parser/expr.go:148-159 | the same for table items |
| Tokens.CountAppend | internal/scanner/scanner.go:431-444 | the number of tokens of a kind is additive over concatenation |
| Tokens.Copies | internal/scanner/scanner.go:52-54 | `n` copies of a token: length `n`, every element that token |
| Tokens.CountCopies | internal/scanner/scanner.go:52-54 | `n` copies of a token contain `n` tokens of its kind and none of any other |
| Scanner.Scanner.constructor | internal/scanner/scanner.go:29-43 | a new scanner has no tokens, an empty indent stack, sensitivity 0, cursor 0, line 1 and satisfies the invariant |
| Scanner.Scanner.Advance | internal/scanner/scanner.go:370-383 | returns the current character (NUL at the end), moves one position unless at the end, and increments `line` exactly when it consumes `\n` |
| Scanner.Scanner.IsEOF | internal/scanner/scanner.go:366-368 | under the cursor invariant, the end is reached exactly when the cursor stands at the length of the source |
| Scanner.Scanner.Peek | internal/scanner/scanner.go:385-392 | the character under the cursor, or NUL at the end |
| Scanner.Scanner.PeekNext | internal/scanner/scanner.go:394-407 | the character after the one under the cursor, or NUL when there is none |
| Scanner.Scanner.IsSensitive | internal/scanner/scanner.go:409-411 | under the invariant, whitespace is significant exactly when no bracket is open; a closing bracket then keeps it significant |
| Scanner.NewlinesStep | internal/scanner/scanner.go:378-380 | the line count of a prefix grows by one exactly at a line feed |
| Scanner.Scanner.Sensitize | internal/scanner/scanner.go:413-417 | a closing bracket lowers sensitivity by one only when it is positive, so it never goes negative |
| Scanner.Scanner.Desensitize | internal/scanner/scanner.go:419-421 | an opening bracket raises sensitivity by one |
| Scanner.Scanner.AddToken | internal/scanner/scanner.go:431-436 | appends one token with empty text and span (start, current) on the current line |
| Scanner.Scanner.AddLiteralToken | internal/scanner/scanner.go:438-444 | appends one token with the given text and span (start, current) |
| Scanner.Scanner.AddError | internal/scanner/scanner.go:446-448 | logs one error at (start, current) and changes no scanner field |
| Scanner.Scanner.Emit | internal/scanner/scanner.go:431-444 | appends one token spanning (start, current) on the current line; a well-lexed token that is not a block token keeps the layout invariant |
| Scanner.RunEnd | internal/scanner/scanner.go:323-326 | the end of the longest run of a character class: every character before it is in the class, the one at it is not |
| Scanner.IsAlphabetic | internal/scanner/scanner.go:454-458 | a letter or underscore is never a digit, whitespace, a quote, `#`, `-` or a character with a token of its own, so identifiers are dispatched unambiguously |
| Scanner.IsAlphanumeric | internal/scanner/scanner.go:460-462 | identifier characters are ASCII only and never whitespace, a quote, `#`, `-` or a character with a token of its own |
| Scanner.IsSpace | internal/scanner/scanner.go:167 | `unicode.IsSpace`: within Latin-1 exactly tab, LF, VT, FF, CR, space, NEL and NBSP; no space character has a token of its own or starts a comment or string |
| Tokens.IsDigit | internal/scanner/scanner.go:450-452 | an ASCII decimal digit: its distance from `0` is between 0 and 9 |
| Scanner.NumberKind | internal/scanner/scanner.go:344-363 | the token is Float exactly when `scanNumber` reads past the integer digits, Int otherwise |
| Scanner.BlockLayout | internal/scanner/scanner.go:264-286 | the indentation decision only pushes the new indent or pops; at the same depth the stack is kept and at most one token is emitted; every emitted token has the current position |
| Scanner.Nesting | internal/scanner/scanner.go:98-115 | the nesting counter moves by at most one, never below zero, and only a closing bracket lowers it |
| Scanner.Scanner.SkipRun | internal/scanner/scanner.go:189-192 | the loop `for peek() in class { advance() }` stops at `RunEnd` |
| Scanner.Scanner.ScanComment | internal/scanner/scanner.go:206-211 | skips to the next CR, LF or the end of input |
| Scanner.Scanner.ScanDash | internal/scanner/scanner.go:180-204 | skips the following spaces, emits Dash then OpenBlock, and pushes 1 + spaces + previous top |
| Scanner.PopAbove | internal/scanner/scanner.go:274-280 | the stack after a dedent is a prefix whose top is at most the new level, and every popped width exceeds it |
| Scanner.BlankStep | internal/scanner/scanner.go:227-256 | one step of the `scanBlock` loop consumes at least one character, only appends errors, and keeps the newline and line-start flags once set |
| Scanner.SkipBlank | internal/scanner/scanner.go:225-257 | the `scanBlock` loop stops at the end of input or at a character that is not a space, CR, LF or `#` |
| Scanner.Scanner.StepBlank | internal/scanner/scanner.go:227-256 | one loop step updates cursor, indent, newline flag, line-start flag and log exactly as `BlankStep` says |
| Scanner.Scanner.SkipBlankLines | internal/scanner/scanner.go:225-257 | the whole loop ends in the state `SkipBlank` gives; a CR not followed by LF logs "Unexpected CR, line endings are CRLF and LF." and scanning continues |
| Scanner.Scanner.PushBlock | internal/scanner/scanner.go:270-273 | a deeper indent is pushed with one OpenBlock, keeping the stack increasing and the block balance |
| Scanner.Scanner.CloseBlocks | internal/scanner/scanner.go:275-280 | pops every width above the new level, emitting one CloseBlock per popped width |
| Scanner.Scanner.Dedent | internal/scanner/scanner.go:274-282 | a dedent pops every deeper width with one CloseBlock each, then emits exactly one Newline |
| Scanner.Scanner.EndLine | internal/scanner/scanner.go:283-286 | the same indent after a newline emits one Newline |
| Scanner.Scanner.Reindent | internal/scanner/scanner.go:264-286 | the stack and tokens after the indentation decision are those `BlockLayout` gives |
| Scanner.Scanner.ScanBlock | internal/scanner/scanner.go:213-292 | ends in the state `BlockScanned` describes: the cursor and the log are where `SkipBlank` stops; at the end of input nothing is emitted; otherwise the stack and the tokens are those `BlockLayout` gives and the next token is at a line start |
| Scanner.StackPush | internal/scanner/scanner.go:270-273 | pushing a width above the top keeps the stack strictly increasing |
| Scanner.StackPrefix | internal/scanner/scanner.go:274-280 | popping keeps the stack strictly increasing |
| Scanner.CountDedent | internal/scanner/scanner.go:274-282 | a dedent emits `n` CloseBlock, no OpenBlock and exactly one Newline |
| Scanner.BlockLayoutStack | internal/scanner/scanner.go:264-286 | every indentation decision leaves a strictly increasing stack |
| Scanner.BlockLayoutKinds | internal/scanner/scanner.go:264-286 | an indentation decision emits only OpenBlock, CloseBlock and Newline tokens |
| Scanner.BlockLayoutBalanced | internal/scanner/scanner.go:264-286 | OpenBlock emitted minus CloseBlock emitted equals the change in stack height |
| Scanner.DedentCloses | internal/scanner/scanner.go:274-282 | on dedent, exactly the widths above the new level are popped, one CloseBlock each, and the last token is the single Newline |
| Scanner.PushKeeps | internal/scanner/scanner.go:270-273 | a push keeps the stack increasing and OpenBlock − CloseBlock = stack height |
| Scanner.DedentKeeps | internal/scanner/scanner.go:274-282 | a dedent keeps the stack increasing and OpenBlock − CloseBlock = stack height |
| Scanner.KeepLayout | internal/scanner/scanner.go:264-286 | appending a balanced layout keeps OpenBlock − CloseBlock = stack height |
| Scanner.BalanceAppend | internal/scanner/scanner.go:264-286 | block balance composes over appended token runs |
| Scanner.KeepPlain | internal/scanner/scanner.go:431-444 | any other token keeps the block balance |
| Scanner.CloseKeeps | internal/scanner/scanner.go:52-54 | one CloseBlock at the end lowers the open depth by one |
| Scanner.FinishStream | internal/scanner/scanner.go:51-57 | with the blocks balanced, appending EOF gives a complete stream whose only EOF is last |
| Scanner.Scanner.ScanString | internal/scanner/scanner.go:298-321 | ends in the state `StringScanned` describes: a closing quote emits one Str token whose value is the text strictly between the quotes; a newline first logs "Unexpected newline within string.", the end of input logs "Unterminated string.", and in both error cases no token is emitted |
| Scanner.Scanner.EndString | internal/scanner/scanner.go:308-320 | the three outcomes at the end of the string loop, as above |
| Scanner.Scanner.CloseString | internal/scanner/scanner.go:313-320 | consumes the quote and emits the Str token |
| Scanner.Scanner.ScanIdentifier | internal/scanner/scanner.go:323-333 | consumes the alphanumeric run and emits Ident with text `source[start:current]` |
| Scanner.NumberEnd | internal/scanner/scanner.go:339-350 | where `scanNumber` stops lies within the source |
| Scanner.NumberLexeme | internal/scanner/scanner.go:339-364 | the integer part is a digit run; the token is Int exactly when no `.`+digit follows (so `1.` is Int `1`, then a Dot), and a Float is digits `.` digits |
| Scanner.DigitRun | internal/scanner/scanner.go:340-342 | a non-empty stretch of digits is a digit run |
| Scanner.Scanner.SkipNumber | internal/scanner/scanner.go:340-350 | the digit loops stop at `NumberEnd` and report whether a fraction was read |
| Scanner.Scanner.ScanNumber | internal/scanner/scanner.go:339-364 | emits Int or Float (as `NumberKind` says) with text `source[start:current]` |
| Scanner.Punctuation | internal/scanner/scanner.go:69-115 | the single-character tokens are never EOF, Int or block tokens |
| Scanner.Scanner.ScanPunctuation | internal/scanner/scanner.go:69-115 | emits the character's token and updates sensitivity as `Nesting` says |
| Scanner.Scanner.ScanSymbol | internal/scanner/scanner.go:69-115 | ends in the state `SymbolScanned` describes: a bracket or other single-character token is emitted with the nesting counter moved as `Nesting` says; a `-` at a line start while sensitive emits Dash and OpenBlock and pushes 1 + spaces + previous top; anywhere else it emits Minus |
| Scanner.Scanner.ScanSpace | internal/scanner/scanner.go:118-176 | ends in the state `SpaceScanned` describes: a comment is skipped; a space at a line start or a CR/LF while sensitive is `scanBlock` with `BlockScanned`'s result; a tab while sensitive logs the tab error; a space elsewhere, or CR/LF while nested, changes nothing; other Unicode space while sensitive logs "Unexpected whitespace." |
| Scanner.Scanner.ScanWord | internal/scanner/scanner.go:160-176 | ends in the state `WordScanned` describes: a quote starts a string with the three outcomes of `StringScanned`; letters start identifiers, digits numbers (Int or Float as `NumberKind` says), and any other character logs "Unexpected character." |
| Scanner.Scanner.ScanToken | internal/scanner/scanner.go:62-178 | one call consumes at least one character, only appends tokens and errors, updates sensitivity by `Nesting`, and sets the line-start flag only after a space, CR or LF; by the class of the consumed character, the new state is the one `SymbolScanned`, `SpaceScanned` (with the line-start flag the call began with) or `WordScanned` describes |
| Scanner.Scanner.CloseAll | internal/scanner/scanner.go:51-54 | one CloseBlock per open indent, after which OpenBlock and CloseBlock balance |
| Scanner.Scanner.Scan | internal/scanner/scanner.go:45-60 | consumes the whole source; the stream is well-lexed, balanced, and its only EOF is its last token |
| Strconv.ParseUintFrom | internal/parser/parser.go:172 | the digit loop of Go's `ParseUint` never exceeds 2^64 − 1 |
| Strconv.ParseUint64 | internal/parser/parser.go:172 | `strconv.ParseUint(s, 10, 64)` stays within the unsigned 64-bit range |
| Strconv.ParseInt64 | internal/parser/parser.go:172 | `strconv.ParseInt(s, 10, 64)` stays within the int64 range, and a syntax error gives 0 |
| Strconv.ValueGrows | internal/parser/parser.go:172 | the value of a digit prefix grows with the prefix |
| Strconv.ParseUintFromDigits | internal/parser/parser.go:172 | on digits, the loop gives the number's value, or the largest value with a range error |
| Strconv.ParseUintDigits | internal/parser/parser.go:172 | on a digit run, `ParseUint` gives its value, or 2^64 − 1 with a range error |
| Strconv.ParseIntDigits | internal/parser/parser.go:170-181 | on a digit run, `ParseInt` gives its value, or 2^63 − 1 with a range error, never negative |
| Strconv.Format | internal/parser/parser.go:172 | the decimal text of a number is a digit run |
| Strconv.FormatValue | internal/parser/parser.go:172 | the digits of `Format(n)` denote `n` |
| Strconv.ParseFormat | internal/parser/parser.go:172 | round trip: `ParseInt(Format(n))` is `n` without error for every `n` up to 2^63 − 1 |
| Strconv.ParseFormatNegative | internal/parser/parser.go:172 | round trip with a minus sign down to −2^63 |
| Parser.Parser.constructor | internal/parser/parser.go:16-22 | a new parser starts at token 0 |
| Parser.Parser.Peek | internal/parser/parser.go:512-514 | the token under the cursor |
| Parser.Parser.IsEOF | internal/parser/parser.go:466-468 | true exactly when the cursor is on EOF |
| Parser.Parser.Advance | internal/parser/parser.go:500-510 | moves one token unless on EOF and returns the token before the cursor |
| Parser.Parser.AddError | internal/parser/parser.go:516-518 | logs one error at the token's span |
| Parser.Parser.Consume | internal/parser/parser.go:491-498 | a match takes the token without logging; a mismatch returns nil, does not move, and logs the message at the current token |
| Parser.Parser.ParseTerm | internal/parser/parser.go:38-72 | the result is the left-nested chain of `+`/`-` links read at increasing operator positions, each operand a factor (a sum only inside parentheses); it stops before a sign; nil means an error was logged |
| Parser.Parser.ParseFactor | internal/parser/parser.go:74-108 | a factor is a sum only if it starts with `(`, so `*` and `/` bind tighter than `+` and `-` |
| Parser.Parser.ParseProducts | internal/parser/parser.go:80-105 | the result is the left-nested chain of `*`/`/` links over unary operands, and it stops before `*` or `/` |
| ParseShapes.UnchainChain | internal/parser/parser.go:44-69 | a chain is left-nested: walking its left spine gives back the first operand and every operator with its right operand in source order |
| ParseShapes.ChainSpan | internal/parser/expr.go:118-123 | a chain spans from its first operand's start to its last operand's end |
| ParseShapes.ChainPush | internal/parser/parser.go:63-68 | one more operator wraps the chain so far as the left operand |
| ParseShapes.LinksPush | internal/parser/parser.go:44-69 | an operator at a later position extends the chain's ordered operator positions |
| Parser.Parser.ParseUnary | internal/parser/parser.go:110-133 | the result has the `Prefixed` shape: every leading sign becomes a unary node, the first outermost |
| ParseShapes.PrefixedDepth | internal/parser/parser.go:110-133 | right recursion: `k` sign tokens before a non-parenthesised literal give exactly `k` nested unary nodes, so `- - x` is Unary(Minus, Unary(Minus, x)) |
| Parser.Parser.ParseLiteral | internal/parser/parser.go:135-233 | dispatch on the first token: scalars as `Scalar` and `ScalarErrors` say; `$`/`.` give a Ref with that modifier; `[`/`{` give an Array/Table between matching delimiters; `(` gives the inner expression, closed by `)`; any other token logs "Expect literal." at that token and does not move |
| Parser.Parser.ParseScalar | internal/parser/parser.go:138-195 | takes one token and returns `Scalar` of it with `ScalarErrors` logged |
| Parser.Scalar | internal/parser/parser.go:138-195 | only `true` and `false` among identifiers give Bool (with that truth value); any other identifier gives nil; an Int token always gives an Int node within the int64 range; every node spans its token |
| Parser.StartsLiteral | internal/parser/parser.go:136-230 | the kinds `parseLiteral` has a case for; no layout token, closing bracket, separator, arithmetic operator or EOF starts a literal |
| Parser.ScalarErrors | internal/parser/parser.go:163-190 | at most one error, at the token: "Unexpected identifier." for a non-keyword identifier, and an error for an Int or Float exactly when its conversion fails |
| Parser.ScalarDigits | internal/parser/parser.go:170-181 | for an Int token, an out-of-range literal logs "Integer out of range." but still yields an Int node holding the value ParseInt returned (2^63 − 1), not 0 |
| Parser.Parser.ParseGroup | internal/parser/parser.go:198-214 | a parenthesised expression holds at least one token between `(` and the `)` it ends with |
| Parser.Parser.ParseReference | internal/parser/parser.go:235-312 | `$` gives Absolute and `.` Relative; the keys are read at increasing positions in source order (a leading identifier, each `.ident`, each `[expr]`); a `.` right after the modifier logs "Unnecessary '.' after '$' or '.'." and parsing goes on; it stops before any `.` or `[` |
| Parser.Parser.ParseKey | internal/parser/parser.go:259-304 | one `.ident` key (a Str of the identifier) or one bracketed key |
| ParseShapes.KeysPush | internal/parser/parser.go:248-304 | one more key at a later position keeps the keys in source order |
| Parser.Parser.Separator | internal/parser/parser.go:330-337 | between items: at the closer nothing happens; a comma is taken; anything else logs "Expect ',' between items." and fails without moving |
| Parser.Parser.ParseInlineArray | internal/parser/parser.go:314-354 | an array spans from `[` to the matching `]`; its items start at increasing positions, the first right after `[` and each later one right after a comma (a trailing comma allowed) |
| ParseShapes.ItemsPush | internal/parser/parser.go:320-337 | one more item after a comma keeps the item positions in order |
| Parser.Parser.ParseInlineTable | internal/parser/parser.go:356-396 | a table spans from `{` to the matching `}`; its items start at increasing positions after commas, and each item's key comes from the token it starts at |
| Parser.Parser.ParseTableEntry | internal/parser/parser.go:362-379 | one item followed by a comma or the closing brace |
| ParseShapes.TableItemsPush | internal/parser/parser.go:362-379 | one more table item after a comma keeps positions and keys in order |
| Parser.Parser.ParseTableItem | internal/parser/parser.go:398-464 | the key is a Str of a Str/Ident token or a bracketed expression; `<` parent is present exactly when `<` follows the key; `:` is mandatory; a token that cannot start a key logs "Expect string, identifier, or expression for key." without moving |
| Parser.Parser.ParseItemKey | internal/parser/parser.go:401-431 | the key alone, with the same error case |
| Parser.Parser.ParseInline | internal/parser/parser.go:34-36 | an expression consumes at least one token; nil means an error was logged |
| Parser.Parser.Parse | internal/parser/parser.go:24-32 | after the expression, "Unexpected token." is logged at the current token exactly when input remains |
| Parser.LiteralErrorAsWritten | internal/parser/parser.go:228-231 | the token `parseLiteral` reports "Expect literal." at is one before the offending token, and there is none at the first token |
| Parser.EmptyInputPanics | internal/parser/parser.go:228-231 | empty input: the EOF token starts no literal and there is no previous token |
| Parser.MisplacedLiteralError | internal/parser/parser.go:228-231 | in `1 + )` the error is reported at `+`, not at `)` |
| EvaluatorState.FreshRecord | internal/evaluator/evaluator.go:85-132 | the record `bind` creates for a node is its initial record: a reference gets the document root when absolute and `parent` otherwise; arrays and tables get empty, unevaluated data |
| EvaluatorState.FreshConsistent | internal/evaluator/evaluator.go:66-71 | the records `bind` leaves from the root (with parent = the root if it is a table, nil otherwise) are a consistent state with every memo flag unset |
| Evaluator.Evaluator.constructor | internal/evaluator/evaluator.go:53-64 | a new evaluator has empty state maps |
| Evaluator.Evaluator.Evaluate | internal/evaluator/evaluator.go:66-78 | binds the document, evaluates it and logs at most one error; the result is `Resolve` of the root over the records evaluation left (a reference evaluation never reached gives `Unsettled`, where Go's `resolve` would evaluate it) |
| Evaluator.Evaluator.Bind | internal/evaluator/evaluator.go:80-143 | every node under `id` is visited and has its initial record; `parent` is passed down unchanged; no record is lost |
| Evaluator.Evaluator.Record | internal/evaluator/evaluator.go:85-132 | node `id` gets a record of its kind, and no other node's record is lost |
| Evaluator.Evaluator.BindChildren | internal/evaluator/evaluator.go:97-141 | every child of `id` (keys, operands, items, table keys, values and parents) is bound under the same `parent` |
| Evaluator.Evaluator.BindAll | internal/evaluator/evaluator.go:97-126 | each node of a list is bound |
| Evaluator.Evaluator.BindItems | internal/evaluator/evaluator.go:134-141 | each table item's key, value and optional parent are bound |
| Evaluator.Evaluator.EvaluateExpr | internal/evaluator/evaluator.go:145-173 | literals and nil pass and change nothing; a reference, array or table has its flag set afterwards; a passing array has every item evaluated; a passing table has an evaluated entry behind every key it had before, and on its first evaluation behind every key of its source items |
| Evaluator.Evaluator.EvaluateRef | internal/evaluator/evaluator.go:175-279 | once a reference's flag is set, evaluating it again passes and changes no state; the flag is set by the end; on a first evaluation that passes, the stored value is the unwrapped form of the value the key walk ended on (`last`), which is the reference's root when it has no keys |
| Evaluator.Evaluator.SetRefFlag | internal/evaluator/evaluator.go:183-184 | the flag is set before any key is walked and leaves the unset-flag measure |
| Evaluator.Evaluator.WalkKeys | internal/evaluator/evaluator.go:186-268 | the walk ends on nil or a visited value that is not an operator; with no keys it ends where it started, passes and changes nothing |
| Evaluator.Evaluator.WalkKey | internal/evaluator/evaluator.go:189-267 | one key step: the key and the current value are unwrapped (`current`), and a failed unwrap fails the step; when the unwrapped current value is nil or neither an array nor a table, the step passes without error, the walk stays on `expr`, and `current` is `expr`'s unwrapped form; with a concrete key and a concrete non-container value no state changes |
| Evaluator.Evaluator.IndexArray | internal/evaluator/evaluator.go:203-233 | a non-integer key fails with "Expect integer for array index." and changes nothing; an index ≥ the item count fails with "Index out of bounds."; on a pass the item is evaluated and the walk moves to its value |
| Evaluator.Evaluator.IndexTable | internal/evaluator/evaluator.go:236-267 | a non-string key fails with "Expect string for table key." and changes nothing; the table's keys are evaluated; on a pass the key exists, its entry is evaluated and the walk moves to its value |
| Evaluator.Evaluator.FindEntry | internal/evaluator/evaluator.go:251-266 | a key absent from the table fails with "Key not found." and changes nothing |
| Evaluator.Evaluator.StoreRef | internal/evaluator/evaluator.go:270-276 | stores `v`, the unwrapped form of the walk's end `e`, as the reference's value and changes no other record |
| Evaluator.Evaluator.Unwrap | internal/evaluator/evaluator.go:473-518 | nil and concrete values pass unchanged; a reference is evaluated and gives its stored value, which is nil or concrete; Unary and Binary always fail with "... are not supported."; a failure gives nil |
| Evaluator.Evaluator.EvaluateArrayIndices | internal/evaluator/evaluator.go:295-313 | idempotent: a second call changes nothing; the first creates exactly one unevaluated entry per source item, in source order |
| Evaluator.Evaluator.EvaluateArrayValue | internal/evaluator/evaluator.go:315-344 | an evaluated item is left alone and nothing changes; otherwise its flag is set before its value is evaluated, and on a pass the item's value is replaced by the unwrapped form of its old value |
| Evaluator.Evaluator.SettleItem | internal/evaluator/evaluator.go:330-341 | once the flag is set: on a pass the item holds the unwrapped form of `value` |
| Evaluator.Evaluator.SetItemFlag | internal/evaluator/evaluator.go:327-328 | sets one item's flag and nothing else |
| Evaluator.Evaluator.StoreItem | internal/evaluator/evaluator.go:341 | replaces one item's value and changes no other record |
| Evaluator.Evaluator.EvaluateArray | internal/evaluator/evaluator.go:346-356 | the indices exist afterwards, and on a pass every item is evaluated |
| Evaluator.Evaluator.EvaluateItems | internal/evaluator/evaluator.go:349-353 | on a pass every item is evaluated |
| Evaluator.KeyMap | internal/evaluator/evaluator.go:369-384 | every key maps to an entry of this table created by an earlier item with that key |
| Evaluator.FirstRepeat | internal/evaluator/evaluator.go:370-376 | the first item whose key an earlier item already has, if any |
| Evaluator.Created | internal/evaluator/evaluator.go:369-384 | the number of entries created before the first repeated key stops the loop |
| Evaluator.KeyMapKeys | internal/evaluator/evaluator.go:378-383 | every key before the stop is in the map |
| Evaluator.KeyMapHas | internal/evaluator/evaluator.go:370-376 | a key is already in the map exactly when it repeats an earlier key |
| Evaluator.KeyMapDistinct | internal/evaluator/evaluator.go:369-384 | without a repeat, each item's key maps to that item's own entry and the map has one entry per item |
| Evaluator.FirstRepeatStable | internal/evaluator/evaluator.go:370-376 | the first repeat does not move as more items are read |
| Evaluator.Evaluator.TableKeys | internal/evaluator/evaluator.go:369-371 | a table's keys, one per item in source order |
| Evaluator.Evaluator.BuildKeys | internal/evaluator/evaluator.go:369-384 | the loop builds the key map up to the first repeated key and fails there with "Duplicate key in table." at that key |
| Evaluator.Evaluator.StoreKeys | internal/evaluator/evaluator.go:366-384 | the table's keys are stored with the flag set, and one unevaluated entry exists per created item |
| Evaluator.Evaluator.EvaluateTableKeys | internal/evaluator/evaluator.go:358-387 | idempotent: a second call passes and changes nothing; the first sets the flag, creates one unevaluated entry per item up to the first repeated key, keeps those earlier entries, and fails with "Duplicate key in table." at the repeat |
| Evaluator.Evaluator.EvaluateTableValue | internal/evaluator/evaluator.go:389-456 | an evaluated entry is left alone and nothing changes; afterwards the entry is evaluated and the key still names it; on a first evaluation that passes, the entry's value is the unwrapped form of its old value |
| Evaluator.Evaluator.EvaluateSlot | internal/evaluator/evaluator.go:393-456 | the same for an entry named by its slot, which every table that inherited it shares |
| Evaluator.Evaluator.SetEntryFlag | internal/evaluator/evaluator.go:401-402 | sets one entry's flag, before its parent or value is evaluated |
| Evaluator.Evaluator.SettleEntry | internal/evaluator/evaluator.go:404-453 | once the flag is set: parent, then value; on a pass the entry holds the unwrapped form of `value` |
| Evaluator.Evaluator.SettleParent | internal/evaluator/evaluator.go:404-415 | the parent is evaluated and unwrapped; on a pass the entry's parent is the settled value |
| Evaluator.Evaluator.StoreParent | internal/evaluator/evaluator.go:415 | replaces one entry's parent and nothing else |
| Evaluator.Evaluator.SettleField | internal/evaluator/evaluator.go:405-413 | `evaluate` then `unwrap` of one field: on a pass the result is the field's unwrapped form, the field itself when it is nil or concrete and the reference's stored value when it is a reference; a nil, scalar or other non-container field passes and changes nothing; a failure gives nil |
| Evaluator.Evaluator.SettleValue | internal/evaluator/evaluator.go:417-453 | the value half: on a pass the entry holds the unwrapped form of `value`, and that survives the merge |
| Evaluator.Evaluator.Adopt | internal/evaluator/evaluator.go:428-453 | stores the settled value in the entry, then merges; the entry keeps that value and no reference record changes |
| Evaluator.Evaluator.StoreEntry | internal/evaluator/evaluator.go:428 | replaces one entry's value and changes no other record |
| Evaluator.Evaluator.InheritFrom | internal/evaluator/evaluator.go:430-453 | when the value or the parent is not a table nothing changes; otherwise both tables have their keys evaluated; no existing entry changes, in particular the one being settled |
| Evaluator.Evaluator.Inherit | internal/evaluator/evaluator.go:442-453 | both tables' keys are evaluated and no key already in the child changes its entry |
| Evaluator.Evaluator.InheritKeys | internal/evaluator/evaluator.go:442-443 | both tables' keys are evaluated, their errors dropped; no existing entry or key of the child changes |
| Evaluator.Merged | internal/evaluator/evaluator.go:448-453 | the merged keys are the child's plus the parent's; child entries are never overwritten; every parent key missing from the child gets the parent's entry (the same entry, shared) |
| Evaluator.MergeEntries | internal/evaluator/evaluator.go:448-453 | the merge loop computes exactly `Merged` |
| Evaluator.Evaluator.StoreMerge | internal/evaluator/evaluator.go:445-453 | the child table's keys become the merged map and nothing else changes |
| Evaluator.Evaluator.EvaluateTable | internal/evaluator/evaluator.go:458-470 | the table's keys are evaluated afterwards; on a pass every key the table had when the loop began names an evaluated entry, and on its first evaluation that covers every key of its source items |
| Evaluator.Evaluator.EvaluateEntries | internal/evaluator/evaluator.go:463-467 | the loop over the keys the table had when it began, stopping at the first failure; on a pass each of them names an evaluated entry |
| Evaluator.Evaluator.EvaluateEntry | internal/evaluator/evaluator.go:464-466 | one round: the key's entry ends evaluated, and no key is removed from the table |
| Resolution.Unwrapped | internal/evaluator/evaluator.go:473-518 | after evaluation, unwrap gives nil or a concrete node: concrete nodes stay, an evaluated reference gives its stored value, an operator has none, an unevaluated reference is `Unsettled` |
| Resolution.Resolve | internal/evaluator/evaluator.go:521-563 | `resolve` with a guard against re-entering an array or table on the current path: it never overflows |
| Resolution.ResolveAsWritten | internal/evaluator/evaluator.go:521-563 | `resolve` as written, one unit of fuel per call: it never reports a cycle |
| Resolution.Gather | internal/evaluator/evaluator.go:540-547 | an array resolves exactly when every item does, to their values in order; otherwise to the first item's failure |
| Resolution.GatherMap | internal/evaluator/evaluator.go:549-556 | a table resolves exactly when every entry does, to a map with the same keys; otherwise to one of its entries' failures |
| Resolution.GatherMapOverflow | internal/evaluator/evaluator.go:549-556 | one entry that recurses without end makes the whole table do so |
| Resolution.ResolveItems | internal/evaluator/evaluator.go:543-545 | one result per array item |
| Resolution.ResolveFields | internal/evaluator/evaluator.go:552-554 | one result per table key |
| Resolution.WrittenItems | internal/evaluator/evaluator.go:543-545 | one result per array item |
| Resolution.WrittenFields | internal/evaluator/evaluator.go:552-554 | one result per table key |
| Resolution.ResolveAgrees | internal/evaluator/evaluator.go:521-563 | whenever the cycle-guarded `Resolve` gives a value, `resolve` as written gives the same value, given a stack as deep as the document has nodes |
| Resolution.ArrayAgrees | internal/evaluator/evaluator.go:540-547 | the array case of `ResolveAgrees` |
| Resolution.TableAgrees | internal/evaluator/evaluator.go:549-556 | the table case of `ResolveAgrees` |
| Resolution.ItemsAgree | internal/evaluator/evaluator.go:540-547 | the same for the items of an array |
| Resolution.FieldsAgree | internal/evaluator/evaluator.go:549-556 | the same for the entries of a table |
| Resolution.WrittenMonotone | internal/evaluator/evaluator.go:521-563 | once `resolve` as written returns a value, any deeper stack returns the same value |
| Resolution.ArrayMonotone | internal/evaluator/evaluator.go:540-547 | the array case of `WrittenMonotone` |
| Resolution.TableMonotone | internal/evaluator/evaluator.go:549-556 | the table case of `WrittenMonotone` |
| Resolution.ItemsMonotone | internal/evaluator/evaluator.go:540-547 | the same for the items of an array |
| Resolution.FieldsMonotone | internal/evaluator/evaluator.go:549-556 | the same for the entries of a table |
| Resolution.WrittenAgrees | internal/evaluator/evaluator.go:521-563 | whenever `resolve` as written returns a value, the guarded `Resolve` returns the same value, from any path of nodes that do not resolve with that stack |
| Resolution.WrittenArrayAgrees | internal/evaluator/evaluator.go:540-547 | the array case of `WrittenAgrees` |
| Resolution.WrittenTableAgrees | internal/evaluator/evaluator.go:549-556 | the table case of `WrittenAgrees` |
| Resolution.WrittenItemsAgree | internal/evaluator/evaluator.go:540-547 | the same for the items of an array |
| Resolution.WrittenFieldsAgree | internal/evaluator/evaluator.go:549-556 | the same for the entries of a table |
| Resolution.WrittenRefines | internal/evaluator/evaluator.go:521-563 | the converse of `ResolveAgrees`: a value `resolve` as written returns is the value of the guarded `Resolve` from the root |
| Resolution.FailureAgrees | internal/evaluator/evaluator.go:521-563 | when the guarded `Resolve` fails, on a cycle of any length among others, `resolve` as written fails at every stack depth |
| Resolution.TableLoops | internal/evaluator/evaluator.go:549-556 | `resolve` as written never returns on a table one of whose entries holds the table itself |
| Resolution.SelfOverflows | internal/evaluator/evaluator.go:521-563 | `{a: $}` on the state in which `a` has settled to the root table: `resolve` as written overflows at every depth |
| Resolution.TableStops | internal/evaluator/evaluator.go:549-556 | the guarded `Resolve` fails on such a table instead of running forever |
| Resolution.SelfCyclic | internal/evaluator/evaluator.go:521-563 | `{a: $}` on the state in which `a` has settled to the root table: the guarded `Resolve` reports a cycle |
| Resolution.SelfUnwraps | internal/evaluator/evaluator.go:175-279 | `{a: $}` on the state in which `a` has settled to the root table: the table unwraps to itself, `a` is its only key, and that entry holds the table |

## Left out

- Console output of the log (`Logger.Log`), the command line, file
  reading and profiling are I/O and are not modelled. The log is the
  sequence of entries `Add` appends.
- UTF-8 decoding in `advance`/`peek`/`peekNext`: the source is a sequence
  of characters, one position per character.
- Floats: `strconv.ParseFloat` is a parameter of the parser
  (`floatInRange`, whether a lexeme converts without error). A float
  literal keeps its decimal text and `resolve` returns that text.
- Arithmetic: the Go code has none. Only the "not supported" errors of
  `unwrap` are modelled. `evaluate` panics on operators, and that panic is
  a precondition: no operator stands at the root, in an array item, or as
  a table value or parent (`Document.NodeEvaluable`).
- Other panics are preconditions too:
  - table keys are string literals (`item.Key.Value`);
  - integer literals are not negative, so the array index `data.value[i]`
    cannot be negative. The parser only ever builds non-negative integers;
    a minus sign is a unary node.
- `resolve`'s panics ("Unable to resolve expression.", "Failed to resolve
  expression.") are the failure `Unresolvable`.
- On-demand evaluation inside `resolve`: Go's `resolve` calls `unwrap`,
  and `unwrap` evaluates a reference that evaluation has not reached yet
  (after an error stopped evaluation early, as in `{a: $x, b: $a}`).
  `Resolution.Resolve` is read-only over the records and gives
  `Unsettled` there instead. Modelling it would make `resolve` a method
  that changes the records.
- Go map iteration order (`evaluateTable`, the merge loop, `resolve`) is
  not modelled:
  - `EvaluateEntries` visits a table's keys in an order it does not fix;
  - `MergeEntries` is stated by its result;
  - `GatherMap` reports an order-independent failure where Go reports
    whichever failing entry it met first.
- `resolve` as written recurses without bound on a self-containing
  table. `Resolution.ResolveAsWritten` models it with a `fuel` parameter,
  and running out is `Overflow`. The fuel stands for Go's stack depth.
- `Separator`, `ParseTableEntry`, `ParseScalar`, `ParseGroup`,
  `ParseKey`, `ParseItemKey` and `ParseProducts` are pieces of
  `parseLiteral`, `parseReference`, `parseInlineArray`,
  `parseInlineTable`, `parseTableItem` and `parseFactor` given their own
  contracts. The Go code has them inline.
  `SettleItem`, `SettleEntry`, `SettleParent`, `SettleValue`,
  `SettleField`, `Adopt`, `InheritFrom`, `InheritKeys`, `EvaluateSlot`,
  `EvaluateEntries`, `EvaluateEntry`, `EvaluateItems` and the
  `Set…Flag`/`Store…` methods are likewise stretches or single
  assignments of the Go evaluator's functions, split out.
- The final `consume` of `]` or `}` in `parseInlineArray` and
  `parseInlineTable` cannot fail, because the loop ends only at that
  token. The messages "Expect ']' after array." and "Expect '}' after
  table." are therefore never logged, and the model has no such branch.
- Evaluator.Evaluator.Evaluate: does not prove that a passing evaluation
  settles every reference the result reaches, and returns `Unsettled`
  where Go's `resolve` would evaluate a reference on demand (see above).
- Evaluator.Evaluator.EvaluateRef: the stored value is tied to the value
  the walk ended on (`last`). Which value that is, for a path of several
  keys, is stated step by step by `WalkKey`, `IndexArray`, `IndexTable`
  and `FindEntry`, not as one function of the path.
- Evaluator.Evaluator.WalkKeys: states that the walk ends on nil or a
  visited non-operator value, and the case of no keys; each key step is
  stated by `WalkKey`, not the composed walk.
- Evaluator.Evaluator.EvaluateTable: states that every key the table had
  when the loop began ends evaluated. Go's loop runs over a map that the
  merge may grow while it iterates, and whether it then visits the added
  keys is unspecified, so nothing is stated about them.
- Evaluator.Evaluator.Inherit: states that the child's own entries are
  kept. That the parent's missing keys are added is stated by
  `StoreMerge` and `Merged`.
- Parser.Parser.ParseInlineArray: ties the items to token positions and
  separators, not to a grammar over the token stream. The same holds for
  `ParseInlineTable`, `ParseReference` and `ParseInline`.
- Parser.Parser.Parse: states the final "Unexpected token." error. The
  errors logged while parsing the expression are only said to be present
  when the result is nil.

## Findings

| source | as written | input that shows it | evidently intended | confidence | as-written member | corrected member |
|---|---|---|---|---|---|---|
| internal/evaluator/evaluator.go:549-556 | `resolve` recurses into every table entry with no guard against a table that contains itself | `{a: $}`: the entry `a` settles to the root table, so resolving the table resolves the table again, until the stack overflows | report the cycle instead of running forever | not executed | Resolution.TableLoops | Resolution.TableStops |
| internal/parser/parser.go:228-231 | `parseLiteral` reports "Expect literal." at `previous()`, the token before the offending one | empty input: the only token is EOF, `previous()` reads `tokens[-1]` and panics; `1 + )` reports the error at `+` | report at the offending token, `peek()` | not executed | Parser.LiteralErrorAsWritten | Parser.Parser.ParseLiteral |
