/** The scanner (internal/scanner/scanner.go): a character-level state
    machine that turns source text into tokens. It tracks an indentation
    stack for significant whitespace, a bracket nesting counter that switches
    whitespace significance off inside brackets, and the current line.
    The source is a sequence of characters, one position each. */
module Scanner {
  import opened Wrappers
  import opened Logger
  import opened Tokens
  import Log = Logger

  /** An ASCII letter or an underscore, the first character of an
      identifier: never a digit, whitespace, a quote, a comment sign or a
      character with a token of its own. */
  predicate IsAlphabetic(c: char)
    ensures IsAlphabetic(c) ==>
      && !IsDigit(c) && !IsSpace(c) && Punctuation(c).None?
      && c != '"' && c != '#' && c != '-'
  {
    ('A' <= c <= 'Z') || ('a' <= c <= 'z') || c == '_'
  }

  /** The characters of an identifier after the first: ASCII only, and
      never whitespace, a quote, a comment sign or a character with a token
      of its own. */
  predicate IsAlphanumeric(c: char)
    ensures IsAlphanumeric(c) ==> (c as int) < 128
    ensures IsAlphanumeric(c) ==>
      && !IsSpace(c) && Punctuation(c).None?
      && c != '"' && c != '#' && c != '-'
  {
    IsAlphabetic(c) || IsDigit(c)
  }

  /** Go's `unicode.IsSpace`: the Latin-1 spaces and the other code points
      with the Unicode White_Space property. Within Latin-1 these are tab,
      LF, VT, FF, CR, space, NEL and NBSP; none of them has a token of its
      own or starts a comment. */
  predicate IsSpace(c: char)
    ensures (c as int) < 256 ==> (IsSpace(c) <==> c in "\t\n\U{000B}\U{000C}\r \U{0085}\U{00A0}")
    ensures IsSpace(c) ==> Punctuation(c).None? && c != '-' && c != '#' && c != '"'
  {
    || c == '\t' || c == '\n' || c == '\U{000B}' || c == '\U{000C}' || c == '\r' || c == ' '
    || c == '\U{0085}' || c == '\U{00A0}' || c == '\U{1680}'
    || ('\U{2000}' <= c <= '\U{200A}')
    || c == '\U{2028}' || c == '\U{2029}' || c == '\U{202F}' || c == '\U{205F}' || c == '\U{3000}'
  }

  /** The characters each scanning loop consumes. */
  datatype CharClass =
    | Digits       // scanNumber
    | Word         // scanIdentifier
    | Spaces       // scanDash
    | CommentBody  // scanComment: up to a CR or LF
    | StringBody   // scanString: up to a quote or LF

  predicate InClass(c: char, cls: CharClass) {
    match cls
    case Digits => IsDigit(c)
    case Word => IsAlphanumeric(c)
    case Spaces => c == ' '
    case CommentBody => c != '\r' && c != '\n'
    case StringBody => c != '"' && c != '\n'
  }

  /** The end of the longest run of `cls` characters starting at `i`. */
  function RunEnd(s: string, i: nat, cls: CharClass): (r: nat)
    requires i <= |s|
    ensures i <= r <= |s|
    ensures forall k :: i <= k < r ==> InClass(s[k], cls)
    ensures r == |s| || !InClass(s[r], cls)
    decreases |s| - i
  {
    if i < |s| && InClass(s[i], cls) then RunEnd(s, i + 1, cls) else i
  }

  /** The number of line feeds in `s`. */
  function Newlines(s: string): nat {
    if s == [] then 0 else Newlines(s[..|s| - 1]) + (if s[|s| - 1] == '\n' then 1 else 0)
  }

  lemma NewlinesStep(s: string, i: nat)
    requires i < |s|
    ensures Newlines(s[..i + 1]) == Newlines(s[..i]) + (if s[i] == '\n' then 1 else 0)
  {
    assert s[..i + 1][..i] == s[..i];
  }

  /** An indentation stack: positive widths, strictly increasing. */
  predicate Stack(indents: seq<int>) {
    && (forall i :: 0 <= i < |indents| ==> indents[i] > 0)
    && (forall i, j :: 0 <= i < j < |indents| ==> indents[i] < indents[j])
  }

  /** The innermost indentation width, 0 at the top level. */
  function Top(indents: seq<int>): int {
    if |indents| > 0 then indents[|indents| - 1] else 0
  }

  /** The stack after a dedent to `level`: every width above `level` is
      popped from the top. */
  function PopAbove(indents: seq<int>, level: int): (r: seq<int>)
    ensures r <= indents
    ensures |r| == 0 || r[|r| - 1] <= level
    ensures forall k :: |r| <= k < |indents| ==> level < indents[k]
  {
    if |indents| > 0 && level < indents[|indents| - 1] then
      PopAbove(indents[..|indents| - 1], level)
    else
      indents
  }

  /** What the blank-line loop of `scanBlock` has gathered so far: the
      position reached, the indentation of the current line, whether a
      line feed was seen, the line-start flag and the error log. */
  datatype Blank = Blank(end: nat, indent: int, newline: bool, lineStart: bool, errors: seq<Entry>)

  const CrMessage := "Unexpected CR, line endings are CRLF and LF."
  const UnterminatedMessage := "Unterminated string."
  const NewlineInStringMessage := "Unexpected newline within string."
  const TabMessage := "Unexpected tab, only spaces are valid indentation."
  const WhitespaceMessage := "Unexpected whitespace."
  const CharacterMessage := "Unexpected character."

  /** The characters the loop of `scanBlock` skips. */
  predicate IsBlank(c: char) {
    c == ' ' || c == '\r' || c == '\n' || c == '#'
  }

  /** One step of the loop of `scanBlock` at a blank character: a space
      deepens the indentation, a line ending resets it, a CR without LF is
      logged (with a span from `from`) and skipped, a comment is skipped to
      the end of its line. */
  function BlankStep(s: string, from: int, b: Blank): (r: Blank)
    requires b.end < |s| && IsBlank(s[b.end])
    ensures b.end < r.end <= |s|
    ensures b.errors <= r.errors
    ensures b.newline ==> r.newline
    ensures b.lineStart ==> r.lineStart
    ensures b.indent >= 0 ==> r.indent >= 0
  {
    if s[b.end] == ' ' then
      b.(end := b.end + 1, indent := b.indent + 1)
    else if s[b.end] == '\r' && !(b.end + 1 < |s| && s[b.end + 1] == '\n') then
      b.(end := b.end + 1, errors := b.errors + [Entry(CrMessage, Span(from, b.end + 1))])
    else if s[b.end] == '\r' then
      b.(end := b.end + 2, indent := 0, newline := true, lineStart := true)
    else if s[b.end] == '\n' then
      b.(end := b.end + 1, indent := 0, newline := true, lineStart := true)
    else
      b.(end := RunEnd(s, b.end, CommentBody))
  }

  /** The loop of `scanBlock`: step over blank characters up to the first
      other one or the end of the source. */
  function SkipBlank(s: string, from: int, b: Blank): (r: Blank)
    requires b.end <= |s|
    ensures b.end <= r.end <= |s|
    ensures b.errors <= r.errors
    ensures r.end < |s| ==> !IsBlank(s[r.end])
    ensures b.newline ==> r.newline
    ensures b.lineStart ==> r.lineStart
    ensures b.indent >= 0 ==> r.indent >= 0
    decreases |s| - b.end
  {
    if b.end < |s| && IsBlank(s[b.end]) then SkipBlank(s, from, BlankStep(s, from, b)) else b
  }

  /** The stack and the tokens at the end of `scanBlock` when input
      remains: a deeper line opens a block; a shallower line closes every
      block above it and ends the line; a line at the same depth ends the
      line unless it is the first of the file. */
  datatype Layout = Layout(indents: seq<int>, emitted: seq<Token>)

  function BlockLayout(indents: seq<int>, indent: int, newline: bool, first: bool, span: Span, line: int): (r: Layout)
    ensures r.indents <= indents || r.indents == indents + [indent]
    ensures indent == Top(indents) ==> r.indents == indents && |r.emitted| <= 1
    ensures forall k :: 0 <= k < |r.emitted| ==> r.emitted[k].span == span && r.emitted[k].line == line
  {
    if indent > Top(indents) then
      Layout(indents + [indent], [Token(OpenBlock, "", span, line)])
    else if indent < Top(indents) then
      var kept := PopAbove(indents, indent);
      Layout(kept, Copies(|indents| - |kept|, Token(CloseBlock, "", span, line)) + [Token(Newline, "", span, line)])
    else if newline && !first then
      Layout(indents, [Token(Newline, "", span, line)])
    else
      Layout(indents, [])
  }

  lemma StackPush(indents: seq<int>, x: int)
    requires Stack(indents) && x > Top(indents) && x > 0
    ensures Stack(indents + [x])
  {
    var r := indents + [x];
    forall i, j | 0 <= i < j < |r|
      ensures r[i] < r[j]
    {
      if j == |indents| && i < |indents| - 1 {
        assert indents[i] < indents[|indents| - 1];
      }
    }
  }

  lemma StackPrefix(indents: seq<int>, kept: seq<int>)
    requires Stack(indents) && kept <= indents
    ensures Stack(kept)
  {
    assert forall i :: 0 <= i < |kept| ==> kept[i] == indents[i];
  }

  /** The tokens of a dedent that closes `n` blocks. */
  lemma CountDedent(n: nat, span: Span, line: int)
    ensures var ts := Copies(n, Token(CloseBlock, "", span, line)) + [Token(Newline, "", span, line)];
      && Count(ts, OpenBlock) == 0 && Count(ts, CloseBlock) == n && Count(ts, Newline) == 1
  {
    var close := Token(CloseBlock, "", span, line);
    var nl := Token(Newline, "", span, line);
    CountCopies(n, close, OpenBlock);
    CountCopies(n, close, CloseBlock);
    CountCopies(n, close, Newline);
    CountOne(nl, OpenBlock);
    CountOne(nl, CloseBlock);
    CountOne(nl, Newline);
    CountAppend(Copies(n, close), [nl], OpenBlock);
    CountAppend(Copies(n, close), [nl], CloseBlock);
    CountAppend(Copies(n, close), [nl], Newline);
  }

  /** The layout keeps the stack strictly increasing. */
  lemma BlockLayoutStack(indents: seq<int>, indent: int, newline: bool, first: bool, span: Span, line: int)
    requires Stack(indents) && indent >= 0
    ensures Stack(BlockLayout(indents, indent, newline, first, span, line).indents)
  {
    if indent > Top(indents) {
      StackPush(indents, indent);
    } else if indent < Top(indents) {
      StackPrefix(indents, PopAbove(indents, indent));
    }
  }

  /** The layout emits only block and line tokens. */
  lemma BlockLayoutKinds(indents: seq<int>, indent: int, newline: bool, first: bool, span: Span, line: int)
    ensures var r := BlockLayout(indents, indent, newline, first, span, line);
      forall i :: 0 <= i < |r.emitted| ==> r.emitted[i].kind in {OpenBlock, CloseBlock, Newline} && WellLexed(r.emitted[i])
  {
  }

  /** The blocks the layout opens minus those it closes equal the growth of
      the stack. */
  lemma BlockLayoutBalanced(indents: seq<int>, indent: int, newline: bool, first: bool, span: Span, line: int)
    ensures var r := BlockLayout(indents, indent, newline, first, span, line);
      Count(r.emitted, OpenBlock) + |indents| == Count(r.emitted, CloseBlock) + |r.indents|
  {
    if indent > Top(indents) {
      CountOne(Token(OpenBlock, "", span, line), OpenBlock);
      CountOne(Token(OpenBlock, "", span, line), CloseBlock);
    } else if indent < Top(indents) {
      CountDedent(|indents| - |PopAbove(indents, indent)|, span, line);
    } else {
      CountOne(Token(Newline, "", span, line), OpenBlock);
      CountOne(Token(Newline, "", span, line), CloseBlock);
    }
  }

  /** A dedent pops exactly the widths above the new level, one CloseBlock
      each, and then ends the line with a single Newline. */
  lemma DedentCloses(indents: seq<int>, indent: int, newline: bool, first: bool, span: Span, line: int)
    requires Stack(indents) && 0 <= indent < Top(indents)
    ensures var r := BlockLayout(indents, indent, newline, first, span, line);
      && r.indents <= indents
      && Top(r.indents) <= indent
      && (forall k :: |r.indents| <= k < |indents| ==> indent < indents[k])
      && (forall x :: x in r.indents ==> x <= indent)
      && Count(r.emitted, CloseBlock) == |indents| - |r.indents|
      && Count(r.emitted, Newline) == 1
      && r.emitted[|r.emitted| - 1].kind == Newline
  {
    var kept := PopAbove(indents, indent);
    CountDedent(|indents| - |kept|, span, line);
    forall x | x in kept
      ensures x <= indent
    {
      var k :| 0 <= k < |kept| && kept[k] == x;
      assert kept[k] == indents[k] && kept[|kept| - 1] == indents[|kept| - 1];
    }
  }

  /** Tokens appended after a stream keep its block balance. */
  lemma BalanceAppend(ts: seq<Token>, more: seq<Token>, before: nat, after: nat)
    requires Count(ts, OpenBlock) == Count(ts, CloseBlock) + before
    requires Count(more, OpenBlock) + before == Count(more, CloseBlock) + after
    ensures Count(ts + more, OpenBlock) == Count(ts + more, CloseBlock) + after
  {
    CountAppend(ts, more, OpenBlock);
    CountAppend(ts, more, CloseBlock);
  }

  lemma LexedAppend(ts: seq<Token>, more: seq<Token>)
    requires forall i :: 0 <= i < |ts| ==> WellLexed(ts[i])
    requires forall i :: 0 <= i < |more| ==> WellLexed(more[i])
    ensures forall i :: 0 <= i < |ts + more| ==> WellLexed((ts + more)[i])
  {
    forall i | 0 <= i < |ts + more|
      ensures WellLexed((ts + more)[i])
    {
      if i >= |ts| {
        assert (ts + more)[i] == more[i - |ts|];
      }
    }
  }

  /** A layout that keeps the stack and the balance, appended to a
      balanced stream, keeps the scanner's invariant. */
  lemma KeepLayout(ts: seq<Token>, indents: seq<int>, r: Layout)
    requires Count(r.emitted, OpenBlock) + |indents| == Count(r.emitted, CloseBlock) + |r.indents|
    requires forall i :: 0 <= i < |r.emitted| ==> WellLexed(r.emitted[i])
    requires Count(ts, OpenBlock) == Count(ts, CloseBlock) + |indents|
    requires forall i :: 0 <= i < |ts| ==> WellLexed(ts[i])
    ensures Count(ts + r.emitted, OpenBlock) == Count(ts + r.emitted, CloseBlock) + |r.indents|
    ensures forall i :: 0 <= i < |ts + r.emitted| ==> WellLexed((ts + r.emitted)[i])
  {
    BalanceAppend(ts, r.emitted, |indents|, |r.indents|);
    LexedAppend(ts, r.emitted);
  }

  /** An opened block, appended to a balanced stream, keeps the scanner's
      invariant. */
  lemma PushKeeps(ts: seq<Token>, indents: seq<int>, indent: int, open: Token)
    requires Stack(indents) && indent > Top(indents) && open.kind == OpenBlock
    requires Count(ts, OpenBlock) == Count(ts, CloseBlock) + |indents|
    requires forall i :: 0 <= i < |ts| ==> WellLexed(ts[i])
    ensures Stack(indents + [indent])
    ensures Count(ts + [open], OpenBlock) == Count(ts + [open], CloseBlock) + |indents + [indent]|
    ensures forall i :: 0 <= i < |ts + [open]| ==> WellLexed((ts + [open])[i])
  {
    assert |indents| > 0 ==> indents[|indents| - 1] > 0;
    StackPush(indents, indent);
    CountOne(open, OpenBlock);
    CountOne(open, CloseBlock);
    KeepLayout(ts, indents, Layout(indents + [indent], [open]));
  }

  /** The tokens of a dedent, appended to a balanced stream, keep the
      scanner's invariant. */
  lemma DedentKeeps(ts: seq<Token>, indents: seq<int>, kept: seq<int>, emitted: seq<Token>, span: Span, line: int)
    requires Stack(indents) && kept <= indents
    requires emitted == Copies(|indents| - |kept|, Token(CloseBlock, "", span, line)) + [Token(Newline, "", span, line)]
    requires Count(ts, OpenBlock) == Count(ts, CloseBlock) + |indents|
    requires forall i :: 0 <= i < |ts| ==> WellLexed(ts[i])
    ensures Stack(kept)
    ensures Count(ts + emitted, OpenBlock) == Count(ts + emitted, CloseBlock) + |kept|
    ensures forall i :: 0 <= i < |ts + emitted| ==> WellLexed((ts + emitted)[i])
  {
    StackPrefix(indents, kept);
    CountDedent(|indents| - |kept|, span, line);
    assert forall i :: 0 <= i < |emitted| ==> WellLexed(emitted[i]);
    KeepLayout(ts, indents, Layout(kept, emitted));
  }

  /** One token that neither opens nor closes a block keeps the balance. */
  lemma KeepPlain(ts: seq<Token>, depth: nat, t: Token)
    requires t.kind != OpenBlock && t.kind != CloseBlock && WellLexed(t)
    requires Count(ts, OpenBlock) == Count(ts, CloseBlock) + depth
    requires forall i :: 0 <= i < |ts| ==> WellLexed(ts[i])
    ensures Count(ts + [t], OpenBlock) == Count(ts + [t], CloseBlock) + depth
    ensures forall i :: 0 <= i < |ts + [t]| ==> WellLexed((ts + [t])[i])
  {
    CountPush(ts, t, OpenBlock);
    CountPush(ts, t, CloseBlock);
    LexedAppend(ts, [t]);
  }

  lemma DigitRun(s: string, i: nat, j: nat)
    requires i < j <= |s|
    requires forall k :: i <= k < j ==> IsDigit(s[k])
    ensures IsDigits(s[i..j])
  {
    assert forall k :: 0 <= k < j - i ==> s[i..j][k] == s[i + k];
  }

  /** A dot followed by a digit at `d`: the fraction of a Float. */
  predicate Fraction(s: string, d: nat) {
    d + 1 < |s| && s[d] == '.' && IsDigit(s[d + 1])
  }

  /** Where `scanNumber`, entered at `i` after the first digit, stops: after
      the digits, and after a fraction when one follows. */
  function NumberEnd(s: string, i: nat): (r: nat)
    requires i <= |s|
    ensures i <= r <= |s|
  {
    var d := RunEnd(s, i, Digits);
    if Fraction(s, d) then RunEnd(s, d + 1, Digits) else d
  }

  /** The kind of the number token that starts before `i`: Float exactly
      when `scanNumber` reads past the integer digits. */
  function NumberKind(s: string, i: nat): (r: TokenKind)
    requires i <= |s|
    ensures r == Int || r == Float
    ensures r == Float <==> NumberEnd(s, i) > RunEnd(s, i, Digits)
  {
    if Fraction(s, RunEnd(s, i, Digits)) then Float else Int
  }

  /** The lexeme of a number: digits, then a dot and digits for a Float. */
  lemma NumberLexeme(s: string, start: nat)
    requires start < |s| && IsDigit(s[start])
    ensures var d := RunEnd(s, start + 1, Digits);
      && IsDigits(s[start..d])
      && (NumberKind(s, start + 1) == Int <==> NumberEnd(s, start + 1) == d)
      && (NumberKind(s, start + 1) == Float ==> s[d] == '.' && IsDigits(s[d + 1..NumberEnd(s, start + 1)]))
  {
    var d := RunEnd(s, start + 1, Digits);
    DigitRun(s, start, d);
    if Fraction(s, d) {
      DigitRun(s, d + 1, NumberEnd(s, start + 1));
    }
  }

  /** A CloseBlock appended to a stream closes one open block. */
  lemma CloseKeeps(ts: seq<Token>, depth: nat, t: Token)
    requires t.kind == CloseBlock
    requires Count(ts, OpenBlock) == Count(ts, CloseBlock) + depth + 1
    requires forall i :: 0 <= i < |ts| ==> WellLexed(ts[i])
    ensures Count(ts + [t], OpenBlock) == Count(ts + [t], CloseBlock) + depth
    ensures forall i :: 0 <= i < |ts + [t]| ==> WellLexed((ts + [t])[i])
  {
    CountPush(ts, t, OpenBlock);
    CountPush(ts, t, CloseBlock);
    LexedAppend(ts, [t]);
  }

  /** The final EOF completes a balanced stream of well-lexed tokens. */
  lemma FinishStream(ts: seq<Token>, t: Token)
    requires t.kind == EOF
    requires Count(ts, OpenBlock) == Count(ts, CloseBlock)
    requires forall i :: 0 <= i < |ts| ==> WellLexed(ts[i])
    ensures WellScanned(ts + [t])
    ensures Count(ts + [t], OpenBlock) == Count(ts + [t], CloseBlock)
    ensures Count(ts + [t], EOF) == 1
  {
    CountPush(ts, t, OpenBlock);
    CountPush(ts, t, CloseBlock);
    CountPush(ts, t, EOF);
    CountAbsent(ts, EOF);
    assert forall i :: 0 <= i < |ts| ==> (ts + [t])[i] == ts[i];
  }

  /** The tokens made of one character. */
  function Punctuation(c: char): (r: Option<TokenKind>)
    ensures r.Some? ==> r.value !in {EOF, Int, OpenBlock, CloseBlock}
  {
    match c
    case ':' => Some(Colon)
    case ',' => Some(Comma)
    case '+' => Some(Plus)
    case '*' => Some(Star)
    case '/' => Some(Slash)
    case '<' => Some(Less)
    case '.' => Some(Dot)
    case '$' => Some(Dollar)
    case '(' => Some(OpenParen)
    case ')' => Some(CloseParen)
    case '[' => Some(OpenBrack)
    case ']' => Some(CloseBrack)
    case '{' => Some(OpenBrace)
    case '}' => Some(CloseBrace)
    case _ => None
  }

  /** A character no rule of the scanner accepts. */
  predicate Unexpected(c: char) {
    && Punctuation(c).None?
    && c != '-' && c != '#' && c != '"'
    && !IsAlphanumeric(c) && !IsSpace(c)
  }

  /** The nesting counter after one character: an opening bracket raises it,
      a closing one lowers it unless it is already 0. */
  function Nesting(sensitivity: int, c: char): (r: int)
    ensures sensitivity >= 0 ==> r >= 0
    ensures sensitivity - 1 <= r <= sensitivity + 1
    ensures r < sensitivity ==> c == ')' || c == ']' || c == '}'
  {
    if c == '(' || c == '[' || c == '{' then sensitivity + 1
    else if (c == ')' || c == ']' || c == '}') && sensitivity != 0 then sensitivity - 1
    else sensitivity
  }

  class Scanner {
    const source: string
    const logger: Log.Logger
    var tokens: seq<Token>
    var indents: seq<int>
    var sensitivity: int
    var isLineStart: bool
    var start: nat
    var current: nat
    var line: int

    /** The scanner's invariant: the cursor lies in the source and `line`
        counts the line feeds consumed; the nesting counter is never
        negative, the indentation stack increases, every open block on the
        stack has one OpenBlock token not yet matched by a CloseBlock, and
        no EOF has been emitted. */
    ghost predicate Valid()
      reads this
    {
      CursorOk() && LayoutOk()
    }

    ghost predicate CursorOk()
      reads this`start, this`current, this`line
    {
      && start <= current <= |source|
      && line == 1 + Newlines(source[..current])
    }

    ghost predicate LayoutOk()
      reads this`tokens, this`indents, this`sensitivity
    {
      && sensitivity >= 0
      && Stack(indents)
      && Count(tokens, OpenBlock) == Count(tokens, CloseBlock) + |indents|
      && (forall i :: 0 <= i < |tokens| ==> WellLexed(tokens[i]))
    }

    /** `New`. */
    constructor (source: string, logger: Log.Logger)
      ensures this.source == source && this.logger == logger
      ensures tokens == [] && indents == [] && sensitivity == 0 && !isLineStart
      ensures start == 0 && current == 0 && line == 1
      ensures Valid()
    {
      this.source := source;
      this.logger := logger;
      tokens := [];
      indents := [];
      sensitivity := 0;
      isLineStart := false;
      start := 0;
      current := 0;
      line := 1;
      new;
      assert source[..0] == [];
    }

    /** Under the cursor invariant, the end of the source is reached
        exactly when the cursor stands at its length. */
    predicate IsEOF()
      reads this
      ensures CursorOk() ==> (IsEOF() <==> current == |source|)
    {
      current >= |source|
    }

    /** The next character, or NUL at the end of the source. */
    function Peek(): char
      reads this
      ensures IsEOF() ==> Peek() == '\0'
      ensures !IsEOF() ==> Peek() == source[current]
    {
      if current < |source| then source[current] else '\0'
    }

    /** The character after the next one, or NUL. */
    function PeekNext(): char
      reads this
      ensures current + 1 < |source| ==> PeekNext() == source[current + 1]
      ensures current + 1 >= |source| ==> PeekNext() == '\0'
    {
      if current + 1 < |source| then source[current + 1] else '\0'
    }

    /** Whitespace is significant when no bracket is open; a closing
        bracket without an open one keeps it significant. */
    predicate IsSensitive()
      reads this
      ensures LayoutOk() ==> (IsSensitive() <==> sensitivity <= 0)
      ensures IsSensitive() ==> Nesting(sensitivity, ')') == 0
    {
      sensitivity == 0
    }

    /** Consume and return the next character; at the end of the source
        return NUL and stay. A line feed advances the line count. */
    method Advance() returns (c: char)
      requires CursorOk()
      modifies this`current, this`line
      ensures CursorOk()
      ensures c == old(Peek())
      ensures current == if old(current) < |source| then old(current) + 1 else old(current)
      ensures line == old(line) + (if old(current) < |source| && c == '\n' then 1 else 0)
    {
      if current >= |source| {
        return '\0';
      }
      c := source[current];
      NewlinesStep(source, current);
      current := current + 1;
      if c == '\n' {
        line := line + 1;
      }
    }

    method Sensitize()
      requires Valid()
      modifies this`sensitivity
      ensures Valid()
      ensures sensitivity == if old(sensitivity) > 0 then old(sensitivity) - 1 else 0
    {
      if !IsSensitive() {
        sensitivity := sensitivity - 1;
      }
    }

    method Desensitize()
      requires Valid()
      modifies this`sensitivity
      ensures Valid()
      ensures sensitivity == old(sensitivity) + 1
    {
      sensitivity := sensitivity + 1;
    }

    method AddToken(kind: TokenKind)
      modifies this`tokens
      ensures tokens == old(tokens) + [Token(kind, "", Span(start, current), line)]
    {
      tokens := tokens + [Token(kind, "", Span(start, current), line)];
    }

    method AddLiteralToken(kind: TokenKind, lexeme: string)
      modifies this`tokens
      ensures tokens == old(tokens) + [Token(kind, lexeme, Span(start, current), line)]
    {
      tokens := tokens + [Token(kind, lexeme, Span(start, current), line)];
    }

    method AddError(message: string)
      modifies logger
      ensures unchanged(this)
      ensures logger.errors == old(logger.errors) + [Entry(message, Span(start, current))]
    {
      logger.Add(message, Span(start, current));
    }

    /** Append a token that neither opens nor closes a block. */
    method Emit(kind: TokenKind, lexeme: string)
      requires LayoutOk()
      requires kind != OpenBlock && kind != CloseBlock && WellLexed(Token(kind, lexeme, Span(start, current), line))
      modifies this`tokens
      ensures LayoutOk()
      ensures tokens == old(tokens) + [Token(kind, lexeme, Span(start, current), line)]
    {
      KeepPlain(tokens, |indents|, Token(kind, lexeme, Span(start, current), line));
      AddLiteralToken(kind, lexeme);
    }

    /** Consume the longest run of `cls` characters: the loops of
        `scanComment`, `scanDash`, `scanIdentifier` and `scanNumber`. */
    method SkipRun(cls: CharClass)
      requires CursorOk()
      modifies this`current, this`line
      ensures CursorOk()
      ensures current == RunEnd(source, old(current), cls)
    {
      while !IsEOF() && InClass(Peek(), cls)
        invariant CursorOk() && old(current) <= current
        invariant RunEnd(source, current, cls) == RunEnd(source, old(current), cls)
        decreases |source| - current
      {
        var _ := Advance();
      }
    }

    /** `scanComment`: skip to the end of the line. */
    method ScanComment()
      requires CursorOk()
      modifies this`current, this`line
      ensures CursorOk()
      ensures current == RunEnd(source, old(current), CommentBody)
    {
      SkipRun(CommentBody);
    }

    /** `scanDash`: a dash at the start of a line opens a block whose
        indentation counts the dash, the spaces after it and the enclosing
        indentation. */
    method ScanDash()
      requires Valid()
      modifies this`current, this`line, this`tokens, this`indents
      ensures Valid()
      ensures current == RunEnd(source, old(current), Spaces)
      ensures indents == old(indents) + [1 + (current - old(current)) + Top(old(indents))]
      ensures tokens == old(tokens) + [Token(Dash, "", Span(start, current), line), Token(OpenBlock, "", Span(start, current), line)]
    {
      var from := current;
      SkipRun(Spaces);
      var indent := 1 + (current - from);
      if |indents| > 0 {
        indent := indent + indents[|indents| - 1];
      }
      ghost var before := tokens;
      Emit(Dash, "");
      PushBlock(indent);
      assert tokens == before + [Token(Dash, "", Span(start, current), line)] + [Token(OpenBlock, "", Span(start, current), line)];
    }

    /** One pass of the loop of `scanBlock`, at a blank character. */
    method StepBlank(indent0: int, newline0: bool) returns (indent: int, newline: bool)
      requires CursorOk() && current < |source| && IsBlank(source[current])
      modifies this`current, this`line, this`isLineStart, logger
      ensures CursorOk()
      ensures Blank(current, indent, newline, isLineStart, logger.errors)
           == BlankStep(source, start, Blank(old(current), indent0, newline0, old(isLineStart), old(logger.errors)))
    {
      indent, newline := indent0, newline0;
      var c := Peek();
      if c == ' ' {
        var _ := Advance();
        indent := indent + 1;
      } else if c == '\r' {
        var _ := Advance();
        if Peek() != '\n' {
          AddError(CrMessage);
          return;
        }
        var _ := Advance();
        indent := 0;
        newline := true;
        isLineStart := true;
      } else if c == '\n' {
        var _ := Advance();
        indent := 0;
        newline := true;
        isLineStart := true;
      } else {
        ScanComment();
      }
    }

    /** The loop of `scanBlock`: skip spaces, line endings and comments. */
    method SkipBlankLines(indent0: int, newline0: bool) returns (indent: int, newline: bool)
      requires CursorOk() && indent0 >= 0
      modifies this`current, this`line, this`isLineStart, logger
      ensures CursorOk()
      ensures var r := SkipBlank(source, start, Blank(old(current), indent0, newline0, old(isLineStart), old(logger.errors)));
        && current == r.end && indent == r.indent && newline == r.newline
        && isLineStart == r.lineStart && logger.errors == r.errors
    {
      indent, newline := indent0, newline0;
      ghost var goal := SkipBlank(source, start, Blank(current, indent, newline, isLineStart, logger.errors));
      while IsBlank(Peek())
        invariant CursorOk() && indent >= 0
        invariant SkipBlank(source, start, Blank(current, indent, newline, isLineStart, logger.errors)) == goal
        modifies this`current, this`line, this`isLineStart, logger
        decreases |source| - current
      {
        indent, newline := StepBlank(indent, newline);
      }
    }

    /** The dedent loop of `scanBlock`: pop every width above `indent`,
        closing one block for each. */
    method CloseBlocks(indent: int)
      modifies this`tokens, this`indents
      ensures indents == PopAbove(old(indents), indent)
      ensures tokens == old(tokens) + Copies(|old(indents)| - |indents|, Token(CloseBlock, "", Span(start, current), line))
    {
      while |indents| > 0 && indent < indents[|indents| - 1]
        invariant indents <= old(indents)
        invariant PopAbove(indents, indent) == PopAbove(old(indents), indent)
        invariant tokens == old(tokens) + Copies(|old(indents)| - |indents|, Token(CloseBlock, "", Span(start, current), line))
        modifies this`indents, this`tokens
        decreases |indents|
      {
        indents := indents[..|indents| - 1];
        AddToken(CloseBlock);
      }
    }

    /** A deeper line opens a block. */
    method PushBlock(indent: int)
      requires LayoutOk() && indent > Top(indents)
      modifies this`tokens, this`indents
      ensures LayoutOk()
      ensures indents == old(indents) + [indent]
      ensures tokens == old(tokens) + [Token(OpenBlock, "", Span(start, current), line)]
    {
      var open := Token(OpenBlock, "", Span(start, current), line);
      PushKeeps(tokens, indents, indent, open);
      indents := indents + [indent];
      tokens := tokens + [open];
    }

    /** A shallower line closes every block above it and ends the line. */
    method Dedent(indent: int)
      requires LayoutOk() && indent < Top(indents)
      modifies this`tokens, this`indents
      ensures LayoutOk()
      ensures indents == PopAbove(old(indents), indent)
      ensures tokens == old(tokens) + (Copies(|old(indents)| - |indents|, Token(CloseBlock, "", Span(start, current), line))
                                       + [Token(Newline, "", Span(start, current), line)])
    {
      ghost var before := tokens;
      ghost var stack := indents;
      CloseBlocks(indent);
      AddToken(Newline);
      ghost var emitted := Copies(|stack| - |indents|, Token(CloseBlock, "", Span(start, current), line))
                           + [Token(Newline, "", Span(start, current), line)];
      assert tokens == before + emitted;
      DedentKeeps(before, stack, indents, emitted, Span(start, current), line);
    }

    /** A line at the same depth ends the previous one. */
    method EndLine()
      requires LayoutOk()
      modifies this`tokens
      ensures LayoutOk()
      ensures tokens == old(tokens) + [Token(Newline, "", Span(start, current), line)]
    {
      KeepPlain(tokens, |indents|, Token(Newline, "", Span(start, current), line));
      AddToken(Newline);
    }

    /** The layout part of `scanBlock`: compare the indentation of the new
        line with the innermost block. */
    method Reindent(indent: int, newline: bool)
      requires LayoutOk() && indent >= 0
      modifies this`tokens, this`indents
      ensures LayoutOk()
      ensures var lay := BlockLayout(old(indents), indent, newline, |old(tokens)| == 0, Span(start, current), line);
        indents == lay.indents && tokens == old(tokens) + lay.emitted
    {
      var last := if |indents| > 0 then indents[|indents| - 1] else 0;
      assert last == Top(indents);
      if indent > last {
        PushBlock(indent);
      } else if indent < last {
        Dedent(indent);
      } else if newline && |tokens| != 0 {
        EndLine();
      }
    }

    /** What `scanBlock` leaves after `previous`, entered with the cursor at
        `c0`, the line-start flag `ls0`, the log `errs0`, the tokens `ts0`
        and the stack `is0`: blank lines and comments are skipped; at the
        end of the source nothing is emitted, otherwise the new line is laid
        out against the stack and starts a line. */
    ghost predicate BlockScanned(previous: char, c0: nat, ls0: bool, errs0: seq<Entry>, ts0: seq<Token>, is0: seq<int>)
      reads this, logger
    {
      && c0 <= |source|
      && var r := SkipBlank(source, start, Blank(c0, if previous == ' ' then 1 else 0, previous == '\n', ls0, errs0));
      && current == r.end
      && logger.errors == r.errors
      && (r.end == |source| ==> tokens == ts0 && indents == is0 && isLineStart == r.lineStart)
      && (r.end < |source| ==>
            var lay := BlockLayout(is0, r.indent, r.newline, |ts0| == 0, Span(start, current), line);
            isLineStart && indents == lay.indents && tokens == ts0 + lay.emitted)
    }

    /** What `scanString` leaves, entered after the opening quote at `start`
        with the cursor at `c0`, the tokens `ts0` and the log `errs0`: the
        text up to a closing quote on the same line is a Str token; a line
        feed or the end of the source first is an error and emits nothing. */
    ghost predicate StringScanned(c0: nat, ts0: seq<Token>, errs0: seq<Entry>)
      reads this, logger
    {
      && start < c0 <= |source|
      && var e := RunEnd(source, c0, StringBody);
      && (e == |source| ==>
            && current == e && tokens == ts0
            && logger.errors == errs0 + [Entry(UnterminatedMessage, Span(start, e))])
      && (e < |source| && source[e] == '\n' ==>
            && current == e && tokens == ts0
            && logger.errors == errs0 + [Entry(NewlineInStringMessage, Span(start, e))])
      && (e < |source| && source[e] == '"' ==>
            && current == e + 1 && logger.errors == errs0
            && tokens == ts0 + [Token(Str, source[start + 1..e], Span(start, e + 1), line)])
    }

    /** `scanBlock`, entered after a space at the start of a line, a CR or
        a LF: skip blank lines and comments, then compare the indentation of
        the new line with the innermost block and emit the layout tokens. At
        the end of the source nothing is emitted. */
    method ScanBlock(previous: char)
      requires Valid() && (previous == ' ' || previous == '\r' || previous == '\n')
      modifies this`current, this`line, this`tokens, this`indents, this`isLineStart, logger
      ensures Valid()
      ensures BlockScanned(previous, old(current), old(isLineStart), old(logger.errors), old(tokens), old(indents))
    {
      var indent, newline := SkipBlankLines(if previous == ' ' then 1 else 0, previous == '\n');
      if IsEOF() {
        return;
      }
      Reindent(indent, newline);
      isLineStart := true;
    }

    /** `scanString`, entered after the opening quote: the text up to the
        closing quote on the same line becomes a Str token; a line feed or
        the end of the source before the closing quote is an error and
        emits nothing. */
    method ScanString()
      requires Valid() && current == start + 1
      modifies this`current, this`line, this`tokens, logger
      ensures Valid()
      ensures StringScanned(old(current), old(tokens), old(logger.errors))
    {
      SkipRun(StringBody);
      EndString();
    }

    /** What ends the body of a string: the end of the input or a line
        feed is an error and produces no token; a quote closes it. */
    method EndString()
      requires Valid() && start < current
      requires current == |source| || source[current] == '"' || source[current] == '\n'
      modifies this`current, this`line, this`tokens, logger
      ensures Valid()
      ensures old(current) == |source| ==>
        && current == old(current) && tokens == old(tokens)
        && logger.errors == old(logger.errors) + [Entry(UnterminatedMessage, Span(start, current))]
      ensures old(current) < |source| && source[old(current)] == '\n' ==>
        && current == old(current) && tokens == old(tokens)
        && logger.errors == old(logger.errors) + [Entry(NewlineInStringMessage, Span(start, current))]
      ensures old(current) < |source| && source[old(current)] == '"' ==>
        && current == old(current) + 1 && logger.errors == old(logger.errors)
        && tokens == old(tokens) + [Token(Str, source[start + 1..old(current)], Span(start, current), line)]
    {
      if IsEOF() {
        AddError(UnterminatedMessage);
      } else if Peek() == '\n' {
        AddError(NewlineInStringMessage);
      } else {
        CloseString();
      }
    }

    /** The closing quote of a string: the token holds the text strictly
        between the quotes. */
    method CloseString()
      requires Valid() && start < current < |source| && source[current] == '"'
      modifies this`current, this`line, this`tokens
      ensures Valid() && current == old(current) + 1 && line == old(line)
      ensures tokens == old(tokens) + [Token(Str, source[start + 1..old(current)], Span(start, current), line)]
    {
      var body := source[start + 1..current];
      var _ := Advance();
      Emit(Str, body);
    }

    /** `scanIdentifier`, entered after a letter or underscore: the longest
        run of letters, digits and underscores becomes an Ident token. */
    method ScanIdentifier()
      requires Valid() && start < current
      modifies this`current, this`line, this`tokens
      ensures Valid()
      ensures current == RunEnd(source, old(current), Word)
      ensures tokens == old(tokens) + [Token(Ident, source[start..current], Span(start, current), line)]
    {
      SkipRun(Word);
      Emit(Ident, source[start..current]);
    }

    /** The loops of `scanNumber`: the digits, then the dot and the digits
        of a fraction when a dot and a digit follow. */
    method SkipNumber() returns (fraction: bool)
      requires CursorOk()
      modifies this`current, this`line
      ensures CursorOk()
      ensures fraction == Fraction(source, RunEnd(source, old(current), Digits))
      ensures current == NumberEnd(source, old(current))
    {
      SkipRun(Digits);
      fraction := Peek() == '.' && IsDigit(PeekNext());
      assert fraction == Fraction(source, current);
      if fraction {
        var _ := Advance();
        SkipRun(Digits);
      }
    }

    /** `scanNumber`, entered after a digit: a run of digits is an Int
        token; when a dot and a digit follow, the dot and the next run of
        digits make it a Float token. */
    method ScanNumber()
      requires Valid() && current == start + 1 && IsDigit(source[start])
      modifies this`current, this`line, this`tokens
      ensures Valid()
      ensures current == NumberEnd(source, old(current))
      ensures tokens == old(tokens) + [Token(NumberKind(source, old(current)), source[start..current], Span(start, current), line)]
    {
      var fraction := SkipNumber();
      if fraction {
        Emit(Float, source[start..current]);
      } else {
        NumberLexeme(source, start);
        Emit(Int, source[start..current]);
      }
    }

    /** A one-character token; an opening bracket switches whitespace
        significance off, a closing one switches it back on. */
    method ScanPunctuation(c: char)
      requires Valid() && Punctuation(c).Some?
      modifies this`tokens, this`sensitivity
      ensures Valid()
      ensures sensitivity == Nesting(old(sensitivity), c)
      ensures tokens == old(tokens) + [Token(Punctuation(c).value, "", Span(start, current), line)]
    {
      var kind := Punctuation(c).value;
      if c == '(' || c == '[' || c == '{' {
        Desensitize();
      } else if c == ')' || c == ']' || c == '}' {
        Sensitize();
      }
      Emit(kind, "");
    }

    /** What the operator and delimiter cases leave after `c`, entered with
        the cursor at `c0`, the tokens `ts0`, the stack `is0` and the nesting
        counter `s0`: a one-character token; for `-` at the start of a line
        in significant whitespace a Dash and an OpenBlock whose width counts
        the dash and the spaces after it; otherwise a Minus. */
    ghost predicate SymbolScanned(c: char, lineStart: bool, c0: nat, ts0: seq<Token>, is0: seq<int>, s0: int)
      reads this
    {
      && c0 <= current <= |source|
      && sensitivity == Nesting(s0, c)
      && (Punctuation(c).Some? ==>
            && current == c0 && indents == is0
            && tokens == ts0 + [Token(Punctuation(c).value, "", Span(start, current), line)])
      && (c == '-' && lineStart && s0 == 0 ==>
            && current == RunEnd(source, c0, Spaces)
            && tokens == ts0 + [Token(Dash, "", Span(start, current), line), Token(OpenBlock, "", Span(start, current), line)]
            && indents == is0 + [1 + (current - c0) + Top(is0)])
      && (c == '-' && !(lineStart && s0 == 0) ==>
            && current == c0 && indents == is0
            && tokens == ts0 + [Token(Minus, "", Span(start, current), line)])
    }

    /** The operator and delimiter cases of `scan`, entered after the
        character `c`: a one-character token, or for `-` a dash block at
        the start of a line in significant whitespace and a minus
        otherwise. */
    method ScanSymbol(c: char, lineStart: bool)
      requires Valid() && (Punctuation(c).Some? || c == '-')
      modifies this`current, this`line, this`tokens, this`indents, this`sensitivity
      ensures Valid() && old(current) <= current
      ensures SymbolScanned(c, lineStart, old(current), old(tokens), old(indents), old(sensitivity))
    {
      if c == '-' {
        if lineStart && IsSensitive() {
          ScanDash();
        } else {
          Emit(Minus, "");
        }
      } else {
        ScanPunctuation(c);
      }
    }

    /** What the whitespace and comment cases leave after `c`, entered with
        the cursor at `c0` off the start of a line, the tokens `ts0`, the
        stack `is0` and the log `errs0`: a comment is skipped; a space at
        the start of a line, a CR or a LF in significant whitespace is
        `scanBlock`; a tab or another space character there is an error;
        outside significant whitespace all of them are skipped. */
    ghost predicate SpaceScanned(c: char, lineStart: bool, c0: nat, ts0: seq<Token>, is0: seq<int>, errs0: seq<Entry>)
      reads this, logger
    {
      && c0 <= |source|
      && (isLineStart ==> c == ' ' || c == '\r' || c == '\n')
      && (c == '#' ==>
            && current == RunEnd(source, c0, CommentBody)
            && tokens == ts0 && indents == is0 && logger.errors == errs0)
      && (c == '\t' ==>
            && current == c0 && tokens == ts0 && indents == is0
            && logger.errors == errs0 + (if sensitivity == 0 then [Entry(TabMessage, Span(start, current))] else []))
      && ((c == ' ' && !(lineStart && sensitivity == 0)) || ((c == '\r' || c == '\n') && sensitivity != 0) ==>
            && current == c0 && tokens == ts0 && indents == is0 && logger.errors == errs0)
      && (((c == ' ' && lineStart) || c == '\r' || c == '\n') && sensitivity == 0 ==>
            BlockScanned(c, c0, false, errs0, ts0, is0))
      && (IsSpace(c) && c != ' ' && c != '\t' && c != '\r' && c != '\n' ==>
            && current == c0 && tokens == ts0 && indents == is0
            && logger.errors == errs0 + (if sensitivity == 0 then [Entry(WhitespaceMessage, Span(start, current))] else []))
    }

    /** The whitespace and comment cases of `scan`, entered after the
        character `c`: a comment is skipped; a space at the start of a line,
        a CR or a LF in significant whitespace enters `scanBlock`; a tab or
        another space character there is an error; outside significant
        whitespace all of them are skipped. */
    method ScanSpace(c: char, lineStart: bool)
      requires Valid() && (IsSpace(c) || c == '#') && !isLineStart
      modifies this`current, this`line, this`tokens, this`indents, this`isLineStart, logger
      ensures Valid() && old(current) <= current
      ensures old(tokens) <= tokens && old(logger.errors) <= logger.errors
      ensures SpaceScanned(c, lineStart, old(current), old(tokens), old(indents), old(logger.errors))
    {
      if c == '#' {
        ScanComment();
      } else if c == ' ' {
        if lineStart && IsSensitive() {
          ScanBlock(c);
        }
      } else if c == '\t' {
        if IsSensitive() {
          AddError(TabMessage);
        }
      } else if c == '\r' || c == '\n' {
        if IsSensitive() {
          ScanBlock(c);
        }
      } else if IsSensitive() {
        AddError(WhitespaceMessage);
      }
    }

    /** What the literal cases leave after `c`, entered with the cursor at
        `c0`, the tokens `ts0` and the log `errs0`: a string, an Ident token
        for the longest word, an Int or Float token for the number, or an
        error for a character no rule accepts. */
    ghost predicate WordScanned(c: char, c0: nat, ts0: seq<Token>, errs0: seq<Entry>)
      reads this, logger
    {
      && start < c0 <= current <= |source|
      && (c == '"' ==> StringScanned(c0, ts0, errs0))
      && (IsAlphabetic(c) ==>
            && current == RunEnd(source, c0, Word) && logger.errors == errs0
            && tokens == ts0 + [Token(Ident, source[start..current], Span(start, current), line)])
      && (IsDigit(c) ==>
            && current == NumberEnd(source, c0) && logger.errors == errs0
            && tokens == ts0 + [Token(NumberKind(source, c0), source[start..current], Span(start, current), line)])
      && (Unexpected(c) ==>
            && current == c0 && tokens == ts0
            && logger.errors == errs0 + [Entry(CharacterMessage, Span(start, current))])
    }

    /** The literal cases of `scan`, entered after the character `c`: a
        string, an identifier, a number, or an unexpected character. */
    method ScanWord(c: char)
      requires Valid() && current == start + 1 && source[start] == c
      requires Punctuation(c).None? && c != '-' && c != '#' && !IsSpace(c)
      modifies this`current, this`line, this`tokens, logger
      ensures Valid() && old(current) <= current
      ensures old(tokens) <= tokens && old(logger.errors) <= logger.errors
      ensures WordScanned(c, old(current), old(tokens), old(logger.errors))
    {
      if c == '"' {
        ScanString();
      } else if IsAlphabetic(c) {
        ScanIdentifier();
      } else if IsDigit(c) {
        ScanNumber();
      } else {
        AddError(CharacterMessage);
      }
    }

    /** `scan`: consume one character and act on it. Only `scanBlock` sets
        the line-start flag, and only brackets move the nesting counter. */
    method ScanToken()
      requires Valid() && start == current < |source|
      modifies this`current, this`line, this`tokens, this`indents, this`sensitivity, this`isLineStart, logger
      ensures Valid() && current > old(current)
      ensures old(tokens) <= tokens && old(logger.errors) <= logger.errors
      ensures sensitivity == Nesting(old(sensitivity), source[old(current)])
      ensures isLineStart ==> source[old(current)] in {' ', '\r', '\n'}
      ensures var c := source[old(current)];
        && (Punctuation(c).Some? || c == '-' ==>
              && logger.errors == old(logger.errors)
              && SymbolScanned(c, old(isLineStart), old(current) + 1, old(tokens), old(indents), old(sensitivity)))
        && (Punctuation(c).None? && c != '-' && (IsSpace(c) || c == '#') ==>
              SpaceScanned(c, old(isLineStart), old(current) + 1, old(tokens), old(indents), old(logger.errors)))
        && (Punctuation(c).None? && c != '-' && c != '#' && !IsSpace(c) ==>
              && indents == old(indents)
              && WordScanned(c, old(current) + 1, old(tokens), old(logger.errors)))
    {
      var c := Advance();
      var lineStart := isLineStart;
      isLineStart := false;
      if Punctuation(c).Some? || c == '-' {
        ScanSymbol(c, lineStart);
      } else {
        assert Nesting(sensitivity, c) == sensitivity;
        if IsSpace(c) || c == '#' {
          ScanSpace(c, lineStart);
        } else {
          ScanWord(c);
        }
      }
    }

    /** The auto-close loop of `Scan`: one CloseBlock for every open
        block. */
    method CloseAll()
      requires LayoutOk()
      modifies this`tokens
      ensures tokens == old(tokens) + Copies(|indents|, Token(CloseBlock, "", Span(start, current), line))
      ensures Count(tokens, OpenBlock) == Count(tokens, CloseBlock)
      ensures forall k :: 0 <= k < |tokens| ==> WellLexed(tokens[k])
    {
      var close := Token(CloseBlock, "", Span(start, current), line);
      for i := 0 to |indents|
        invariant tokens == old(tokens) + Copies(i, close)
        invariant Count(tokens, OpenBlock) == Count(tokens, CloseBlock) + |indents| - i
        invariant forall k :: 0 <= k < |tokens| ==> WellLexed(tokens[k])
        modifies this`tokens
      {
        CloseKeeps(tokens, |indents| - i - 1, close);
        AddToken(CloseBlock);
      }
    }

    /** `Scan`: scan to the end of the source, close every open block, and
        end the stream with EOF. The stream is balanced: every OpenBlock is
        matched by a CloseBlock. */
    method Scan() returns (ts: seq<Token>)
      requires Valid()
      modifies this`current, this`line, this`tokens, this`indents, this`sensitivity, this`isLineStart, this`start, logger
      ensures ts == tokens && old(tokens) <= ts
      ensures current == |source|
      ensures WellScanned(ts)
      ensures Count(ts, OpenBlock) == Count(ts, CloseBlock)
      ensures Count(ts, EOF) == 1
      ensures old(logger.errors) <= logger.errors
    {
      while !IsEOF()
        invariant Valid() && old(tokens) <= tokens && old(logger.errors) <= logger.errors
        decreases |source| - current
      {
        start := current;
        ScanToken();
      }
      CloseAll();
      FinishStream(tokens, Token(EOF, "", Span(start, current), line));
      AddToken(EOF);
      ts := tokens;
    }
  }
}
