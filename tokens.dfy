/** The tokens the scanner hands to the parser (internal/scanner/token.go). */
module Tokens {
  import opened Logger

  /** `TokenKind`, in the order of its declaration. */
  datatype TokenKind =
    | EOF
      // controls
    | Colon | Comma | Dash
      // operators
    | Plus | Minus | Star | Slash | Less | Dot | Dollar
      // delimiters
    | OpenParen | CloseParen | OpenBrack | CloseBrack | OpenBrace | CloseBrace
      // whitespace
    | Newline | OpenBlock | CloseBlock
      // literals
    | Str | Ident | Int | Float

  /** `Token`: a kind, the literal's text (empty for the other kinds), and
      the position `Pos{Start, End, Line}` split into its span and line. */
  datatype Token = Token(kind: TokenKind, value: string, span: Span, line: int)

  /** The number of tokens of kind `k` in `ts`. */
  function Count(ts: seq<Token>, k: TokenKind): nat {
    if ts == [] then 0 else Count(ts[..|ts| - 1], k) + (if ts[|ts| - 1].kind == k then 1 else 0)
  }

  lemma {:induction false} CountAppend(a: seq<Token>, b: seq<Token>, k: TokenKind)
    ensures Count(a + b, k) == Count(a, k) + Count(b, k)
    decreases |b|
  {
    if b == [] {
      assert a + b == a;
    } else {
      var n := |b| - 1;
      assert (a + b)[..|a + b| - 1] == a + b[..n];
      CountAppend(a, b[..n], k);
    }
  }

  lemma CountOne(t: Token, k: TokenKind)
    ensures Count([t], k) == if t.kind == k then 1 else 0
  {
    assert [t][..0] == [];
  }

  lemma CountPush(ts: seq<Token>, t: Token, k: TokenKind)
    ensures Count(ts + [t], k) == Count(ts, k) + (if t.kind == k then 1 else 0)
  {
    assert (ts + [t])[..|ts|] == ts;
  }

  lemma {:induction false} CountAbsent(ts: seq<Token>, k: TokenKind)
    requires forall i :: 0 <= i < |ts| ==> ts[i].kind != k
    ensures Count(ts, k) == 0
  {
    if ts != [] {
      CountAbsent(ts[..|ts| - 1], k);
    }
  }

  /** `n` copies of one token. */
  function Copies(n: nat, t: Token): (r: seq<Token>)
    ensures |r| == n && forall i :: 0 <= i < n ==> r[i] == t
  {
    if n == 0 then [] else Copies(n - 1, t) + [t]
  }

  lemma {:induction false} CountCopies(n: nat, t: Token, k: TokenKind)
    ensures Count(Copies(n, t), k) == if t.kind == k then n else 0
  {
    if n > 0 {
      CountCopies(n - 1, t, k);
      assert Copies(n, t)[..n - 1] == Copies(n - 1, t);
    }
  }

  /** Go's `isDigit`: an ASCII decimal digit, whose distance from `0` is
      a digit value. */
  predicate IsDigit(c: char)
    ensures IsDigit(c) <==> 0 <= c as int - '0' as int <= 9
  {
    '0' <= c <= '9'
  }

  /** A non-empty run of decimal digits. */
  predicate IsDigits(s: string) {
    |s| > 0 && forall i :: 0 <= i < |s| ==> IsDigit(s[i])
  }

  /** What the scanner guarantees of every token it emits before the final
      EOF: it is not EOF, and an Int token's text is a run of digits. */
  predicate WellLexed(t: Token) {
    t.kind != EOF && (t.kind == Int ==> IsDigits(t.value))
  }

  /** A complete token stream: well-lexed tokens closed by one EOF. */
  predicate WellScanned(ts: seq<Token>) {
    && |ts| > 0
    && ts[|ts| - 1].kind == EOF
    && forall i :: 0 <= i < |ts| - 1 ==> WellLexed(ts[i])
  }
}
