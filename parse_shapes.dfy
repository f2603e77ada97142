/** How the parser's results sit in the token stream: the trees its
    loops build and the token positions its pieces are read from
    (internal/parser/parser.go). */
module ParseShapes {
  import opened Wrappers
  import opened Logger
  import opened Tokens
  import opened Syntax

  /** One step of a left-associative chain: an operator, its token's span
      and the operand to its right. */
  datatype Link = Link(op: BinaryOp, opSpan: Span, right: Expr)

  /** The tree the loops of `parseTerm` and `parseFactor` build: each new
      operator takes everything so far as its left operand. */
  function Chain(first: Expr, links: seq<Link>): Expr {
    if links == [] then first
    else
      var last := links[|links| - 1];
      Binary(Chain(first, links[..|links| - 1]), last.op, last.opSpan, last.right)
  }

  /** A chain taken apart again. */
  datatype Spine = Spine(first: Expr, links: seq<Link>)

  /** Walks `n` binary nodes down the left spine of `e`, collecting the
      operators and right operands from the innermost outwards. */
  function Unchain(e: Expr, n: nat): Option<Spine> {
    if n == 0 then Some(Spine(e, []))
    else match e
      case Binary(left, op, s, right) =>
        (match Unchain(left, n - 1)
         case Some(spine) => Some(Spine(spine.first, spine.links + [Link(op, s, right)]))
         case None => None)
      case _ => None
  }

  /** Chains are left-nested: the left spine gives back the first operand
      and every operator with its right operand, in source order. */
  lemma {:induction false} UnchainChain(first: Expr, links: seq<Link>)
    ensures Unchain(Chain(first, links), |links|) == Some(Spine(first, links))
  {
    if links != [] {
      var n := |links| - 1;
      UnchainChain(first, links[..n]);
      assert links[..n] + [links[n]] == links;
    }
  }

  /** A chain spans from its first operand to its last operand. */
  lemma {:induction false} ChainSpan(first: Expr, links: seq<Link>)
    ensures Chain(first, links).Span().start == first.Span().start
    ensures Chain(first, links).Span().end
         == if links == [] then first.Span().end else links[|links| - 1].right.Span().end
  {
    if links != [] {
      ChainSpan(first, links[..|links| - 1]);
    }
  }

  function UnaryOpOf(k: TokenKind): UnaryOp {
    if k == Plus then UnaryPlus else UnaryMinus
  }

  function TermOpOf(k: TokenKind): BinaryOp {
    if k == Plus then BinaryPlus else BinaryMinus
  }

  function FactorOpOf(k: TokenKind): BinaryOp {
    if k == Star then BinaryStar else BinarySlash
  }

  predicate IsSign(k: TokenKind) {
    k == Plus || k == Minus
  }

  /** What `parseUnary` yields from position `p`: every leading `+` or `-`
      token becomes a unary node wrapping what follows, the first operator
      outermost; below the operators is a literal, which is an operator node
      only when it is a parenthesised expression. */
  ghost predicate Prefixed(ts: seq<Token>, p: nat, e: Expr)
    decreases e
  {
    && p < |ts|
    && if IsSign(ts[p].kind) then
         && e.Unary?
         && e.unaryOp == UnaryOpOf(ts[p].kind)
         && e.opSpan == ts[p].span
         && Prefixed(ts, p + 1, e.right)
       else
         (e.Unary? || e.Binary?) ==> ts[p].kind == OpenParen
  }

  /** The number of `+`/`-` tokens in a row from position `p`. */
  function Signs(ts: seq<Token>, p: nat): nat
    decreases |ts| - p
  {
    if p < |ts| && IsSign(ts[p].kind) then 1 + Signs(ts, p + 1) else 0
  }

  /** The unary operators on top of each other at the root of `e`. */
  function UnaryDepth(e: Expr): nat {
    if e.Unary? then 1 + UnaryDepth(e.right) else 0
  }

  /** Unary operators nest to the right, one per sign token: unless the
      operand is parenthesised, a run of `k` signs gives exactly `k` unary
      nodes, so `- - x` is a negation of a negation of `x`. */
  lemma {:induction false} PrefixedDepth(ts: seq<Token>, p: nat, e: Expr)
    requires Prefixed(ts, p, e)
    requires p + Signs(ts, p) < |ts| && ts[p + Signs(ts, p)].kind != OpenParen
    ensures UnaryDepth(e) == Signs(ts, p)
    decreases e
  {
    if IsSign(ts[p].kind) {
      PrefixedDepth(ts, p + 1, e.right);
    }
  }

  /** What `parseFactor` yields from position `p`: a `+` or `-` node only
      when the factor is a parenthesised expression. */
  ghost predicate Factored(ts: seq<Token>, p: nat, e: Expr) {
    p < |ts| && (e.Binary? && e.binaryOp in {BinaryPlus, BinaryMinus} ==> ts[p].kind == OpenParen)
  }

  /** The operands a chain's operators join: unary expressions in a
      product, factors in a sum. */
  ghost predicate Operand(ts: seq<Token>, p: nat, e: Expr, factor: bool) {
    if factor then Prefixed(ts, p, e) else Factored(ts, p, e)
  }

  /** One link of a chain read at position `pos`: the operator token
      there gives the link's operator and span, and the right operand
      starts just after it. */
  ghost predicate LinkAt(ts: seq<Token>, pos: nat, l: Link, factor: bool) {
    && pos + 1 < |ts|
    && (if factor then ts[pos].kind in {Star, Slash} else IsSign(ts[pos].kind))
    && l.op == (if factor then FactorOpOf(ts[pos].kind) else TermOpOf(ts[pos].kind))
    && l.opSpan == ts[pos].span
    && Operand(ts, pos + 1, l.right, factor)
  }

  /** The operator positions of a chain: strictly increasing token
      positions between `lo` and `hi`, each link read at its own. */
  ghost predicate LinksAt(ts: seq<Token>, links: seq<Link>, at: seq<nat>, lo: nat, hi: nat, factor: bool) {
    && |at| == |links|
    && (forall i :: 0 <= i < |at| ==> lo < at[i] < hi && LinkAt(ts, at[i], links[i], factor))
    && (forall i :: 0 < i < |at| ==> at[i - 1] < at[i])
  }

  /** One more operator at position `pos`, at or after every earlier one's
      bound, keeps a chain's positions in order. */
  lemma LinksPush(ts: seq<Token>, links: seq<Link>, at: seq<nat>, lo: nat, hi: nat, hi2: nat, pos: nat, l: Link, factor: bool)
    requires LinksAt(ts, links, at, lo, hi, factor)
    requires lo < hi <= pos && pos + 1 < hi2 && LinkAt(ts, pos, l, factor)
    ensures LinksAt(ts, links + [l], at + [pos], lo, hi2, factor)
  {
  }

  lemma ChainPush(first: Expr, links: seq<Link>, l: Link)
    ensures Chain(first, links + [l]) == Binary(Chain(first, links), l.op, l.opSpan, l.right)
  {
    assert (links + [l])[..|links|] == links;
  }

  /** Where a reference's keys come from: strictly increasing positions
      between `lo` and `hi`, each an identifier, which becomes a string key
      and is either the first token after the modifier or follows a `.`, or
      a `[` that opens an expression key. */
  ghost predicate KeysAt(ts: seq<Token>, keys: seq<Expr>, at: seq<nat>, lo: nat, hi: nat) {
    && |at| == |keys|
    && (forall i :: 0 <= i < |at| ==> lo < at[i] < hi && at[i] < |ts|)
    && (forall i :: 0 < i < |at| ==> at[i - 1] < at[i])
    && (forall i :: 0 <= i < |at| ==>
          if ts[at[i]].kind == Ident then
            && keys[i] == Expr.Str(ts[at[i]].value, ts[at[i]].span)
            && (at[i] == lo + 1 || ts[at[i] - 1].kind == Dot)
          else
            ts[at[i]].kind == OpenBrack)
  }

  /** Where a container's `n` items start: strictly increasing positions
      between `lo` and `hi`, the first right after the opening delimiter,
      each later one right after a comma. */
  ghost predicate ItemsAt(ts: seq<Token>, n: nat, at: seq<nat>, lo: nat, hi: nat) {
    && |at| == n
    && (forall i :: 0 <= i < |at| ==> lo < at[i] < hi && at[i] < |ts|)
    && (forall i :: 0 < i < |at| ==> at[i - 1] < at[i] && ts[at[i] - 1].kind == Comma)
    && (|at| > 0 ==> at[0] == lo + 1)
  }

  /** A table key as `parseTableItem` reads it at position `p`: a string or
      identifier token becomes a string key of that text; otherwise the key
      is an expression in brackets. */
  ghost predicate KeyFrom(ts: seq<Token>, p: nat, key: Expr) {
    && p < |ts|
    && ts[p].kind in {TokenKind.Str, Ident, OpenBrack}
    && (ts[p].kind in {TokenKind.Str, Ident} ==> key == Expr.Str(ts[p].value, ts[p].span))
  }

  lemma KeysPush(ts: seq<Token>, keys: seq<Expr>, at: seq<nat>, lo: nat, hi: nat, hi2: nat, pos: nat, key: Expr)
    requires KeysAt(ts, keys, at, lo, hi)
    requires lo < hi <= pos < hi2 && pos < |ts|
    requires ts[pos].kind == Ident ==> key == Expr.Str(ts[pos].value, ts[pos].span) && (pos == lo + 1 || ts[pos - 1].kind == Dot)
    requires ts[pos].kind != Ident ==> ts[pos].kind == OpenBrack
    ensures KeysAt(ts, keys + [key], at + [pos], lo, hi2)
  {
  }

  lemma ItemsPush(ts: seq<Token>, n: nat, at: seq<nat>, lo: nat, hi: nat, hi2: nat, pos: nat)
    requires ItemsAt(ts, n, at, lo, hi)
    requires lo < hi <= pos < hi2 && pos < |ts|
    requires n == 0 ==> pos == lo + 1
    requires n > 0 ==> ts[pos - 1].kind == Comma
    ensures ItemsAt(ts, n + 1, at + [pos], lo, hi2)
  {
  }

  /** Where an inline table's items start, as for any container, and each
      item's key as read at its start. */
  ghost predicate TableItemsAt(ts: seq<Token>, items: seq<TableItem>, at: seq<nat>, lo: nat, hi: nat) {
    && ItemsAt(ts, |items|, at, lo, hi)
    && forall i :: 0 <= i < |at| ==> KeyFrom(ts, at[i], items[i].key)
  }

  lemma TableItemsPush(ts: seq<Token>, items: seq<TableItem>, at: seq<nat>, lo: nat, hi: nat, hi2: nat, pos: nat, item: TableItem)
    requires TableItemsAt(ts, items, at, lo, hi)
    requires lo < hi <= pos < hi2 && pos < |ts| && KeyFrom(ts, pos, item.key)
    requires items == [] ==> pos == lo + 1
    requires items != [] ==> ts[pos - 1].kind == Comma
    ensures TableItemsAt(ts, items + [item], at + [pos], lo, hi2)
  {
    ItemsPush(ts, |items|, at, lo, hi, hi2, pos);
    assert forall i :: 0 <= i < |at| ==> (at + [pos])[i] == at[i] && (items + [item])[i] == items[i];
  }
}
