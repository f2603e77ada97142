/** The recursive-descent parser for inline expressions
    (internal/parser/parser.go). */
module Parser {
  import opened Wrappers
  import opened Logger
  import opened Tokens
  import opened Syntax
  import opened Strconv
  import Log = Logger
  import opened ParseShapes

  const UnexpectedTokenMessage := "Unexpected token."
  const UnexpectedIdentifierMessage := "Unexpected identifier."
  const IntegerRangeMessage := "Integer out of range."
  const FloatRangeMessage := "Float out of range."
  const CloseParenMessage := "Expect ')' after expression"
  const LiteralMessage := "Expect literal."
  const UnnecessaryDotMessage := "Unnecessary '.' after '$' or '.'."
  const IdentifierKeyMessage := "Expect identifier key."
  const CloseKeyMessage := "Expect ']' after expresion key."
  const CommaMessage := "Expect ',' between items."
  const CloseArrayMessage := "Expect ']' after array."
  const CloseTableMessage := "Expect '}' after table."
  const KeyMessage := "Expect string, identifier, or expression for key."
  const ColonMessage := "Expect ':' beween key and value."

  class Parser {
    const tokens: seq<Token>
    const logger: Log.Logger
    /** Whether `strconv.ParseFloat` converts a float lexeme without error;
        the conversion itself is not modelled. */
    const floatInRange: string -> bool
    var current: nat

    /** The cursor is on a token, and the stream ends with EOF, so `peek`
        can always read. */
    ghost predicate Valid()
      reads this`current
    {
      |tokens| > 0 && tokens[|tokens| - 1].kind == EOF && current < |tokens|
    }

    constructor(tokens: seq<Token>, logger: Log.Logger, floatInRange: string -> bool)
      requires |tokens| > 0 && tokens[|tokens| - 1].kind == EOF
      ensures Valid() && current == 0
      ensures this.tokens == tokens && this.logger == logger && this.floatInRange == floatInRange
    {
      this.tokens := tokens;
      this.logger := logger;
      this.floatInRange := floatInRange;
      current := 0;
    }

    function Peek(): (t: Token)
      requires Valid()
      reads this`current
      ensures t == tokens[current]
    {
      tokens[current]
    }

    function IsEOF(): (b: bool)
      requires Valid()
      reads this`current
      ensures b <==> tokens[current].kind == EOF
    {
      Peek().kind == EOF
    }

    /** `advance`: steps over the current token unless it is EOF, and
        returns the token before the cursor. At the first token `previous`
        would index before the array, so that case is excluded. */
    method Advance() returns (t: Token)
      requires Valid() && (current > 0 || !IsEOF())
      modifies this`current
      ensures Valid()
      ensures current == if old(IsEOF()) then old(current) else old(current) + 1
      ensures t == tokens[current - 1]
    {
      if !IsEOF() {
        current := current + 1;
      }
      t := tokens[current - 1];
    }

    method AddError(message: string, t: Token)
      modifies logger
      ensures logger.errors == old(logger.errors) + [Entry(message, t.span)]
    {
      logger.Add(message, t.span);
    }

    /** `consume`: takes the current token if it has the expected kind;
        otherwise logs the message at the current token and stays put. */
    method Consume(expected: TokenKind, message: string) returns (t: Option<Token>)
      requires Valid() && (current > 0 || expected != EOF)
      modifies this`current, logger
      ensures Valid()
      ensures old(Peek()).kind == expected ==>
        && current > 0
        && t == Some(tokens[current - 1])
        && current == (if expected == EOF then old(current) else old(current) + 1)
        && logger.errors == old(logger.errors)
      ensures old(Peek()).kind != expected ==>
        && t.None?
        && current == old(current)
        && logger.errors == old(logger.errors) + [Entry(message, old(Peek()).span)]
    {
      if Peek().kind == expected {
        var token := Advance();
        return Some(token);
      }
      AddError(message, Peek());
      return None;
    }

    /** `parseTerm`: a left-nested chain of `+` and `-` over factors. */
    method ParseTerm() returns (r: Option<Expr>, ghost first: Expr, ghost links: seq<Link>, ghost at: seq<nat>)
      requires Valid()
      modifies this`current, logger
      decreases |tokens| - current, 5
      ensures Valid() && old(current) <= current && old(logger.errors) <= logger.errors
      ensures r.None? ==> |logger.errors| > |old(logger.errors)|
      ensures r.Some? ==>
        && old(current) < current
        && r.value == Chain(first, links)
        && Factored(tokens, old(current), first)
        && LinksAt(tokens, links, at, old(current), current, false)
        && !IsSign(tokens[current].kind)
    {
      ghost var start := current;
      var left := ParseFactor();
      if left.None? {
        return None, Bool(false, Span(0, 0)), [], [];
      }
      first, links, at := left.value, [], [];
      var expr := left.value;
      while IsSign(Peek().kind)
        invariant Valid() && start < current && old(logger.errors) <= logger.errors
        invariant expr == Chain(first, links)
        invariant Factored(tokens, start, first)
        invariant LinksAt(tokens, links, at, start, current, false)
        decreases |tokens| - current
      {
        var op := TermOpOf(Peek().kind);
        ghost var pos := current;
        var opToken := Advance();
        var right := ParseFactor();
        if right.None? {
          return None, first, links, at;
        }
        var link := Link(op, opToken.span, right.value);
        LinksPush(tokens, links, at, start, pos, current, pos, link, false);
        ChainPush(first, links, link);
        links, at := links + [link], at + [pos];
        expr := Binary(expr, op, opToken.span, right.value);
      }
      return Some(expr), first, links, at;
    }

    /** `parseFactor`: a left-nested chain of `*` and `/` over unary
        expressions; the result is a factor. */
    method ParseFactor() returns (r: Option<Expr>)
      requires Valid()
      modifies this`current, logger
      decreases |tokens| - current, 4
      ensures Valid() && old(current) <= current && old(logger.errors) <= logger.errors
      ensures r.None? ==> |logger.errors| > |old(logger.errors)|
      ensures r.Some? ==> old(current) < current && Factored(tokens, old(current), r.value)
    {
      ghost var first, links, at;
      r, first, links, at := ParseProducts();
    }

    /** The loop of `parseFactor`. */
    method ParseProducts() returns (r: Option<Expr>, ghost first: Expr, ghost links: seq<Link>, ghost at: seq<nat>)
      requires Valid()
      modifies this`current, logger
      decreases |tokens| - current, 3
      ensures Valid() && old(current) <= current && old(logger.errors) <= logger.errors
      ensures r.None? ==> |logger.errors| > |old(logger.errors)|
      ensures r.Some? ==>
        && old(current) < current
        && r.value == Chain(first, links)
        && Prefixed(tokens, old(current), first)
        && LinksAt(tokens, links, at, old(current), current, true)
        && tokens[current].kind !in {Star, Slash}
    {
      ghost var start := current;
      var left := ParseUnary();
      if left.None? {
        return None, Bool(false, Span(0, 0)), [], [];
      }
      first, links, at := left.value, [], [];
      var expr := left.value;
      while Peek().kind in {Star, Slash}
        invariant Valid() && start < current && old(logger.errors) <= logger.errors
        invariant expr == Chain(first, links)
        invariant Prefixed(tokens, start, first)
        invariant LinksAt(tokens, links, at, start, current, true)
        decreases |tokens| - current
      {
        var op := FactorOpOf(Peek().kind);
        ghost var pos := current;
        var opToken := Advance();
        var right := ParseUnary();
        if right.None? {
          return None, first, links, at;
        }
        var link := Link(op, opToken.span, right.value);
        LinksPush(tokens, links, at, start, pos, current, pos, link, true);
        ChainPush(first, links, link);
        links, at := links + [link], at + [pos];
        expr := Binary(expr, op, opToken.span, right.value);
      }
      return Some(expr), first, links, at;
    }

    /** `parseUnary`: a sign token applies to the unary expression after
        it; anything else is a literal. */
    method ParseUnary() returns (r: Option<Expr>)
      requires Valid()
      modifies this`current, logger
      decreases |tokens| - current, 2
      ensures Valid() && old(current) <= current && old(logger.errors) <= logger.errors
      ensures r.None? ==> |logger.errors| > |old(logger.errors)|
      ensures r.Some? ==> old(current) < current && Prefixed(tokens, old(current), r.value)
    {
      if !IsSign(Peek().kind) {
        r := ParseLiteral();
        return;
      }
      var op := UnaryOpOf(Peek().kind);
      var opToken := Advance();
      var right := ParseUnary();
      if right.None? {
        return None;
      }
      return Some(Unary(op, opToken.span, right.value));
    }

    /** `parseLiteral`. Each kind of leading token has its own branch; a
        token that starts no literal is reported at that token. */
    method ParseLiteral() returns (r: Option<Expr>)
      requires Valid()
      modifies this`current, logger
      decreases |tokens| - current, 1
      ensures Valid() && old(current) <= current && old(logger.errors) <= logger.errors
      ensures r.None? ==> |logger.errors| > |old(logger.errors)|
      ensures r.Some? ==> old(current) < current
      ensures r.Some? && (r.value.Unary? || r.value.Binary?) ==> tokens[old(current)].kind == OpenParen
      ensures var t := tokens[old(current)];
        t.kind in {TokenKind.Str, Ident, TokenKind.Int, TokenKind.Float} ==>
          && current == old(current) + 1
          && logger.errors == old(logger.errors) + ScalarErrors(t, floatInRange)
          && r == Scalar(t)
      ensures var t := tokens[old(current)];
        t.kind in {Dollar, Dot} && r.Some? ==>
          && r.value.Ref?
          && r.value.modifier == (if t.kind == Dollar then RefAbsolute else RefRelative)
          && r.value.modifierSpan == t.span
      ensures var t := tokens[old(current)];
        t.kind == OpenBrack && r.Some? ==>
          && r.value.Array?
          && r.value.openSpan == t.span
          && tokens[current - 1].kind == CloseBrack
          && r.value.closeSpan == tokens[current - 1].span
      ensures var t := tokens[old(current)];
        t.kind == OpenBrace && r.Some? ==>
          && r.value.Table?
          && r.value.openSpan == t.span
          && tokens[current - 1].kind == CloseBrace
          && r.value.closeSpan == tokens[current - 1].span
      ensures var t := tokens[old(current)];
        t.kind == OpenParen && r.Some? ==> tokens[current - 1].kind == CloseParen
      ensures var t := tokens[old(current)];
        !StartsLiteral(t.kind) ==>
          && r.None?
          && current == old(current)
          && logger.errors == old(logger.errors) + [Entry(LiteralMessage, t.span)]
    {
      var kind := Peek().kind;
      if kind in {TokenKind.Str, Ident, TokenKind.Int, TokenKind.Float} {
        r := ParseScalar();
      } else if kind == OpenParen {
        r := ParseGroup();
      } else if kind in {Dollar, Dot} {
        ghost var at;
        r, at := ParseReference();
      } else if kind == OpenBrack {
        ghost var at;
        r, at := ParseInlineArray();
      } else if kind == OpenBrace {
        ghost var at;
        r, at := ParseInlineTable();
      } else {
        AddError(LiteralMessage, Peek());
        r := None;
      }
    }

    /** `parseReference`: the modifier, an optional leading identifier,
        then any number of `.ident` and `[expr]` keys. */
    method ParseReference() returns (r: Option<Expr>, ghost at: seq<nat>)
      requires Valid() && Peek().kind in {Dollar, Dot}
      modifies this`current, logger
      decreases |tokens| - current, 0
      ensures Valid() && old(current) < current && old(logger.errors) <= logger.errors
      ensures r.None? ==> |logger.errors| > |old(logger.errors)|
      ensures tokens[old(current) + 1].kind == Dot ==>
        && |logger.errors| > |old(logger.errors)|
        && logger.errors[|old(logger.errors)|] == Entry(UnnecessaryDotMessage, tokens[old(current) + 1].span)
      ensures r.Some? ==>
        && r.value.Ref?
        && r.value.modifier == (if tokens[old(current)].kind == Dollar then RefAbsolute else RefRelative)
        && r.value.modifierSpan == tokens[old(current)].span
        && KeysAt(tokens, r.value.keys, at, old(current), current)
        && (tokens[old(current) + 1].kind == Ident ==> |at| > 0 && at[0] == old(current) + 1)
        && tokens[current].kind !in {Dot, OpenBrack}
    {
      ghost var start := current;
      var modifierToken := Advance();
      var modifier := if modifierToken.kind == Dollar then RefAbsolute else RefRelative;
      var keys: seq<Expr> := [];
      at := [];
      if Peek().kind == Ident {
        ghost var pos := current;
        var token := Advance();
        keys, at := [Expr.Str(token.value, token.span)], [pos];
      }
      while Peek().kind in {Dot, OpenBrack}
        invariant Valid() && start < current && old(logger.errors) <= logger.errors
        invariant KeysAt(tokens, keys, at, start, current)
        invariant tokens[start + 1].kind == Ident ==> |at| > 0 && at[0] == start + 1
        invariant keys == [] ==> current == start + 1 && logger.errors == old(logger.errors)
        invariant tokens[start + 1].kind == Dot && keys != [] ==>
          && |logger.errors| > |old(logger.errors)|
          && logger.errors[|old(logger.errors)|] == Entry(UnnecessaryDotMessage, tokens[start + 1].span)
        decreases |tokens| - current
      {
        var key, pos := ParseKey(keys == []);
        if key.None? {
          return None, at;
        }
        KeysPush(tokens, keys, at, start, pos, current, pos, key.value);
        keys, at := keys + [key.value], at + [pos];
      }
      return Some(Ref(modifier, modifierToken.span, keys)), at;
    }

    /** One iteration of the key loop of `parseReference`: `.ident`, where a
        dot before any key is reported and skipped, or `[expr]`. */
    method ParseKey(noKeys: bool) returns (key: Option<Expr>, ghost pos: nat)
      requires Valid() && Peek().kind in {Dot, OpenBrack}
      modifies this`current, logger
      decreases |tokens| - current, 0
      ensures Valid() && old(current) < current && old(logger.errors) <= logger.errors
      ensures key.None? ==> |logger.errors| > |old(logger.errors)|
      ensures noKeys && tokens[old(current)].kind == Dot ==>
        && |logger.errors| > |old(logger.errors)|
        && logger.errors[|old(logger.errors)|] == Entry(UnnecessaryDotMessage, tokens[old(current)].span)
      ensures key.Some? ==>
        && old(current) <= pos < current
        && (tokens[pos].kind == Ident ==> key.value == Expr.Str(tokens[pos].value, tokens[pos].span) && tokens[pos - 1].kind == Dot)
        && (tokens[pos].kind != Ident ==> tokens[pos].kind == OpenBrack)
    {
      if Peek().kind == Dot {
        if noKeys {
          AddError(UnnecessaryDotMessage, Peek());
        }
        var _ := Advance();
        pos := current;
        var token := Consume(Ident, IdentifierKeyMessage);
        if token.None? {
          return None, pos;
        }
        return Some(Expr.Str(token.value.value, token.value.span)), pos;
      }
      pos := current;
      var _ := Advance();
      key := ParseInline();
      if key.None? {
        return None, pos;
      }
      var close := Consume(CloseBrack, CloseKeyMessage);
      if close.None? {
        return None, pos;
      }
    }

    /** The separator after an item of an inline array or table: unless
        the closing token `close` comes next, a comma must. */
    method Separator(close: TokenKind) returns (ok: bool)
      requires Valid() && close != Comma
      modifies this`current, logger
      ensures Valid() && old(current) <= current && old(logger.errors) <= logger.errors
      ensures old(Peek()).kind == close ==> ok && current == old(current) && logger.errors == old(logger.errors)
      ensures old(Peek()).kind == Comma ==> ok && current == old(current) + 1 && logger.errors == old(logger.errors)
      ensures old(Peek()).kind !in {close, Comma} ==>
        && !ok
        && current == old(current)
        && logger.errors == old(logger.errors) + [Entry(CommaMessage, old(Peek()).span)]
      ensures ok ==> Peek().kind == close || tokens[current - 1].kind == Comma
    {
      ok := true;
      if Peek().kind != close {
        var comma := Consume(Comma, CommaMessage);
        ok := comma.Some?;
      }
    }

    /** `parseInlineArray`: items separated by commas up to `]`. The loop
        only ends on `]`, so the final `consume` always succeeds. */
    method ParseInlineArray() returns (r: Option<Expr>, ghost at: seq<nat>)
      requires Valid() && Peek().kind == OpenBrack
      modifies this`current, logger
      decreases |tokens| - current, 0
      ensures Valid() && old(current) < current && old(logger.errors) <= logger.errors
      ensures r.None? ==> |logger.errors| > |old(logger.errors)|
      ensures r.Some? ==>
        && r.value.Array?
        && r.value.openSpan == tokens[old(current)].span
        && tokens[current - 1].kind == CloseBrack
        && r.value.closeSpan == tokens[current - 1].span
        && ItemsAt(tokens, |r.value.items|, at, old(current), current - 1)
    {
      ghost var start := current;
      var open := Advance();
      var items: seq<Expr> := [];
      at := [];
      while Peek().kind != CloseBrack
        invariant Valid() && start < current && old(logger.errors) <= logger.errors
        invariant ItemsAt(tokens, |items|, at, start, current)
        invariant items == [] ==> current == start + 1
        invariant items != [] && Peek().kind != CloseBrack ==> tokens[current - 1].kind == Comma
        decreases |tokens| - current
      {
        ghost var pos := current;
        var item := ParseInline();
        if item.None? {
          return None, at;
        }
        ItemsPush(tokens, |items|, at, start, pos, current, pos);
        items, at := items + [item.value], at + [pos];
        var separated := Separator(CloseBrack);
        if !separated {
          return None, at;
        }
      }
      var close := Consume(CloseBrack, CloseArrayMessage);
      return Some(Array(open.span, items, close.value.span)), at;
    }

    /** `parseInlineTable`: table items separated by commas up to `}`. As
        for arrays, the final `consume` always succeeds. */
    method ParseInlineTable() returns (r: Option<Expr>, ghost at: seq<nat>)
      requires Valid() && Peek().kind == OpenBrace
      modifies this`current, logger
      decreases |tokens| - current, 0
      ensures Valid() && old(current) < current && old(logger.errors) <= logger.errors
      ensures r.None? ==> |logger.errors| > |old(logger.errors)|
      ensures r.Some? ==>
        && r.value.Table?
        && r.value.openSpan == tokens[old(current)].span
        && tokens[current - 1].kind == CloseBrace
        && r.value.closeSpan == tokens[current - 1].span
        && TableItemsAt(tokens, r.value.tableItems, at, old(current), current - 1)
    {
      ghost var start := current;
      var open := Advance();
      var items: seq<TableItem> := [];
      at := [];
      while Peek().kind != CloseBrace
        invariant Valid() && start < current && old(logger.errors) <= logger.errors
        invariant TableItemsAt(tokens, items, at, start, current)
        invariant items == [] ==> current == start + 1
        invariant items != [] && Peek().kind != CloseBrace ==> tokens[current - 1].kind == Comma
        decreases |tokens| - current
      {
        ghost var pos := current;
        var item := ParseTableEntry();
        if item.None? {
          return None, at;
        }
        TableItemsPush(tokens, items, at, start, pos, current, pos, item.value);
        items, at := items + [item.value], at + [pos];
      }
      var close := Consume(CloseBrace, CloseTableMessage);
      return Some(Table(open.span, items, close.value.span)), at;
    }

    /** One turn of `parseInlineTable`'s loop: a table item, then the
        separator that must follow it unless `}` does. */
    method ParseTableEntry() returns (item: Option<TableItem>)
      requires Valid()
      modifies this`current, logger
      decreases |tokens| - current, 2
      ensures Valid() && old(current) <= current && old(logger.errors) <= logger.errors
      ensures item.None? ==> |logger.errors| > |old(logger.errors)|
      ensures item.Some? ==>
        && old(current) < current
        && KeyFrom(tokens, old(current), item.value.key)
        && (Peek().kind != CloseBrace ==> tokens[current - 1].kind == Comma)
    {
      var r, _, _ := ParseTableItem();
      if r.None? {
        return None;
      }
      var separated := Separator(CloseBrace);
      if !separated {
        return None;
      }
      return r;
    }

    /** `parseTableItem`: a key, an optional `< parent`, a colon and a
        value. A token that starts no key is reported at that token. */
    method ParseTableItem() returns (r: Option<TableItem>, ghost keyEnd: nat, ghost colon: nat)
      requires Valid()
      modifies this`current, logger
      decreases |tokens| - current, 1
      ensures Valid() && old(current) <= current && old(logger.errors) <= logger.errors
      ensures r.None? ==> |logger.errors| > |old(logger.errors)|
      ensures tokens[old(current)].kind !in {TokenKind.Str, Ident, OpenBrack} ==>
        && r.None?
        && current == old(current)
        && logger.errors == old(logger.errors) + [Entry(KeyMessage, tokens[old(current)].span)]
      ensures r.Some? ==>
        && KeyFrom(tokens, old(current), r.value.key)
        && old(current) < keyEnd <= colon < current
        && (tokens[old(current)].kind in {TokenKind.Str, Ident} ==> keyEnd == old(current) + 1)
        && (tokens[old(current)].kind == OpenBrack ==> tokens[keyEnd - 1].kind == CloseBrack)
        && tokens[colon].kind == Colon
        && (r.value.inherits.Some? <==> tokens[keyEnd].kind == Less)
        && (r.value.inherits.None? ==> colon == keyEnd)
    {
      keyEnd, colon := current, current;
      var key := ParseItemKey();
      if key.None? {
        return None, keyEnd, colon;
      }
      keyEnd := current;
      var parent: Option<Expr> := None;
      if Peek().kind == Less {
        var _ := Advance();
        parent := ParseInline();
        if parent.None? {
          return None, keyEnd, colon;
        }
      }
      colon := current;
      var separator := Consume(Colon, ColonMessage);
      if separator.None? {
        return None, keyEnd, colon;
      }
      var value := ParseInline();
      if value.None? {
        return None, keyEnd, colon;
      }
      return Some(TableItem(key.value, parent, value.value)), keyEnd, colon;
    }

    /** The key of a table item: a string or identifier token, or an
        expression in brackets. */
    method ParseItemKey() returns (key: Option<Expr>)
      requires Valid()
      modifies this`current, logger
      decreases |tokens| - current, 0
      ensures Valid() && old(current) <= current && old(logger.errors) <= logger.errors
      ensures key.None? ==> |logger.errors| > |old(logger.errors)|
      ensures tokens[old(current)].kind !in {TokenKind.Str, Ident, OpenBrack} ==>
        && key.None?
        && current == old(current)
        && logger.errors == old(logger.errors) + [Entry(KeyMessage, tokens[old(current)].span)]
      ensures key.Some? ==>
        && old(current) < current
        && KeyFrom(tokens, old(current), key.value)
        && (tokens[old(current)].kind in {TokenKind.Str, Ident} ==> current == old(current) + 1)
        && (tokens[old(current)].kind == OpenBrack ==> tokens[current - 1].kind == CloseBrack)
    {
      var kind := Peek().kind;
      if kind in {TokenKind.Str, Ident} {
        var token := Advance();
        return Some(Expr.Str(token.value, token.span));
      } else if kind == OpenBrack {
        var _ := Advance();
        key := ParseInline();
        if key.None? {
          return None;
        }
        var close := Consume(CloseBrack, CloseKeyMessage);
        if close.None? {
          return None;
        }
      } else {
        AddError(KeyMessage, Peek());
        return None;
      }
    }

    /** `parseInline`: an inline expression is a term. */
    method ParseInline() returns (r: Option<Expr>)
      requires Valid()
      modifies this`current, logger
      decreases |tokens| - current, 6
      ensures Valid() && old(current) <= current && old(logger.errors) <= logger.errors
      ensures r.None? ==> |logger.errors| > |old(logger.errors)|
      ensures r.Some? ==> old(current) < current
    {
      ghost var first, links, at;
      r, first, links, at := ParseTerm();
    }

    /** `Parse`: one inline expression, then "Unexpected token." at the
        first token left over, if any. The expression is returned even
        then. */
    method Parse() returns (r: Option<Expr>, ghost inner: seq<Entry>)
      requires Valid()
      modifies this`current, logger
      ensures Valid() && old(current) <= current
      ensures logger.errors
           == old(logger.errors) + inner + (if IsEOF() then [] else [Entry(UnexpectedTokenMessage, Peek().span)])
      ensures r.None? ==> |inner| > 0
    {
      ghost var before := logger.errors;
      r := ParseInline();
      inner := logger.errors[|before|..];
      assert logger.errors == before + inner;
      if !IsEOF() {
        AddError(UnexpectedTokenMessage, Peek());
      }
    }

    /** A string, keyword, integer or float token. */
    method ParseScalar() returns (r: Option<Expr>)
      requires Valid() && Peek().kind in {TokenKind.Str, Ident, TokenKind.Int, TokenKind.Float}
      modifies this`current, logger
      ensures Valid() && current == old(current) + 1
      ensures logger.errors == old(logger.errors) + ScalarErrors(tokens[old(current)], floatInRange)
      ensures r == Scalar(tokens[old(current)])
    {
      var token := Advance();
      match token.kind {
        case Str =>
          r := Some(Expr.Str(token.value, token.span));
        case Ident =>
          if token.value == "true" {
            r := Some(Bool(true, token.span));
          } else if token.value == "false" {
            r := Some(Bool(false, token.span));
          } else {
            AddError(UnexpectedIdentifierMessage, token);
            r := None;
          }
        case Int =>
          var value := ParseInt64(token.value);
          if value.err.Some? {
            AddError(IntegerRangeMessage, token);
          }
          r := Some(Expr.Int(value.value, token.span));
        case Float =>
          if !floatInRange(token.value) {
            AddError(FloatRangeMessage, token);
          }
          r := Some(Expr.Float(token.value, token.span));
      }
    }

    /** A parenthesised expression: the inner expression itself, with no
        node of its own. */
    method ParseGroup() returns (r: Option<Expr>)
      requires Valid() && Peek().kind == OpenParen
      modifies this`current, logger
      decreases |tokens| - current, 0
      ensures Valid() && old(current) <= current && old(logger.errors) <= logger.errors
      ensures r.None? ==> |logger.errors| > |old(logger.errors)|
      ensures r.Some? ==> old(current) + 2 < current && tokens[current - 1].kind == CloseParen
    {
      var _ := Advance();
      var inner := ParseInline();
      if inner.None? {
        return None;
      }
      var close := Consume(CloseParen, CloseParenMessage);
      if close.None? {
        return None;
      }
      return inner;
    }
  }

  /** The kinds `parseLiteral` has a case for: the scalars, a group, a
      reference, an inline array and an inline table. No layout token,
      closing bracket, separator or arithmetic operator starts one. */
  predicate StartsLiteral(k: TokenKind)
    ensures StartsLiteral(k) ==>
      k !in {EOF, Colon, Comma, Dash, Plus, Minus, Star, Slash, Less, CloseParen, CloseBrack, CloseBrace, Newline, OpenBlock, CloseBlock}
  {
    k in {TokenKind.Str, Ident, TokenKind.Int, TokenKind.Float, OpenParen, Dollar, Dot, OpenBrack, OpenBrace}
  }

  /** The node a string, identifier, integer or float token becomes: only
      the identifiers `true` and `false` are literals; integers and floats
      always give a node, an integer with the value `strconv.ParseInt`
      returns even when it fails. */
  function Scalar(t: Token): (r: Option<Expr>)
    requires t.kind in {TokenKind.Str, Ident, TokenKind.Int, TokenKind.Float}
    ensures r.None? <==> t.kind == Ident && t.value != "true" && t.value != "false"
    ensures r.Some? ==> r.value.Span() == t.span && r.value.Recorded() == [t.span]
    ensures r.Some? && r.value.Bool? <==> t.kind == Ident && (t.value == "true" || t.value == "false")
    ensures r.Some? && r.value.Bool? ==> (r.value.boolValue <==> t.value == "true")
    ensures t.kind == TokenKind.Int ==> r.Some? && r.value.Int? && -(Cutoff as int) <= r.value.intValue <= MaxInt64
  {
    match t.kind
    case Str => Some(Expr.Str(t.value, t.span))
    case Ident =>
      if t.value == "true" then Some(Bool(true, t.span))
      else if t.value == "false" then Some(Bool(false, t.span))
      else None
    case Int => Some(Expr.Int(ParseInt64(t.value).value, t.span))
    case Float => Some(Expr.Float(t.value, t.span))
  }

  /** The errors such a token logs, all at the token itself: an identifier
      that is not a keyword, an integer `strconv.ParseInt` rejects, a float
      `strconv.ParseFloat` rejects. */
  function ScalarErrors(t: Token, floatInRange: string -> bool): (r: seq<Entry>)
    requires t.kind in {TokenKind.Str, Ident, TokenKind.Int, TokenKind.Float}
    ensures |r| <= 1 && forall i :: 0 <= i < |r| ==> r[i].span == t.span
    ensures Scalar(t).None? ==> r == [Entry(UnexpectedIdentifierMessage, t.span)]
    ensures t.kind == TokenKind.Int ==> (|r| == 1 <==> ParseInt64(t.value).err.Some?)
    ensures t.kind == TokenKind.Float ==> (|r| == 1 <==> !floatInRange(t.value))
  {
    match t.kind
    case Str => []
    case Ident =>
      if t.value == "true" || t.value == "false" then [] else [Entry(UnexpectedIdentifierMessage, t.span)]
    case Int => if ParseInt64(t.value).err.Some? then [Entry(IntegerRangeMessage, t.span)] else []
    case Float => if floatInRange(t.value) then [] else [Entry(FloatRangeMessage, t.span)]
  }

  /** An integer token as the scanner lexes it, a run of digits, becomes
      its value, or 2^63 - 1 with "Integer out of range." when the value
      does not fit in 64 bits. */
  lemma ScalarDigits(t: Token, floatInRange: string -> bool)
    requires t.kind == TokenKind.Int && IsDigits(t.value)
    ensures Scalar(t) == Some(Expr.Int(if Value(t.value) <= MaxInt64 then Value(t.value) else MaxInt64, t.span))
    ensures ScalarErrors(t, floatInRange)
         == if Value(t.value) <= MaxInt64 then [] else [Entry(IntegerRangeMessage, t.span)]
  {
    ParseIntDigits(t.value);
  }

  /** The token `parseLiteral` as written reports "Expect literal." at,
      when the token at `c` starts no literal: `previous()`, the token
      before it. At the first token there is none; Go indexes `tokens[-1]`
      and panics, which is `None` here. `Parser.ParseLiteral` reports at
      the offending token itself. */
  function LiteralErrorAsWritten(ts: seq<Token>, c: nat): (r: Option<Token>)
    requires c < |ts|
    ensures r.Some? ==> r.value in ts[..c]
  {
    if c == 0 then None else Some(ts[c - 1])
  }

  /** The empty input scans to a lone end-of-file token, which starts no
      literal: `parseLiteral` as written has no token to report at. */
  lemma EmptyInputPanics()
    ensures var ts := [Token(EOF, "", Span(0, 0), 1)];
      !StartsLiteral(ts[0].kind) && LiteralErrorAsWritten(ts, 0).None?
  {
  }

  /** In `1 + )`, the `)` starts no literal and the error is reported at
      the `+` before it. */
  lemma MisplacedLiteralError()
    ensures var ts := [Token(TokenKind.Int, "1", Span(0, 1), 1), Token(Plus, "", Span(2, 3), 1),
                       Token(CloseParen, "", Span(4, 5), 1), Token(EOF, "", Span(4, 5), 1)];
      && !StartsLiteral(ts[2].kind)
      && LiteralErrorAsWritten(ts, 2) == Some(ts[1])
      && ts[1].span != ts[2].span
  {
  }
}
