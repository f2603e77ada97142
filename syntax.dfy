/** The syntax tree the parser builds and the evaluator consumes
    (internal/parser/expr.go). */
module Syntax {
  import opened Wrappers
  import opened Logger
  import Log = Logger

  datatype RefModifier = RefAbsolute | RefRelative

  datatype UnaryOp = UnaryPlus | UnaryMinus

  datatype BinaryOp = BinaryPlus | BinaryMinus | BinaryStar | BinarySlash

  /** One node of the tree. A float literal keeps its decimal text: the
      conversion to an IEEE double is not modelled. */
  datatype Expr =
    | Str(strValue: string, valueSpan: Span)
    | Bool(boolValue: bool, valueSpan: Span)
    | Int(intValue: int, valueSpan: Span)
    | Float(floatText: string, valueSpan: Span)
    | Ref(modifier: RefModifier, modifierSpan: Span, keys: seq<Expr>)
    | Unary(unaryOp: UnaryOp, opSpan: Span, right: Expr)
    | Binary(left: Expr, binaryOp: BinaryOp, opSpan: Span, right: Expr)
    | Array(openSpan: Span, items: seq<Expr>, closeSpan: Span)
    | Table(openSpan: Span, tableItems: seq<TableItem>, closeSpan: Span)
  {
    /** The spans this node records, in the order they occur in the source:
        a literal's own token, a reference's modifier and then its keys, an
        operator between or before its operands, a container's delimiters
        around its items. */
    function Recorded(): (r: seq<Span>)
      ensures |r| > 0
    {
      match this
      case Str(_, s) => [s]
      case Bool(_, s) => [s]
      case Int(_, s) => [s]
      case Float(_, s) => [s]
      case Ref(_, m, keys) => [m] + RecordedAll(keys)
      case Unary(_, o, right) => [o] + right.Recorded()
      case Binary(left, _, o, right) => left.Recorded() + [o] + right.Recorded()
      case Array(open, items, close) => [open] + RecordedAll(items) + [close]
      case Table(open, items, close) => [open] + RecordedItems(items) + [close]
    }

    /** `Span()`: the extent of the node. It runs from the start of the
        first span the node records to the end of the last one. */
    function Span(): (r: Span)
      ensures r.start == Recorded()[0].start
      ensures r.end == Recorded()[|Recorded()| - 1].end
    {
      match this
      case Str(_, s) => s
      case Bool(_, s) => s
      case Int(_, s) => s
      case Float(_, s) => s
      case Ref(_, m, keys) =>
        if |keys| > 0 then Log.Span(m.start, keys[|keys| - 1].Span().end) else m
      case Unary(_, o, right) => Log.Span(o.start, right.Span().end)
      case Binary(left, _, _, right) => Log.Span(left.Span().start, right.Span().end)
      case Array(open, _, close) => Log.Span(open.start, close.end)
      case Table(open, _, close) => Log.Span(open.start, close.end)
    }
  }

  /** `TableItem`: a key, an optional `< parent` expression and a value. */
  datatype TableItem = TableItem(key: Expr, inherits: Option<Expr>, value: Expr)

  function RecordedAll(es: seq<Expr>): seq<Span> {
    if es == [] then [] else RecordedAll(es[..|es| - 1]) + es[|es| - 1].Recorded()
  }

  function RecordedItem(item: TableItem): seq<Span> {
    item.key.Recorded()
      + (match item.inherits case Some(p) => p.Recorded() case None => [])
      + item.value.Recorded()
  }

  function RecordedItems(items: seq<TableItem>): seq<Span> {
    if items == [] then [] else RecordedItems(items[..|items| - 1]) + RecordedItem(items[|items| - 1])
  }

  /** The direct sub-expressions of a node other than a table, in source
      order: a reference's keys, an operator's operands, an array's items. */
  function Operands(e: Expr): seq<Expr> {
    match e
    case Ref(_, _, keys) => keys
    case Unary(_, _, right) => [right]
    case Binary(left, _, _, right) => [left, right]
    case Array(_, items, _) => items
    case _ => []
  }

  /** Spans that occur in source order: each is a well-formed range and ends
      no later than the next one starts. The scanner produces tokens this way. */
  ghost predicate InOrder(spans: seq<Span>) {
    && (forall i :: 0 <= i < |spans| ==> spans[i].start <= spans[i].end)
    && (forall i :: 0 < i < |spans| ==> spans[i - 1].end <= spans[i].start)
  }

  lemma {:induction false} InOrderMonotone(spans: seq<Span>, i: nat, j: nat)
    requires InOrder(spans) && i <= j < |spans|
    ensures spans[i].start <= spans[j].start && spans[i].end <= spans[j].end
    ensures spans[i].start <= spans[j].end
    decreases j - i
  {
    if i < j {
      InOrderMonotone(spans, i, j - 1);
    }
  }

  /** A run of spans inside spans in source order is in source order and
      lies between the first start and the last end. */
  lemma InOrderRun(a: seq<Span>, b: seq<Span>, c: seq<Span>)
    requires InOrder(a + b + c) && |b| > 0
    ensures InOrder(b)
    ensures (a + b + c)[0].start <= b[0].start
    ensures b[|b| - 1].end <= (a + b + c)[|a + b + c| - 1].end
    ensures b[0].start <= b[|b| - 1].end
  {
    var s := a + b + c;
    assert forall i :: 0 <= i < |b| ==> b[i] == s[|a| + i];
    InOrderMonotone(s, 0, |a|);
    InOrderMonotone(s, |a| + |b| - 1, |s| - 1);
    InOrderMonotone(b, 0, |b| - 1);
  }

  lemma {:induction false} RecordedAllAppend(xs: seq<Expr>, ys: seq<Expr>)
    ensures RecordedAll(xs + ys) == RecordedAll(xs) + RecordedAll(ys)
    decreases |ys|
  {
    if ys == [] {
      assert xs + ys == xs;
    } else {
      var n := |ys| - 1;
      var zs := xs + ys;
      assert zs[..|zs| - 1] == xs + ys[..n];
      assert zs[|zs| - 1] == ys[n];
      RecordedAllAppend(xs, ys[..n]);
      assert RecordedAll(zs) == RecordedAll(xs + ys[..n]) + ys[n].Recorded();
      assert RecordedAll(ys) == RecordedAll(ys[..n]) + ys[n].Recorded();
    }
  }

  lemma {:induction false} RecordedItemsAppend(xs: seq<TableItem>, ys: seq<TableItem>)
    ensures RecordedItems(xs + ys) == RecordedItems(xs) + RecordedItems(ys)
    decreases |ys|
  {
    if ys == [] {
      assert xs + ys == xs;
    } else {
      var n := |ys| - 1;
      var zs := xs + ys;
      assert zs[..|zs| - 1] == xs + ys[..n];
      assert zs[|zs| - 1] == ys[n];
      RecordedItemsAppend(xs, ys[..n]);
      assert RecordedItems(zs) == RecordedItems(xs + ys[..n]) + RecordedItem(ys[n]);
      assert RecordedItems(ys) == RecordedItems(ys[..n]) + RecordedItem(ys[n]);
    }
  }

  /** Each of a sequence's expressions records a contiguous run of the
      sequence's spans. */
  lemma RecordedAllRun(es: seq<Expr>, i: nat)
    requires i < |es|
    ensures RecordedAll(es) == RecordedAll(es[..i]) + es[i].Recorded() + RecordedAll(es[i + 1..])
  {
    var front := es[..i + 1];
    assert es == front + es[i + 1..];
    RecordedAllAppend(front, es[i + 1..]);
    assert front[..|front| - 1] == es[..i] && front[|front| - 1] == es[i];
    assert RecordedAll(front) == RecordedAll(es[..i]) + es[i].Recorded();
  }

  lemma RecordedItemsRun(items: seq<TableItem>, i: nat)
    requires i < |items|
    ensures RecordedItems(items) == RecordedItems(items[..i]) + RecordedItem(items[i]) + RecordedItems(items[i + 1..])
  {
    var front := items[..i + 1];
    assert items == front + items[i + 1..];
    RecordedItemsAppend(front, items[i + 1..]);
    assert front[..|front| - 1] == items[..i] && front[|front| - 1] == items[i];
    assert RecordedItems(front) == RecordedItems(items[..i]) + RecordedItem(items[i]);
  }

  /** The same run, with spans recorded before and after the sequence. */
  lemma RunOfAll(es: seq<Expr>, i: nat, a: seq<Span>, b: seq<Span>)
    requires i < |es|
    ensures a + RecordedAll(es) + b
      == (a + RecordedAll(es[..i])) + es[i].Recorded() + (RecordedAll(es[i + 1..]) + b)
  {
    RecordedAllRun(es, i);
    Regroup(a, RecordedAll(es[..i]), es[i].Recorded(), RecordedAll(es[i + 1..]), b);
  }

  /** Moving the outer parts of a five-part concatenation inward. */
  lemma Regroup<T>(a: seq<T>, x: seq<T>, y: seq<T>, z: seq<T>, b: seq<T>)
    ensures a + (x + y + z) + b == (a + x) + y + (z + b)
  {
  }

  /** An expression whose spans form a run inside a node's spans lies within
      the node's span. */
  lemma SpanCoversRun(e: Expr, c: Expr, a: seq<Span>, b: seq<Span>)
    requires InOrder(e.Recorded()) && e.Recorded() == a + c.Recorded() + b
    ensures InOrder(c.Recorded())
    ensures e.Span().start <= c.Span().start <= c.Span().end <= e.Span().end
  {
    InOrderRun(a, c.Recorded(), b);
  }

  /** A node whose recorded spans are in source order has a well-formed span
      that covers the span of each operand, and the operand's own spans are
      in source order. */
  lemma SpanCoversOperand(e: Expr, i: nat)
    requires InOrder(e.Recorded()) && i < |Operands(e)|
    ensures InOrder(Operands(e)[i].Recorded())
    ensures e.Span().start <= Operands(e)[i].Span().start
    ensures Operands(e)[i].Span().start <= Operands(e)[i].Span().end
    ensures Operands(e)[i].Span().end <= e.Span().end
  {
    var c := Operands(e)[i];
    match e
    case Ref(_, m, keys) =>
      RunOfAll(keys, i, [m], []);
      assert e.Recorded() == [m] + RecordedAll(keys) + [];
      SpanCoversRun(e, c, [m] + RecordedAll(keys[..i]), RecordedAll(keys[i + 1..]) + []);
    case Unary(_, o, right) =>
      assert e.Recorded() == [o] + c.Recorded() + [];
      SpanCoversRun(e, c, [o], []);
    case Binary(left, _, o, right) =>
      if i == 0 {
        assert e.Recorded() == [] + c.Recorded() + ([o] + right.Recorded());
        SpanCoversRun(e, c, [], [o] + right.Recorded());
      } else {
        assert e.Recorded() == left.Recorded() + [o] + c.Recorded() + [];
        SpanCoversRun(e, c, left.Recorded() + [o], []);
      }
    case Array(open, items, close) =>
      RunOfAll(items, i, [open], [close]);
      SpanCoversRun(e, c, [open] + RecordedAll(items[..i]), RecordedAll(items[i + 1..]) + [close]);
  }

  /** Two adjacent runs of spans in source order: each is in source order
      and the first ends before the second starts. */
  lemma InOrderSplit(x: seq<Span>, y: seq<Span>)
    requires InOrder(x + y) && |x| > 0 && |y| > 0
    ensures InOrder(x) && InOrder(y)
    ensures x[0].start <= x[|x| - 1].end <= y[0].start <= y[|y| - 1].end
  {
    assert x + y == [] + x + y;
    InOrderRun([], x, y);
    InOrderRun(x, y, []);
    assert (x + y)[|x| - 1] == x[|x| - 1];
    assert (x + y)[|x|] == y[0];
  }

  /** The spans of a table item in source order put its key before its
      parent and its parent before its value. */
  lemma ItemInOrder(item: TableItem)
    requires InOrder(RecordedItem(item))
    ensures item.key.Span().start <= item.key.Span().end <= item.value.Span().start <= item.value.Span().end
    ensures item.inherits.Some? ==>
      item.key.Span().end <= item.inherits.value.Span().start <= item.inherits.value.Span().end
      <= item.value.Span().start
  {
    var k := item.key.Recorded();
    var v := item.value.Recorded();
    match item.inherits
    case None =>
      assert RecordedItem(item) == k + v;
      InOrderSplit(k, v);
    case Some(parent) =>
      var p := parent.Recorded();
      assert RecordedItem(item) == k + (p + v);
      InOrderSplit(k, p + v);
      InOrderSplit(p, v);
      assert (p + v)[0] == p[0];
  }

  /** The same for a table: the key, the parent and the value of each item
      lie within the table's span, in that order. */
  lemma SpanCoversItem(e: Expr, i: nat)
    requires e.Table? && InOrder(e.Recorded()) && i < |e.tableItems|
    ensures var item := e.tableItems[i];
      && e.Span().start <= item.key.Span().start <= item.key.Span().end
      && item.key.Span().end <= item.value.Span().start <= item.value.Span().end <= e.Span().end
      && (item.inherits.Some? ==>
            item.key.Span().end <= item.inherits.value.Span().start <= item.inherits.value.Span().end
            <= item.value.Span().start)
  {
    var item := e.tableItems[i];
    var run := RecordedItem(item);
    RecordedItemsRun(e.tableItems, i);
    var before := [e.openSpan] + RecordedItems(e.tableItems[..i]);
    var after := RecordedItems(e.tableItems[i + 1..]) + [e.closeSpan];
    Regroup([e.openSpan], RecordedItems(e.tableItems[..i]), run, RecordedItems(e.tableItems[i + 1..]), [e.closeSpan]);
    assert e.Recorded() == before + run + after;
    InOrderRun(before, run, after);
    ItemInOrder(item);
    assert run[0] == item.key.Recorded()[0];
    assert run[|run| - 1] == item.value.Recorded()[|item.value.Recorded()| - 1];
  }
}
