/** The syntax tree as the evaluator holds it. The Go evaluator keys its
    state by node address (internal/evaluator/evaluator.go:46-50); here each
    node has an id, its index in an arena, and refers to its children by
    id, so that two records about the same node agree on which node it is. */
module Document {
  import opened Wrappers
  import opened Logger
  import opened Syntax

  type NodeId = nat

  /** A `parser.Expr` that may be nil. */
  type Ptr = Option<NodeId>

  /** `TableItem` with child ids: a key node, an optional parent, a value. */
  datatype Item = Item(key: NodeId, parent: Ptr, value: NodeId)

  /** The variants of `parser.Expr`, children by id. */
  datatype Form =
    | NStr(strValue: string)
    | NBool(boolValue: bool)
    | NInt(intValue: int)
    | NFloat(floatText: string)
    | NRef(modifier: RefModifier, keys: seq<NodeId>)
    | NUnary(unaryOp: UnaryOp, right: NodeId)
    | NBinary(left: NodeId, binaryOp: BinaryOp, right: NodeId)
    | NArray(items: seq<NodeId>)
    | NTable(tableItems: seq<Item>)

  /** A node together with the extent `Span()` gives it. */
  datatype Node = Node(form: Form, span: Span)

  /** The forms `unwrap` stops at (internal/evaluator/evaluator.go:480-488). */
  predicate IsConcrete(f: Form) {
    !(f.NRef? || f.NUnary? || f.NBinary?)
  }

  predicate IsOperator(f: Form) {
    f.NUnary? || f.NBinary?
  }

  predicate ItemIn(item: Item, s: set<NodeId>) {
    item.key in s && item.value in s && (item.parent.Some? ==> item.parent.value in s)
  }

  /** A prefix of items whose nodes are in `b0` stays so in a larger `b1`,
      and grows by one item whose nodes are in `b1`. */
  lemma ItemsPrefixGrow(items: seq<Item>, n: nat, b0: set<NodeId>, b1: set<NodeId>)
    requires n < |items| && b0 <= b1 && ItemIn(items[n], b1)
    requires forall j :: 0 <= j < n ==> ItemIn(items[j], b0)
    ensures forall j :: 0 <= j < n + 1 ==> ItemIn(items[j], b1)
  {
  }

  /** The same for a prefix of child nodes. */
  lemma NodesPrefixGrow(nodes: seq<NodeId>, n: nat, b0: set<NodeId>, b1: set<NodeId>)
    requires n < |nodes| && b0 <= b1 && nodes[n] in b1
    requires forall j :: 0 <= j < n ==> nodes[j] in b0
    ensures forall j :: 0 <= j < n + 1 ==> nodes[j] in b1
  {
  }

  /** Every child of a node with form `f` is in `s`. */
  predicate ChildrenIn(f: Form, s: set<NodeId>) {
    match f
    case NRef(_, keys) => forall i :: 0 <= i < |keys| ==> keys[i] in s
    case NUnary(_, right) => right in s
    case NBinary(left, _, right) => left in s && right in s
    case NArray(items) => forall i :: 0 <= i < |items| ==> items[i] in s
    case NTable(items) => forall i :: 0 <= i < |items| ==> ItemIn(items[i], s)
    case _ => true
  }

  /** The ids below `n`. */
  ghost function Below(n: nat): (r: set<NodeId>)
    ensures forall i: nat :: i in r <==> i < n
  {
    if n == 0 then {} else Below(n - 1) + {n - 1}
  }

  /** A tree laid out children first: every child id is smaller than its
      parent's. */
  ghost predicate WellFormed(doc: seq<Node>) {
    forall id :: 0 <= id < |doc| ==> ChildrenIn(doc[id].form, Below(id))
  }

  /** A set of nodes that contains the children of each of its nodes. */
  ghost predicate Closed(doc: seq<Node>, s: set<NodeId>) {
    forall n :: n in s ==> n < |doc| && ChildrenIn(doc[n].form, s)
  }

  lemma ChildrenInGrow(f: Form, s: set<NodeId>, s': set<NodeId>)
    requires ChildrenIn(f, s) && s <= s'
    ensures ChildrenIn(f, s')
  {
  }

  /** A node whose children are in a closed set may join it. */
  lemma ClosedAdd(doc: seq<Node>, s: set<NodeId>, id: NodeId)
    requires Closed(doc, s) && id < |doc| && ChildrenIn(doc[id].form, s)
    ensures Closed(doc, s + {id})
  {
    forall n | n in s + {id}
      ensures ChildrenIn(doc[n].form, s + {id})
    {
      ChildrenInGrow(doc[n].form, s, s + {id});
    }
  }

  predicate ValueAt(doc: seq<Node>, n: NodeId) {
    n < |doc| && !IsOperator(doc[n].form)
  }

  predicate ItemEvaluable(doc: seq<Node>, item: Item) {
    && item.key < |doc| && doc[item.key].form.NStr?
    && ValueAt(doc, item.value)
    && (item.parent.Some? ==> ValueAt(doc, item.parent.value))
  }

  /** What evaluation needs of one node so as not to panic: an integer is
      not negative (an index `array[i]` with `i < 0` panics), an array item,
      a table value or a parent is not an operator (`evaluate` panics on
      those, internal/evaluator/evaluator.go:155-159), and a table key is a
      string literal (`item.Key.Value`, internal/evaluator/evaluator.go:371). */
  predicate NodeEvaluable(doc: seq<Node>, f: Form) {
    match f
    case NInt(v) => v >= 0
    case NArray(items) => forall i :: 0 <= i < |items| ==> ValueAt(doc, items[i])
    case NTable(items) => forall i :: 0 <= i < |items| ==> ItemEvaluable(doc, items[i])
    case _ => true
  }

  ghost predicate Evaluable(doc: seq<Node>, root: NodeId) {
    && ValueAt(doc, root)
    && forall n :: 0 <= n < |doc| ==> NodeEvaluable(doc, doc[n].form)
  }
}
