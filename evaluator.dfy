/** The evaluator (internal/evaluator/evaluator.go). It binds every
    reference to its root, evaluates references, arrays and tables on
    demand behind memo flags, merges inherited table entries into the
    tables that inherit them, and materialises the result. */
module Evaluator {
  import opened Wrappers
  import opened Logger
  import opened Syntax
  import opened Document
  import opened EvaluatorState
  import opened EvaluatorSteps
  import opened Resolution
  import Log = Logger

  const ExpectIndexMessage := "Expect integer for array index."
  const OutOfBoundsMessage := "Index out of bounds."
  const ExpectKeyMessage := "Expect string for table key."
  const KeyNotFoundMessage := "Key not found."
  const DuplicateKeyMessage := "Duplicate key in table."
  const UnaryMessage := "Unary expressions are not supported."
  const BinaryMessage := "Binary expressions are not supported."

  /** `Grows`, kept whole where a proof needs it as one fact. */
  ghost predicate Since(s0: State, s1: State) {
    Grows(s0, s1)
  }

  lemma Chain(s0: State, s1: State, s2: State)
    requires Since(s0, s1) && Since(s1, s2)
    ensures Since(s0, s2)
  {
    GrowsTrans(s0, s1, s2);
  }

  /** The inherited entries of `parent` under those of `child`: the child
      keeps every key it has, and gains each parent key it lacks. */
  function Merged(child: map<string, Slot>, parent: map<string, Slot>): (r: map<string, Slot>)
    ensures r.Keys == child.Keys + parent.Keys
    ensures forall k :: k in child ==> r[k] == child[k]
    ensures forall k :: k in parent && k !in child ==> r[k] == parent[k]
  {
    parent + child
  }

  /** The loop of `evaluateTableValue` that gives table `child` each entry
      of `parent` under a key it lacks. */
  method MergeEntries(child: map<string, Slot>, parent: map<string, Slot>) returns (r: map<string, Slot>)
    ensures r == Merged(child, parent)
  {
    r := child;
    var todo := parent.Keys;
    while todo != {}
      invariant todo <= parent.Keys
      invariant r.Keys == child.Keys + (parent.Keys - todo)
      invariant forall k :: k in child ==> r[k] == child[k]
      invariant forall k :: k in parent && k !in child && k !in todo ==> r[k] == parent[k]
      decreases todo
    {
      var key :| key in todo;
      if key !in r {
        r := r[key := parent[key]];
      }
      todo := todo - {key};
    }
  }

  /** The entry map `evaluateTableKeys` builds from the first `n` keys of a
      table: each key names the slot of the item that carries it. */
  function KeyMap(keys: seq<string>, t: NodeId, n: nat): (r: map<string, Slot>)
    requires n <= |keys|
    ensures forall k :: k in r ==> r[k].table == t && r[k].index < n && keys[r[k].index] == k
  {
    if n == 0 then map[] else KeyMap(keys, t, n - 1)[keys[n - 1] := Slot(t, n - 1)]
  }

  /** Key `j` repeats one of the keys before it. */
  predicate Repeated(keys: seq<string>, j: nat)
    requires j < |keys|
  {
    keys[j] in keys[..j]
  }

  /** The index of the first key that repeats an earlier one. */
  function FirstRepeat(keys: seq<string>, n: nat): (r: Option<nat>)
    requires n <= |keys|
    ensures r.Some? ==> r.value < n && Repeated(keys, r.value)
    ensures forall j :: 0 <= j < n && (r.None? || j < r.value) ==> !Repeated(keys, j)
  {
    if n == 0 then None
    else match FirstRepeat(keys, n - 1)
      case Some(j) => Some(j)
      case None => if Repeated(keys, n - 1) then Some(n - 1) else None
  }

  /** Each of the first `n` keys is in the map. */
  lemma {:induction false} KeyMapKeys(keys: seq<string>, t: NodeId, n: nat, j: nat)
    requires j < n <= |keys|
    ensures keys[j] in KeyMap(keys, t, n)
  {
    if j < n - 1 {
      KeyMapKeys(keys, t, n - 1, j);
    }
  }

  /** The map built so far has key `n` exactly when key `n` repeats an
      earlier one. */
  lemma KeyMapHas(keys: seq<string>, t: NodeId, n: nat)
    requires n < |keys|
    ensures keys[n] in KeyMap(keys, t, n) <==> Repeated(keys, n)
  {
    var m := KeyMap(keys, t, n);
    if keys[n] in m {
      assert keys[..n][m[keys[n]].index] == keys[n];
    }
    if Repeated(keys, n) {
      var j :| 0 <= j < n && keys[..n][j] == keys[n];
      KeyMapKeys(keys, t, n, j);
    }
  }

  /** With no repeated key, each key names its own item's slot. */
  lemma {:induction false} KeyMapDistinct(keys: seq<string>, t: NodeId, n: nat)
    requires n <= |keys| && FirstRepeat(keys, n).None?
    ensures forall j :: 0 <= j < n ==> keys[j] in KeyMap(keys, t, n) && KeyMap(keys, t, n)[keys[j]] == Slot(t, j)
    ensures |KeyMap(keys, t, n)| == n
  {
    if n > 0 {
      assert FirstRepeat(keys, n - 1).None?;
      KeyMapDistinct(keys, t, n - 1);
      var m := KeyMap(keys, t, n - 1);
      assert !Repeated(keys, n - 1);
      KeyMapHas(keys, t, n - 1);
      assert keys[n - 1] !in m;
      assert KeyMap(keys, t, n) == m[keys[n - 1] := Slot(t, n - 1)];
    }
  }

  /** Once a key has repeated, it stays the first repeat. */
  lemma {:induction false} FirstRepeatStable(keys: seq<string>, n: nat, m: nat)
    requires n <= m <= |keys| && FirstRepeat(keys, n).Some?
    ensures FirstRepeat(keys, m) == FirstRepeat(keys, n)
    decreases m
  {
    if m > n {
      FirstRepeatStable(keys, n, m - 1);
    }
  }

  /** How many entries `evaluateTableKeys` creates: one per key, up to the
      first key that repeats. */
  function Created(keys: seq<string>): (n: nat)
    ensures n <= |keys|
    ensures FirstRepeat(keys, n).None?
    ensures n < |keys| ==> Repeated(keys, n)
  {
    match FirstRepeat(keys, |keys|)
    case Some(j) => j
    case None => |keys|
  }

  class Evaluator {
    const doc: seq<Node>
    /** `expr`: the document root. */
    const root: NodeId
    const logger: Log.Logger

    var refDatas: map<NodeId, RefData>
    var unaryDatas: map<NodeId, OpData>
    var binaryDatas: map<NodeId, OpData>
    var arrayDatas: map<NodeId, ArrayData>
    var tableDatas: map<NodeId, TableData>
    /** The `*tableDataItem` objects, by slot. */
    var entries: map<Slot, TableEntry>

    /** The nodes `bind` has visited. */
    ghost var bound: set<NodeId>
    /** A superset of the flags not yet set: the termination measure. */
    ghost var pending: set<Flag>

    /** `New`: empty maps. */
    constructor (doc: seq<Node>, root: NodeId, logger: Log.Logger)
      ensures this.doc == doc && this.root == root && this.logger == logger
      ensures Empty()
    {
      this.doc := doc;
      this.root := root;
      this.logger := logger;
      refDatas := map[];
      unaryDatas := map[];
      binaryDatas := map[];
      arrayDatas := map[];
      tableDatas := map[];
      entries := map[];
      bound := {};
      pending := {};
    }

    ghost predicate Empty()
      reads this
    {
      && refDatas == map[] && unaryDatas == map[] && binaryDatas == map[]
      && arrayDatas == map[] && tableDatas == map[] && entries == map[]
      && bound == {}
    }

    ghost predicate Document() {
      WellFormed(doc) && Evaluable(doc, root)
    }

    ghost function Snap(): State
      reads this`refDatas, this`arrayDatas, this`tableDatas, this`entries, this`pending
    {
      State(refDatas, arrayDatas, tableDatas, entries, pending)
    }

    /** The nodes that have a record. */
    ghost function Keys(): RecordKeys
      reads this`refDatas, this`unaryDatas, this`binaryDatas, this`arrayDatas, this`tableDatas
    {
      RecordKeys(refDatas.Keys, unaryDatas.Keys, binaryDatas.Keys, arrayDatas.Keys, tableDatas.Keys)
    }

    /** Node `n` has the record its form calls for. */
    ghost predicate HasRecord(n: NodeId)
      reads this`refDatas, this`unaryDatas, this`binaryDatas, this`arrayDatas, this`tableDatas
    {
      RecordIn(doc, n, Keys())
    }

    /** No record has gone since `k0`. */
    ghost predicate Recorded(k0: RecordKeys)
      reads this`refDatas, this`unaryDatas, this`binaryDatas, this`arrayDatas, this`tableDatas
    {
      KeysKept(k0, Keys())
    }

    ghost predicate Valid()
      reads this`refDatas, this`arrayDatas, this`tableDatas, this`entries, this`pending, this`bound
    {
      Consistent(doc, root, bound, Snap())
    }

    /** Evaluation only moves forward from state `s0`. */
    ghost predicate Advanced(s0: State)
      reads this`refDatas, this`arrayDatas, this`tableDatas, this`entries, this`pending
    {
      Grows(s0, Snap())
    }

    /** Key `k` of table `t` names an entry whose flag is set. */
    ghost predicate EntryDone(t: NodeId, k: string)
      reads this`refDatas, this`arrayDatas, this`tableDatas, this`entries, this`pending
    {
      Done(Snap(), t, k)
    }

    /** The records as `resolve` reads them. */
    function Final(): State
      reads this`refDatas, this`arrayDatas, this`tableDatas, this`entries
    {
      State(refDatas, arrayDatas, tableDatas, entries, {})
    }

    /** `Evaluate`: bind every node under the root, evaluate the root, log
        the error that stopped evaluation if any, and resolve the root
        into the configuration's value over the records evaluation left. */
    method Evaluate() returns (r: Result<Value, Failure>)
      requires Document() && Empty()
      modifies this, logger
      ensures Valid() && root in bound
      ensures r == Resolve(doc, Final(), Some(root), {})
      ensures old(logger.errors) <= logger.errors && |logger.errors| <= |old(logger.errors)| + 1
    {
      Bind(root, Scope(doc, root));
      pending := AllFlags(doc);
      FreshConsistent(doc, root, bound, refDatas, unaryDatas, binaryDatas, arrayDatas, tableDatas, entries);
      var o := EvaluateExpr(Some(root));
      if o.Fail? {
        logger.Add(o.error.message, o.error.span);
      }
      r := Resolve(doc, Final(), Some(root), {});
    }

    // ------------------------------------------------------------------
    // Binding

    /** The records of `bind`, not yet touched by evaluation, for a walk
        under `parent`. */
    ghost predicate Unbound(parent: Ptr)
      reads this
    {
      FreshRecords(doc, root, bound, refDatas, unaryDatas, binaryDatas, arrayDatas, tableDatas, entries, parent)
    }

    /** `bind`: give each node under `id` its record; a reference's root is
        the document root when it is absolute and `parent` otherwise, and
        `parent` is passed down unchanged. */
    method Bind(id: NodeId, parent: Ptr)
      requires Document() && id < |doc| && Unbound(parent)
      modifies this`refDatas, this`unaryDatas, this`binaryDatas, this`arrayDatas, this`tableDatas, this`bound
      ensures Unbound(parent) && id in bound && old(bound) <= bound
      ensures Recorded(old(Keys()))
      decreases id, 2
    {
      Record(id, parent);
      ghost var k := Keys();
      BindChildren(id, parent);
      KeysStep(doc, id, old(Keys()), k, Keys());
      FreshVisit(doc, root, bound, refDatas, unaryDatas, binaryDatas, arrayDatas, tableDatas, entries, parent, id);
      bound := bound + {id};
    }

    /** The record `bind` creates for one node. */
    method Record(id: NodeId, parent: Ptr)
      requires Document() && id < |doc| && Unbound(parent)
      modifies this`refDatas, this`unaryDatas, this`binaryDatas, this`arrayDatas, this`tableDatas
      ensures Unbound(parent) && HasRecord(id)
      ensures Recorded(old(Keys()))
    {
      FreshRecord(doc, root, bound, refDatas, unaryDatas, binaryDatas, arrayDatas, tableDatas, entries, parent, id);
      match doc[id].form {
        case NRef(m, _) =>
          refDatas := refDatas[id := RefData(RootOf(root, m, parent), None, false)];
        case NUnary(_, _) =>
          unaryDatas := unaryDatas[id := OpData(None, false)];
        case NBinary(_, _, _) =>
          binaryDatas := binaryDatas[id := OpData(None, false)];
        case NArray(_) =>
          arrayDatas := arrayDatas[id := ArrayData([], false)];
        case NTable(_) =>
          tableDatas := tableDatas[id := TableData(map[], false)];
        case _ =>
      }
    }

    /** The recursive calls of `bind` on the children of `id`, in order. */
    method BindChildren(id: NodeId, parent: Ptr)
      requires Document() && id < |doc| && Unbound(parent) && HasRecord(id)
      modifies this`refDatas, this`unaryDatas, this`binaryDatas, this`arrayDatas, this`tableDatas, this`bound
      ensures Unbound(parent) && HasRecord(id) && old(bound) <= bound && ChildrenIn(doc[id].form, bound)
      ensures Recorded(old(Keys()))
      decreases id, 1
    {
      assert ChildrenIn(doc[id].form, Below(id));
      match doc[id].form {
        case NRef(_, keys) =>
          BindAll(id, keys, parent);
        case NUnary(_, right) =>
          Bind(right, parent);
        case NBinary(left, _, right) =>
          Bind(left, parent);
          ghost var k := Keys();
          Bind(right, parent);
          KeysStep(doc, id, old(Keys()), k, Keys());
        case NArray(items) =>
          BindAll(id, items, parent);
        case NTable(items) =>
          BindItems(id, items, parent);
        case _ =>
      }
    }

    /** `bind` on the key, the value and the parent of each item of a
        table `id`. */
    method BindItems(id: NodeId, items: seq<Item>, parent: Ptr)
      requires Document() && id < |doc| && Unbound(parent) && HasRecord(id)
      requires forall j :: 0 <= j < |items| ==> ItemIn(items[j], Below(id))
      modifies this`refDatas, this`unaryDatas, this`binaryDatas, this`arrayDatas, this`tableDatas, this`bound
      ensures Unbound(parent) && HasRecord(id) && old(bound) <= bound
      ensures forall j :: 0 <= j < |items| ==> ItemIn(items[j], bound)
      ensures Recorded(old(Keys()))
      decreases id, 0
    {
      var i := 0;
      while i < |items|
        invariant i <= |items| && Unbound(parent) && HasRecord(id) && old(bound) <= bound
        invariant Recorded(old(Keys()))
        invariant forall j :: 0 <= j < i ==> ItemIn(items[j], bound)
      {
        ghost var b0 := bound;
        ghost var k := Keys();
        Bind(items[i].key, parent);
        KeysStep(doc, id, old(Keys()), k, Keys());
        k := Keys();
        Bind(items[i].value, parent);
        KeysStep(doc, id, old(Keys()), k, Keys());
        if items[i].parent.Some? {
          k := Keys();
          Bind(items[i].parent.value, parent);
          KeysStep(doc, id, old(Keys()), k, Keys());
        }
        ItemsPrefixGrow(items, i, b0, bound);
        i := i + 1;
      }
    }

    /** `bind` on each of a list of children of `id`. */
    method BindAll(id: NodeId, children: seq<NodeId>, parent: Ptr)
      requires Document() && id < |doc| && Unbound(parent) && HasRecord(id)
      requires forall j :: 0 <= j < |children| ==> children[j] < id
      modifies this`refDatas, this`unaryDatas, this`binaryDatas, this`arrayDatas, this`tableDatas, this`bound
      ensures Unbound(parent) && HasRecord(id) && old(bound) <= bound
      ensures forall j :: 0 <= j < |children| ==> children[j] in bound
      ensures Recorded(old(Keys()))
      decreases id, 0
    {
      var i := 0;
      while i < |children|
        invariant i <= |children| && Unbound(parent) && HasRecord(id) && old(bound) <= bound
        invariant Recorded(old(Keys()))
        invariant forall j :: 0 <= j < i ==> children[j] in bound
      {
        ghost var b0 := bound;
        ghost var k := Keys();
        Bind(children[i], parent);
        KeysStep(doc, id, old(Keys()), k, Keys());
        NodesPrefixGrow(children, i, b0, bound);
        i := i + 1;
      }
    }

    // ------------------------------------------------------------------
    // Evaluation steps that do not recurse

    /** The keys of table `t`'s items, in order. */
    ghost function TableKeys(t: NodeId): (r: seq<string>)
      requires t < |doc| && doc[t].form.NTable? && NodeEvaluable(doc, doc[t].form)
      ensures |r| == |doc[t].form.tableItems|
      ensures forall j :: 0 <= j < |r| ==> r[j] == doc[doc[t].form.tableItems[j].key].form.strValue
    {
      var items := doc[t].form.tableItems;
      seq(|items|, j requires 0 <= j < |items| => doc[items[j].key].form.strValue)
    }

    /** `evaluateArrayIndices`: the first call gives array `a` one
        unevaluated item per source item, holding that item, in order;
        later calls change nothing. */
    method EvaluateArrayIndices(a: NodeId)
      requires Valid() && a in arrayDatas && a in bound
      modifies this`arrayDatas
      ensures Valid() && Advanced(old(Snap()))
      ensures arrayDatas[a].evaluated && |arrayDatas[a].items| == |doc[a].form.items|
      ensures old(arrayDatas[a].evaluated) ==> unchanged(this)
      ensures !old(arrayDatas[a].evaluated) ==>
        arrayDatas == old(arrayDatas)[a := ArrayData(FreshItems(doc[a].form.items), true)]
    {
      if arrayDatas[a].evaluated {
        return;
      }
      var items := doc[a].form.items;
      var cells: seq<ArrayItem> := [];
      while |cells| < |items|
        invariant |cells| <= |items|
        invariant forall i :: 0 <= i < |cells| ==> cells[i] == ArrayItem(Some(items[i]), false)
      {
        cells := cells + [ArrayItem(Some(items[|cells|]), false)];
      }
      assert cells == FreshItems(items);
      ghost var s := Snap();
      IndicesGood(doc, root, s, bound, a);
      arrayDatas := arrayDatas[a := ArrayData(cells, true)];
      assert Snap() == s.(arrays := arrayDatas);
    }

    /** Stores the keys `evaluateTableKeys` built for table `t`, and the
        entries of its first `n` items. */
    method StoreKeys(t: NodeId, m: map<string, Slot>, n: nat)
      requires Valid() && t in tableDatas && t in bound && !tableDatas[t].evaluated
      requires n <= |doc[t].form.tableItems|
      requires forall k :: k in m ==> m[k].table == t && m[k].index < n
      modifies this`tableDatas, this`entries
      ensures Valid() && Advanced(old(Snap()))
      ensures tableDatas == old(tableDatas)[t := TableData(m, true)]
      ensures entries == old(entries) + NewEntries(t, doc[t].form.tableItems, n)
    {
      ghost var s := Snap();
      KeysGood(doc, root, s, bound, t, m, n);
      tableDatas := tableDatas[t := TableData(m, true)];
      entries := entries + NewEntries(t, doc[t].form.tableItems, n);
      assert Snap() == s.(tables := tableDatas, entries := entries);
    }

    /** The loop of `evaluateTableKeys` over the items of table `t`: one
        key per item, naming that item's entry, up to the first key that
        repeats an earlier one, which is reported at its span. */
    method BuildKeys(t: NodeId, ghost keys: seq<string>) returns (m: map<string, Slot>, n: nat, o: Outcome)
      requires t < |doc| && doc[t].form.NTable? && NodeEvaluable(doc, doc[t].form)
      requires |keys| == |doc[t].form.tableItems|
      requires forall j :: 0 <= j < |keys| ==> keys[j] == doc[doc[t].form.tableItems[j].key].form.strValue
      ensures
        && n == Created(keys)
        && m == KeyMap(keys, t, n)
        && o == (if n < |keys| then Fail(Entry(DuplicateKeyMessage, doc[doc[t].form.tableItems[n].key].span)) else Pass)
    {
      var items := doc[t].form.tableItems;
      m := map[];
      n := 0;
      o := Pass;
      while n < |items|
        invariant n <= |items| && m == KeyMap(keys, t, n)
        invariant FirstRepeat(keys, n).None?
      {
        var key := doc[items[n].key].form.strValue;
        KeyMapHas(keys, t, n);
        if key in m {
          FirstRepeatStable(keys, n + 1, |keys|);
          o := Fail(Entry(DuplicateKeyMessage, doc[items[n].key].span));
          return;
        }
        m := m[key := Slot(t, n)];
        n := n + 1;
      }
    }

    /** `evaluateTableKeys`: the first call creates one unevaluated entry
        per item of table `t`, in order, until a key repeats an earlier
        one; that key is reported and the entries before it stay. Later
        calls change nothing. */
    method EvaluateTableKeys(t: NodeId) returns (o: Outcome)
      requires Valid() && t in tableDatas && t in bound
      modifies this`tableDatas, this`entries
      ensures Valid() && Advanced(old(Snap())) && refDatas == old(refDatas)
      ensures tableDatas[t].evaluated
      ensures old(tableDatas[t].evaluated) ==> o == Pass && unchanged(this)
      ensures EntriesKept(old(entries), entries)
      ensures !old(tableDatas[t].evaluated) ==>
        var keys := TableKeys(t);
        var items := doc[t].form.tableItems;
        var n := Created(keys);
        && o == (if n < |keys| then Fail(Entry(DuplicateKeyMessage, doc[items[n].key].span)) else Pass)
        && tableDatas == old(tableDatas)[t := TableData(KeyMap(keys, t, n), true)]
        && entries == old(entries) + NewEntries(t, items, n)
    {
      if tableDatas[t].evaluated {
        return Pass;
      }
      var m, n;
      m, n, o := BuildKeys(t, TableKeys(t));
      NoEntriesYet(doc, root, bound, Snap(), t);
      StoreKeys(t, m, n);
    }

    // ------------------------------------------------------------------
    // Single updates of the records. Each keeps the records consistent by
    // the matching lemma of `EvaluatorSteps`.

    /** `data.evaluated = true` for reference `r`. */
    method SetRefFlag(r: NodeId)
      requires Valid() && r in refDatas && !refDatas[r].evaluated
      modifies this`refDatas, this`pending
      ensures Valid() && Advanced(old(Snap()))
      ensures refDatas == old(refDatas)[r := old(refDatas[r]).(evaluated := true)]
      ensures pending == old(pending) - {RefFlag(r)} && |pending| < |old(pending)|
    {
      ghost var s := Snap();
      RefFlagStep(doc, root, bound, s, r);
      refDatas := refDatas[r := refDatas[r].(evaluated := true)];
      RemoveCard(pending, RefFlag(r));
      pending := pending - {RefFlag(r)};
      assert Snap() == s.(refs := refDatas, pending := pending);
    }

    /** `data.value = value` for reference `r`. */
    method StoreRef(r: NodeId, v: Ptr, ghost e: Ptr)
      requires Valid() && r in refDatas && refDatas[r].evaluated && Settled(doc, bound, v)
      requires Unwrapped(doc, refDatas, e) == Ok(v)
      modifies this`refDatas
      ensures Valid() && Advanced(old(Snap()))
      ensures refDatas == old(refDatas)[r := old(refDatas[r]).(value := v)]
      ensures Unwrapped(doc, refDatas, e) == Ok(refDatas[r].value)
    {
      ghost var s := Snap();
      RefValueStep(doc, root, bound, s, r, v);
      refDatas := refDatas[r := refDatas[r].(value := v)];
      assert Snap() == s.(refs := refDatas);
    }

    /** `item.evaluated = true` for item `i` of array `a`. */
    method SetItemFlag(a: NodeId, i: nat)
      requires Valid() && a in arrayDatas && arrayDatas[a].evaluated
      requires i < |arrayDatas[a].items| && !arrayDatas[a].items[i].evaluated
      modifies this`arrayDatas, this`pending
      ensures Valid() && Advanced(old(Snap()))
      ensures var items := old(arrayDatas[a].items);
        arrayDatas == old(arrayDatas)[a := ArrayData(items[i := items[i].(evaluated := true)], true)]
      ensures pending == old(pending) - {ItemFlag(a, i)} && |pending| < |old(pending)|
    {
      ghost var s := Snap();
      ItemFlagStep(doc, root, bound, s, a, i);
      var items := arrayDatas[a].items;
      arrayDatas := arrayDatas[a := ArrayData(items[i := items[i].(evaluated := true)], true)];
      RemoveCard(pending, ItemFlag(a, i));
      pending := pending - {ItemFlag(a, i)};
      assert Snap() == s.(arrays := arrayDatas, pending := pending);
    }

    /** `item.value = valueExpr` for item `i` of array `a`. */
    method StoreItem(a: NodeId, i: nat, v: Ptr)
      requires Valid() && a in arrayDatas && arrayDatas[a].evaluated
      requires i < |arrayDatas[a].items| && Visited(bound, v) && NotOp(doc, v)
      modifies this`arrayDatas
      ensures Valid() && Advanced(old(Snap()))
      ensures var items := old(arrayDatas[a].items);
        arrayDatas == old(arrayDatas)[a := ArrayData(items[i := items[i].(value := v)], true)]
      ensures refDatas == old(refDatas)
    {
      ghost var s := Snap();
      ItemValueStep(doc, root, bound, s, a, i, v);
      var items := arrayDatas[a].items;
      arrayDatas := arrayDatas[a := ArrayData(items[i := items[i].(value := v)], true)];
      assert Snap() == s.(arrays := arrayDatas);
    }

    /** `item.evaluated = true` for the entry in slot `e`. */
    method SetEntryFlag(e: Slot)
      requires Valid() && e in entries && !entries[e].evaluated
      modifies this`entries, this`pending
      ensures Valid() && Advanced(old(Snap()))
      ensures entries == old(entries)[e := old(entries[e]).(evaluated := true)]
      ensures pending == old(pending) - {EntryFlag(e)} && |pending| < |old(pending)|
    {
      ghost var s := Snap();
      EntryFlagStep(doc, root, bound, s, e);
      entries := entries[e := entries[e].(evaluated := true)];
      pending := pending - {EntryFlag(e)};
      assert Snap() == s.(entries := entries, pending := pending);
    }

    /** `item.parent = parentExpr` for the entry in slot `e`. */
    method StoreParent(e: Slot, p: Ptr)
      requires Valid() && e in entries && Visited(bound, p) && NotOp(doc, p)
      modifies this`entries
      ensures Valid() && Advanced(old(Snap()))
      ensures entries == old(entries)[e := old(entries[e]).(parent := p)]
      ensures refDatas == old(refDatas)
    {
      ghost var s := Snap();
      EntryParentStep(doc, root, bound, s, e, p);
      entries := entries[e := entries[e].(parent := p)];
      assert Snap() == s.(entries := entries);
    }

    /** Gives table `c` the entries of table `p` it lacks. */
    method StoreMerge(c: NodeId, p: NodeId, m: map<string, Slot>)
      requires Valid() && c in tableDatas && tableDatas[c].evaluated && p in tableDatas && tableDatas[p].evaluated
      requires m == Merged(tableDatas[c].entries, tableDatas[p].entries)
      modifies this`tableDatas
      ensures Valid() && Advanced(old(Snap())) && refDatas == old(refDatas)
      ensures tableDatas == old(tableDatas)[c := TableData(m, true)]
    {
      ghost var s := Snap();
      MergeStep(doc, root, bound, s, c, p);
      tableDatas := tableDatas[c := TableData(m, true)];
      assert Snap() == s.(tables := tableDatas);
    }

    // ------------------------------------------------------------------
    // Evaluation. Every method below may evaluate any reference, array
    // item or table entry; the measure is the set of flags not yet set,
    // then the rank of the method.

    /** `unwrap`: nil and concrete nodes are returned as they are; a
        reference is evaluated and its value taken, which is nil or
        concrete, so the loop goes round at most twice; an operator fails
        at its span. */
    method Unwrap(p: Ptr) returns (v: Ptr, o: Outcome)
      requires Valid() && Visited(bound, p)
      modifies this`refDatas, this`arrayDatas, this`tableDatas, this`entries, this`pending
      ensures Valid() && Advanced(old(Snap()))
      ensures Settled(doc, bound, v)
      ensures o.Fail? ==> v.None?
      ensures o.Pass? ==> Unwrapped(doc, refDatas, p) == Ok(v)
      ensures Concrete(doc, p) ==> v == p && o == Pass && unchanged(this)
      ensures p.Some? && doc[p.value].form.NRef? ==>
        p.value in refDatas && refDatas[p.value].evaluated && (o.Pass? ==> v == refDatas[p.value].value)
      ensures p.Some? && doc[p.value].form.NUnary? ==>
        o == Fail(Entry(UnaryMessage, doc[p.value].span)) && unchanged(this)
      ensures p.Some? && doc[p.value].form.NBinary? ==>
        o == Fail(Entry(BinaryMessage, doc[p.value].span)) && unchanged(this)
      decreases |pending|, 1
    {
      v := p;
      while true
        invariant Valid() && Advanced(old(Snap())) && Visited(bound, v)
        invariant v == p ==> unchanged(this)
        invariant v != p ==>
          && p.Some? && doc[p.value].form.NRef? && Concrete(doc, v)
          && p.value in refDatas && refDatas[p.value].evaluated && v == refDatas[p.value].value
        decreases if Concrete(doc, v) then 0 else 1
      {
        if v.None? {
          return v, Pass;
        }
        var n := v.value;
        match doc[n].form {
          case NRef(_, _) =>
            ghost var last;
            o, last := EvaluateRef(n);
            if o.Fail? {
              return None, o;
            }
            v := refDatas[n].value;
          case NUnary(_, _) =>
            return None, Fail(Entry(UnaryMessage, doc[n].span));
          case NBinary(_, _, _) =>
            return None, Fail(Entry(BinaryMessage, doc[n].span));
          case _ =>
            return v, Pass;
        }
      }
    }

    /** `evaluateRef`: a reference whose flag is set is left alone, which
        is what stops a reference that reaches itself. Otherwise the flag
        is set first, the keys are walked from the reference's root, and
        the unwrapped result is stored; on an error the value stays nil. */
    method EvaluateRef(r: NodeId) returns (o: Outcome, ghost last: Ptr)
      requires Valid() && r in refDatas && r in bound
      modifies this`refDatas, this`arrayDatas, this`tableDatas, this`entries, this`pending
      ensures Valid() && Advanced(old(Snap()))
      ensures refDatas[r].evaluated
      ensures old(refDatas[r].evaluated) ==> o == Pass && unchanged(this)
      ensures !old(refDatas[r].evaluated) && doc[r].form.keys == [] ==> last == refDatas[r].root
      ensures !old(refDatas[r].evaluated) && o.Pass? ==> Unwrapped(doc, refDatas, last) == Ok(refDatas[r].value)
      decreases |pending|, 0
    {
      last := None;
      if refDatas[r].evaluated {
        return Pass, last;
      }
      assert RefFlag(r) in pending;
      SetRefFlag(r);
      ghost var s := Snap();
      var expr;
      expr, o := WalkKeys(r, refDatas[r].root);
      last := expr;
      if o.Fail? {
        RefStaysSet(doc, root, bound, Snap(), r);
        Chain(old(Snap()), s, Snap());
        return;
      }
      ghost var s2 := Snap();
      var v;
      v, o := Unwrap(expr);
      Chain(s, s2, Snap());
      Chain(old(Snap()), s, Snap());
      if o.Pass? {
        ghost var s3 := Snap();
        StoreRef(r, v, expr);
        Chain(old(Snap()), s3, Snap());
      }
      RefStaysSet(doc, root, bound, Snap(), r);
    }
  
    /** The loop of `evaluateRef` over the keys of reference `r`, from
        `start`; it stops at the first error. */
    method WalkKeys(r: NodeId, start: Ptr) returns (expr: Ptr, o: Outcome)
      requires Valid() && r in bound && r < |doc| && doc[r].form.NRef?
      requires Visited(bound, start) && NotOp(doc, start)
      modifies this`refDatas, this`arrayDatas, this`tableDatas, this`entries, this`pending
      ensures Valid() && Advanced(old(Snap()))
      ensures Visited(bound, expr) && NotOp(doc, expr)
      ensures doc[r].form.keys == [] ==> expr == start && o == Pass && unchanged(this)
      decreases |pending|, 5
    {
      var keys := doc[r].form.keys;
      assert ChildrenIn(doc[r].form, bound);
      expr := start;
      o := Pass;
      var i := 0;
      while i < |keys|
        invariant i <= |keys| && Valid() && Advanced(old(Snap()))
        invariant Visited(bound, expr) && NotOp(doc, expr)
        invariant |keys| == 0 ==> expr == start && o == Pass && unchanged(this)
      {
        ghost var s := Snap();
        ghost var current: Option<Ptr>;
        expr, o, current := WalkKey(keys[i], expr);
        Chain(old(Snap()), s, Snap());
        if o.Fail? {
          return;
        }
        i := i + 1;
      }
    }

    /** One step of the walk: the key and the current value are unwrapped
        (`current` is the unwrapped value, nil when an unwrap failed); an
        array is indexed, a table is looked up, and any other value leaves
        the walk where it is, without error. */
    method WalkKey(rawKey: NodeId, expr: Ptr) returns (next: Ptr, o: Outcome, ghost current: Option<Ptr>)
      requires Valid() && rawKey in bound && Visited(bound, expr) && NotOp(doc, expr)
      modifies this`refDatas, this`arrayDatas, this`tableDatas, this`entries, this`pending
      ensures Valid() && Advanced(old(Snap()))
      ensures Visited(bound, next) && NotOp(doc, next)
      ensures current.None? ==> o.Fail? && next.None?
      ensures current.Some? ==> Settled(doc, bound, current.value)
      ensures Concrete(doc, Some(rawKey)) && Concrete(doc, expr) ==> current == Some(expr)
      ensures current.Some? && !Container(doc, current.value) ==>
        o == Pass && next == expr && Unwrapped(doc, refDatas, expr) == Ok(current.value)
      ensures Concrete(doc, Some(rawKey)) && Concrete(doc, expr) && !Container(doc, expr) ==>
        o == Pass && next == expr && unchanged(this)
      decreases |pending|, 4
    {
      current := None;
      var key, value;
      key, o := Unwrap(Some(rawKey));
      if o.Fail? {
        return None, o, None;
      }
      ghost var s := Snap();
      value, o := Unwrap(expr);
      Chain(old(Snap()), s, Snap());
      if o.Fail? {
        return None, o, None;
      }
      current := Some(value);
      ghost var s2 := Snap();
      if value.Some? && doc[value.value].form.NArray? {
        next, o := IndexArray(rawKey, key, value.value);
        Chain(old(Snap()), s2, Snap());
      } else if value.Some? && doc[value.value].form.NTable? {
        next, o := IndexTable(rawKey, key, value.value);
        Chain(old(Snap()), s2, Snap());
      } else {
        next := expr;
      }
    }

    /** The array case of the walk: the key must be an integer, the array's
        items are created, the index must be below their number, and the
        walk goes on with the item's evaluated value. A negative index
        cannot occur: integer literals are not negative. */
    method IndexArray(rawKey: NodeId, key: Ptr, c: NodeId) returns (next: Ptr, o: Outcome)
      requires Valid() && rawKey < |doc| && Settled(doc, bound, key)
      requires c in bound && c < |doc| && doc[c].form.NArray?
      modifies this`refDatas, this`arrayDatas, this`tableDatas, this`entries, this`pending
      ensures Valid() && Advanced(old(Snap()))
      ensures Visited(bound, next) && NotOp(doc, next)
      ensures !(key.Some? && doc[key.value].form.NInt?) ==>
        o == Fail(Entry(ExpectIndexMessage, doc[rawKey].span)) && unchanged(this)
      ensures key.Some? && doc[key.value].form.NInt? ==>
        var index := doc[key.value].form.intValue;
        && c in arrayDatas && arrayDatas[c].evaluated
        && (index >= |doc[c].form.items| ==> o == Fail(Entry(OutOfBoundsMessage, doc[rawKey].span)))
        && (o.Pass? ==>
              && 0 <= index < |arrayDatas[c].items|
              && arrayDatas[c].items[index].evaluated && next == arrayDatas[c].items[index].value)
      decreases |pending|, 3
    {
      if !(key.Some? && doc[key.value].form.NInt?) {
        return None, Fail(Entry(ExpectIndexMessage, doc[rawKey].span));
      }
      assert NodeEvaluable(doc, doc[key.value].form);
      var index: nat := doc[key.value].form.intValue;
      EvaluateArrayIndices(c);
      if |arrayDatas[c].items| <= index {
        return None, Fail(Entry(OutOfBoundsMessage, doc[rawKey].span));
      }
      ghost var s := Snap();
      o := EvaluateArrayValue(c, index);
      Chain(old(Snap()), s, Snap());
      if o.Fail? {
        return None, o;
      }
      next := arrayDatas[c].items[index].value;
    }

    /** The table case of the walk: the key must be a string, the table's
        keys are evaluated (an error there is returned), the key must be
        one of them, and the walk goes on with that entry's evaluated
        value. */
    method IndexTable(rawKey: NodeId, key: Ptr, c: NodeId) returns (next: Ptr, o: Outcome)
      requires Valid() && rawKey < |doc| && Settled(doc, bound, key)
      requires c in bound && c < |doc| && doc[c].form.NTable?
      modifies this`refDatas, this`arrayDatas, this`tableDatas, this`entries, this`pending
      ensures Valid() && Advanced(old(Snap()))
      ensures Visited(bound, next) && NotOp(doc, next)
      ensures !(key.Some? && doc[key.value].form.NStr?) ==>
        o == Fail(Entry(ExpectKeyMessage, doc[rawKey].span)) && unchanged(this)
      ensures key.Some? && doc[key.value].form.NStr? ==>
        var name := doc[key.value].form.strValue;
        && c in tableDatas && tableDatas[c].evaluated
        && (o.Pass? ==>
              && name in tableDatas[c].entries && tableDatas[c].entries[name] in entries
              && entries[tableDatas[c].entries[name]].evaluated && next == entries[tableDatas[c].entries[name]].value)
      decreases |pending|, 3
    {
      if !(key.Some? && doc[key.value].form.NStr?) {
        return None, Fail(Entry(ExpectKeyMessage, doc[rawKey].span));
      }
      var name := doc[key.value].form.strValue;
      o := EvaluateTableKeys(c);
      if o.Fail? {
        return None, o;
      }
      ghost var s := Snap();
      next, o := FindEntry(rawKey, c, name);
      Chain(old(Snap()), s, Snap());
    }

    /** The lookup of the table case, once the keys are evaluated: a
        missing key fails at the span of the key expression. */
    method FindEntry(rawKey: NodeId, c: NodeId, name: string) returns (next: Ptr, o: Outcome)
      requires Valid() && rawKey < |doc| && c in tableDatas && tableDatas[c].evaluated
      modifies this`refDatas, this`arrayDatas, this`tableDatas, this`entries, this`pending
      ensures Valid() && Advanced(old(Snap()))
      ensures Visited(bound, next) && NotOp(doc, next)
      ensures name !in old(tableDatas[c].entries) ==>
        o == Fail(Entry(KeyNotFoundMessage, doc[rawKey].span)) && unchanged(this)
      ensures o.Pass? ==>
        && name in tableDatas[c].entries && tableDatas[c].entries[name] in entries
        && entries[tableDatas[c].entries[name]].evaluated && next == entries[tableDatas[c].entries[name]].value
      decreases |pending|, 2
    {
      if name !in tableDatas[c].entries {
        return None, Fail(Entry(KeyNotFoundMessage, doc[rawKey].span));
      }
      var slot := tableDatas[c].entries[name];
      o := EvaluateTableValue(c, name);
      if o.Fail? {
        return None, o;
      }
      next := entries[slot].value;
    }

    /** `evaluateArrayValue`: an item whose flag is set is left alone;
        otherwise the flag is set first, then the item is evaluated and its
        value replaced by its unwrapped form. */
    method EvaluateArrayValue(a: NodeId, i: nat) returns (o: Outcome)
      requires Valid() && a in arrayDatas && arrayDatas[a].evaluated && i < |arrayDatas[a].items|
      modifies this`refDatas, this`arrayDatas, this`tableDatas, this`entries, this`pending
      ensures Valid() && Advanced(old(Snap()))
      ensures arrayDatas[a].items[i].evaluated
      ensures old(arrayDatas[a].items[i].evaluated) ==> o == Pass && unchanged(this)
      ensures !old(arrayDatas[a].items[i].evaluated) && o.Pass? ==>
        Unwrapped(doc, refDatas, old(arrayDatas[a].items[i].value)) == Ok(arrayDatas[a].items[i].value)
      decreases |pending|, 0
    {
      if arrayDatas[a].items[i].evaluated {
        return Pass;
      }
      var value := arrayDatas[a].items[i].value;
      assert ItemUnset(doc, a, arrayDatas[a], i);
      SetItemFlag(a, i);
      ghost var s := Snap();
      o := SettleItem(a, i, value);
      Chain(old(Snap()), s, Snap());
    }

    /** The rest of `evaluateArrayValue`, once the flag is set. */
    method SettleItem(a: NodeId, i: nat, value: Ptr) returns (o: Outcome)
      requires Valid() && a in arrayDatas && arrayDatas[a].evaluated && i < |arrayDatas[a].items|
      requires Visited(bound, value) && NotOp(doc, value)
      modifies this`refDatas, this`arrayDatas, this`tableDatas, this`entries, this`pending
      ensures Valid() && Advanced(old(Snap()))
      ensures o.Pass? ==>
        a in arrayDatas && i < |arrayDatas[a].items| && Unwrapped(doc, refDatas, value) == Ok(arrayDatas[a].items[i].value)
      decreases |pending|, 7
    {
      var v;
      v, o := SettleField(value);
      if o.Fail? {
        return;
      }
      ghost var s := Snap();
      StoreItem(a, i, v);
      Chain(old(Snap()), s, Snap());
    }

    /** `evaluateArray`: the items are created, then each is evaluated in
        order until one fails. */
    method EvaluateArray(a: NodeId) returns (o: Outcome)
      requires Valid() && a in arrayDatas && a in bound
      modifies this`refDatas, this`arrayDatas, this`tableDatas, this`entries, this`pending
      ensures Valid() && Advanced(old(Snap()))
      ensures arrayDatas[a].evaluated
      ensures o.Pass? ==> forall i :: 0 <= i < |arrayDatas[a].items| ==> arrayDatas[a].items[i].evaluated
      decreases |pending|, 2
    {
      EvaluateArrayIndices(a);
      ghost var s := Snap();
      o := EvaluateItems(a);
      Chain(old(Snap()), s, Snap());
    }

    /** The loop of `evaluateArray`: each item in order, stopping at the
        first failure. */
    method EvaluateItems(a: NodeId) returns (o: Outcome)
      requires Valid() && a in arrayDatas && arrayDatas[a].evaluated
      modifies this`refDatas, this`arrayDatas, this`tableDatas, this`entries, this`pending
      ensures Valid() && Advanced(old(Snap()))
      ensures o.Pass? ==> forall i :: 0 <= i < |arrayDatas[a].items| ==> arrayDatas[a].items[i].evaluated
      decreases |pending|, 1
    {
      var n := |arrayDatas[a].items|;
      var i := 0;
      o := Pass;
      while i < n
        invariant i <= n && Valid() && Advanced(old(Snap())) && |pending| <= |old(pending)|
        invariant a in arrayDatas && arrayDatas[a].evaluated && |arrayDatas[a].items| == n
        invariant forall j :: 0 <= j < i ==> arrayDatas[a].items[j].evaluated
      {
        ghost var s := Snap();
        o := EvaluateArrayValue(a, i);
        Chain(old(Snap()), s, Snap());
        if o.Fail? {
          return;
        }
        PrefixStaysSet(s, Snap(), a, i);
        i := i + 1;
      }
    }
  
    /** `evaluateTableValue`: an entry whose flag is set is left alone;
        otherwise the flag is set first, then the entry is settled. The
        entry may be shared with tables that inherited it, which see the
        same flag. */
    method EvaluateTableValue(t: NodeId, name: string) returns (o: Outcome)
      requires Valid() && t in tableDatas && name in tableDatas[t].entries
      modifies this`refDatas, this`arrayDatas, this`tableDatas, this`entries, this`pending
      ensures Valid() && Advanced(old(Snap()))
      ensures t in tableDatas && name in tableDatas[t].entries && tableDatas[t].entries[name] == old(tableDatas[t].entries[name])
      ensures tableDatas[t].entries[name] in entries && entries[tableDatas[t].entries[name]].evaluated
      ensures old(entries[tableDatas[t].entries[name]].evaluated) ==> o == Pass && unchanged(this)
      ensures !old(entries[tableDatas[t].entries[name]].evaluated) && o.Pass? ==>
        Unwrapped(doc, refDatas, old(entries[tableDatas[t].entries[name]].value)) == Ok(entries[tableDatas[t].entries[name]].value)
      decreases |pending|, 1
    {
      var slot := tableDatas[t].entries[name];
      assert slot in entries;
      o := EvaluateSlot(slot);
      KeyStays(old(Snap()), Snap(), t, name);
    }

    /** The entry in slot `e`, which every table holding it shares. */
    method EvaluateSlot(e: Slot) returns (o: Outcome)
      requires Valid() && e in entries
      modifies this`refDatas, this`arrayDatas, this`tableDatas, this`entries, this`pending
      ensures Valid() && Advanced(old(Snap()))
      ensures e in entries && entries[e].evaluated
      ensures old(entries[e].evaluated) ==> o == Pass && unchanged(this)
      ensures !old(entries[e].evaluated) && o.Pass? ==> Unwrapped(doc, refDatas, old(entries[e].value)) == Ok(entries[e].value)
      decreases |pending|, 0
    {
      if entries[e].evaluated {
        return Pass;
      }
      var item := entries[e];
      assert SlotOk(doc, tableDatas, e) && EntryUnset(doc, tableDatas, entries, e);
      SetEntryFlag(e);
      ghost var s := Snap();
      o := SettleEntry(e, item.parent, item.value);
      Chain(old(Snap()), s, Snap());
      EntryStaysSet(doc, root, bound, Snap(), e);
    }

    /** The rest of `evaluateTableValue`, once the flag is set: the parent
        is evaluated and unwrapped, then the value; when both are tables,
        the value inherits the parent's entries. */
    method SettleEntry(slot: Slot, parent: Ptr, value: Ptr) returns (o: Outcome)
      requires Valid() && slot in entries
      requires Visited(bound, parent) && NotOp(doc, parent) && Visited(bound, value) && NotOp(doc, value)
      modifies this`refDatas, this`arrayDatas, this`tableDatas, this`entries, this`pending
      ensures Valid() && Advanced(old(Snap()))
      ensures o.Pass? ==> slot in entries && Unwrapped(doc, refDatas, value) == Ok(entries[slot].value)
      decreases |pending|, 8
    {
      var p;
      p, o := SettleParent(slot, parent);
      if o.Fail? {
        return;
      }
      ghost var s := Snap();
      o := SettleValue(slot, p, value);
      Chain(old(Snap()), s, Snap());
    }

    /** The parent half of settling an entry: evaluated, unwrapped and
        stored. */
    method SettleParent(slot: Slot, parent: Ptr) returns (p: Ptr, o: Outcome)
      requires Valid() && slot in entries && Visited(bound, parent) && NotOp(doc, parent)
      modifies this`refDatas, this`arrayDatas, this`tableDatas, this`entries, this`pending
      ensures Valid() && Advanced(old(Snap()))
      ensures Settled(doc, bound, p) && slot in entries
      ensures o.Pass? ==> entries[slot].parent == p && Unwrapped(doc, refDatas, parent) == Ok(p)
      ensures o.Fail? ==> p.None?
      decreases |pending|, 7
    {
      p, o := SettleField(parent);
      if o.Fail? {
        return;
      }
      ghost var s := Snap();
      StoreParent(slot, p);
      Chain(old(Snap()), s, Snap());
    }

    /** The value half of settling an entry, once its parent is stored. */
    method SettleValue(slot: Slot, p: Ptr, value: Ptr) returns (o: Outcome)
      requires Valid() && slot in entries
      requires Settled(doc, bound, p) && Visited(bound, value) && NotOp(doc, value)
      modifies this`refDatas, this`arrayDatas, this`tableDatas, this`entries, this`pending
      ensures Valid() && Advanced(old(Snap()))
      ensures o.Pass? ==> slot in entries && Unwrapped(doc, refDatas, value) == Ok(entries[slot].value)
      decreases |pending|, 7
    {
      var v;
      v, o := SettleField(value);
      if o.Fail? {
        return;
      }
      ghost var s := Snap();
      SlotStays(old(Snap()), s, slot);
      Adopt(slot, v, p);
      Chain(old(Snap()), s, Snap());
    }

    /** `item.value = valueExpr`, then the merge of the parent's entries
        into a table value. */
    method Adopt(slot: Slot, v: Ptr, p: Ptr)
      requires Valid() && slot in entries
      requires Settled(doc, bound, v) && Settled(doc, bound, p)
      modifies this`tableDatas, this`entries
      ensures Valid() && Advanced(old(Snap()))
      ensures slot in entries && entries[slot].value == v
      ensures refDatas == old(refDatas)
    {
      StoreEntry(slot, v);
      ghost var s := Snap();
      InheritFrom(v, p, slot);
      Chain(old(Snap()), s, Snap());
    }

    /** A table value inherits the entries of a table parent; any other
        value is left as it is. */
    method InheritFrom(v: Ptr, p: Ptr, ghost slot: Slot)
      requires Valid() && Settled(doc, bound, v) && Settled(doc, bound, p) && slot in entries
      modifies this`tableDatas, this`entries
      ensures Valid() && Advanced(old(Snap()))
      ensures EntriesKept(old(entries), entries)
      ensures slot in entries && entries[slot] == old(entries[slot]) && refDatas == old(refDatas)
      ensures !(v.Some? && doc[v.value].form.NTable? && p.Some? && doc[p.value].form.NTable?) ==> unchanged(this)
      ensures v.Some? && doc[v.value].form.NTable? && p.Some? && doc[p.value].form.NTable? ==>
        && v.value in tableDatas && tableDatas[v.value].evaluated
        && p.value in tableDatas && tableDatas[p.value].evaluated
    {
      if v.Some? && doc[v.value].form.NTable? && p.Some? && doc[p.value].form.NTable? {
        Inherit(v.value, p.value);
      }
    }

    /** The settled value `v` is stored in the entry at `slot`. */
    method StoreEntry(slot: Slot, v: Ptr)
      requires Valid() && slot in entries
      requires Settled(doc, bound, v)
      modifies this`entries
      ensures refDatas == old(refDatas)
      ensures Valid() && Advanced(old(Snap()))
      ensures entries == old(entries)[slot := old(entries)[slot].(value := v)]
      ensures bound == old(bound)
    {
      ghost var s := Snap();
      ghost var b := bound;
      entries := entries[slot := entries[slot].(value := v)];
      assert b == bound;
      EntryResultStep(doc, root, b, s, slot, v);
      assert Snap() == s.(entries := entries);
    }

    /** `evaluate` then `unwrap` on one of an entry's fields. */
    method SettleField(e: Ptr) returns (v: Ptr, o: Outcome)
      requires Valid() && Visited(bound, e) && NotOp(doc, e)
      modifies this`refDatas, this`arrayDatas, this`tableDatas, this`entries, this`pending
      ensures Valid() && Advanced(old(Snap()))
      ensures Settled(doc, bound, v)
      ensures o.Fail? ==> v.None?
      ensures o.Pass? ==> Unwrapped(doc, refDatas, e) == Ok(v)
      ensures o.Pass? && Concrete(doc, e) ==> v == e
      ensures o.Pass? && e.Some? && doc[e.value].form.NRef? ==> e.value in refDatas && v == refDatas[e.value].value
      ensures Concrete(doc, e) && !Container(doc, e) ==> o == Pass && v == e && unchanged(this)
      decreases |pending|, 6
    {
      v := None;
      o := EvaluateExpr(e);
      if o.Fail? {
        return;
      }
      ghost var s := Snap();
      v, o := Unwrap(e);
      Chain(old(Snap()), s, Snap());
    }

    /** Inheritance: the keys of both tables are evaluated (errors there are
        dropped), and table `c` gains each entry of table `p` whose key it
        lacks; its own entries are never replaced. */
    method Inherit(c: NodeId, p: NodeId)
      requires Valid() && c in bound && c < |doc| && doc[c].form.NTable? && p in bound && p < |doc| && doc[p].form.NTable?
      modifies this`tableDatas, this`entries
      ensures Valid() && Advanced(old(Snap())) && refDatas == old(refDatas)
      ensures tableDatas[c].evaluated && tableDatas[p].evaluated
      ensures EntriesKept(old(entries), entries)
      ensures forall k :: k in old(tableDatas[c].entries) ==> tableDatas[c].entries[k] == old(tableDatas[c].entries[k])
      decreases 0
    {
      InheritKeys(c, p);
      var m := MergeEntries(tableDatas[c].entries, tableDatas[p].entries);
      ghost var s := Snap();
      StoreMerge(c, p, m);
      Chain(old(Snap()), s, Snap());
    }

    /** The keys of tables `c` and `p`, evaluated for inheritance. */
    method InheritKeys(c: NodeId, p: NodeId)
      requires Valid() && c in bound && c < |doc| && doc[c].form.NTable? && p in bound && p < |doc| && doc[p].form.NTable?
      modifies this`tableDatas, this`entries
      ensures Valid() && Advanced(old(Snap())) && refDatas == old(refDatas)
      ensures tableDatas[c].evaluated && tableDatas[p].evaluated
      ensures EntriesKept(old(entries), entries)
      ensures forall k :: k in old(tableDatas[c].entries) ==> tableDatas[c].entries[k] == old(tableDatas[c].entries[k])
    {
      var _ := EvaluateTableKeys(c);
      ghost var s := Snap();
      var _ := EvaluateTableKeys(p);
      Chain(old(Snap()), s, Snap());
    }

    /** `evaluateTable`: the keys are evaluated, then each entry, in the
        nondeterministic order of Go's map iteration, over the keys the
        table had when the loop began. */
    method EvaluateTable(t: NodeId) returns (o: Outcome)
      requires Valid() && t in tableDatas && t in bound
      modifies this`refDatas, this`arrayDatas, this`tableDatas, this`entries, this`pending
      ensures Valid() && Advanced(old(Snap()))
      ensures tableDatas[t].evaluated
      ensures o.Pass? ==> forall k :: k in old(tableDatas[t].entries) ==> EntryDone(t, k)
      ensures o.Pass? && !old(tableDatas[t].evaluated) ==>
        forall j :: 0 <= j < |TableKeys(t)| ==> EntryDone(t, TableKeys(t)[j])
      decreases |pending|, 4
    {
      o := EvaluateTableKeys(t);
      if o.Fail? {
        return;
      }
      ghost var s := Snap();
      if !old(tableDatas[t].evaluated) {
        var keys := TableKeys(t);
        forall j | 0 <= j < |keys|
          ensures keys[j] in tableDatas[t].entries
        {
          KeyMapKeys(keys, t, |keys|, j);
        }
      }
      o := EvaluateEntries(t);
      Chain(old(Snap()), s, Snap());
    }

    /** The loop of `evaluateTable`, in the nondeterministic order of Go's
        map iteration, over the keys the table had when the loop began. */
    method EvaluateEntries(t: NodeId) returns (o: Outcome)
      requires Valid() && t in tableDatas && tableDatas[t].evaluated
      modifies this`refDatas, this`arrayDatas, this`tableDatas, this`entries, this`pending
      ensures Valid() && Advanced(old(Snap()))
      ensures o.Pass? ==> forall k :: k in old(tableDatas[t].entries) ==> EntryDone(t, k)
      decreases |pending|, 3
    {
      ghost var names := tableDatas[t].entries;
      var todo := tableDatas[t].entries.Keys;
      o := Pass;
      while todo != {}
        invariant Valid() && Advanced(old(Snap())) && |pending| <= |old(pending)|
        invariant t in tableDatas && tableDatas[t].evaluated && todo <= names.Keys
        invariant forall k :: k in names && k !in todo ==> EntryDone(t, k)
        decreases todo
      {
        var name :| name in todo;
        ghost var s := Snap();
        o := EvaluateEntry(t, name);
        Chain(old(Snap()), s, Snap());
        if o.Fail? {
          return;
        }
        DoneStays(s, Snap(), t, names.Keys, todo, name);
        todo := todo - {name};
      }
    }

    /** One round of the loop of `evaluateTable`. */
    method EvaluateEntry(t: NodeId, name: string) returns (o: Outcome)
      requires Valid() && t in tableDatas && tableDatas[t].evaluated && name in tableDatas[t].entries
      modifies this`refDatas, this`arrayDatas, this`tableDatas, this`entries, this`pending
      ensures Valid() && Advanced(old(Snap())) && |pending| <= |old(pending)|
      ensures t in tableDatas && tableDatas[t].evaluated && old(tableDatas[t].entries.Keys) <= tableDatas[t].entries.Keys
      ensures EntryDone(t, name)
      decreases |pending|, 2
    {
      ghost var s := Snap();
      o := EvaluateTableValue(t, name);
      KeysStay(s, Snap(), t);
    }

    /** `evaluate`: literals and nil need nothing; a reference, an array or
        a table is evaluated. Operators never reach here: `evaluate`
        panics on them. */
    method EvaluateExpr(p: Ptr) returns (o: Outcome)
      requires Valid() && Visited(bound, p) && NotOp(doc, p)
      modifies this`refDatas, this`arrayDatas, this`tableDatas, this`entries, this`pending
      ensures Valid() && Advanced(old(Snap()))
      ensures p.None? || !(doc[p.value].form.NRef? || doc[p.value].form.NArray? || doc[p.value].form.NTable?) ==>
        o == Pass && unchanged(this)
      ensures p.Some? && doc[p.value].form.NRef? ==> p.value in refDatas && refDatas[p.value].evaluated
      ensures p.Some? && doc[p.value].form.NArray? ==>
        && p.value in arrayDatas && arrayDatas[p.value].evaluated
        && (o.Pass? ==> forall i :: 0 <= i < |arrayDatas[p.value].items| ==> arrayDatas[p.value].items[i].evaluated)
      ensures p.Some? && doc[p.value].form.NTable? ==>
        && p.value in tableDatas && tableDatas[p.value].evaluated
        && (o.Pass? ==> forall k :: k in old(tableDatas[p.value].entries) ==> EntryDone(p.value, k))
        && (o.Pass? && !old(tableDatas[p.value].evaluated) ==>
              forall j :: 0 <= j < |TableKeys(p.value)| ==> EntryDone(p.value, TableKeys(p.value)[j]))
      decreases |pending|, 5
    {
      if p.None? {
        return Pass;
      }
      var n := p.value;
      match doc[n].form {
        case NRef(_, _) =>
          ghost var last;
          o, last := EvaluateRef(n);
        case NArray(_) =>
          o := EvaluateArray(n);
        case NTable(_) =>
          o := EvaluateTable(n);
        case _ =>
          o := Pass;
      }
    }
  }
}
