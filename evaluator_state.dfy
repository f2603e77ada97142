/** The records the evaluator keeps about the nodes of a document
    (internal/evaluator/evaluator.go:10-51), and the invariant that ties
    them to the document while evaluation runs. */
module EvaluatorState {
  import opened Wrappers
  import opened Syntax
  import opened Document

  /** `refData`: the root a reference starts from and the value it found. */
  datatype RefData = RefData(root: Ptr, value: Ptr, evaluated: bool)

  /** `opData`, recorded for operators but never evaluated. */
  datatype OpData = OpData(value: Ptr, evaluated: bool)

  /** `arrayDataItem` and `arrayData`. */
  datatype ArrayItem = ArrayItem(value: Ptr, evaluated: bool)
  datatype ArrayData = ArrayData(items: seq<ArrayItem>, evaluated: bool)

  /** A `*tableDataItem` is named by the table item that created it, so an
      entry merged into another table is the same entry in both. */
  datatype Slot = Slot(table: NodeId, index: nat)
  datatype TableEntry = TableEntry(parent: Ptr, value: Ptr, evaluated: bool)
  datatype TableData = TableData(entries: map<string, Slot>, evaluated: bool)

  /** One memo flag: a reference's, an array item's or a table entry's. */
  datatype Flag = RefFlag(ref: NodeId) | ItemFlag(array: NodeId, index: nat) | EntryFlag(slot: Slot)

  /** The part of the evaluator's state that evaluation changes, with the
      flags not yet set (a ghost measure that only shrinks). */
  datatype State = State(
    refs: map<NodeId, RefData>,
    arrays: map<NodeId, ArrayData>,
    tables: map<NodeId, TableData>,
    entries: map<Slot, TableEntry>,
    pending: set<Flag>)

  /** Evaluation only moves forward: no record appears or disappears, an
      array whose indices are evaluated keeps them and an item's flag stays
      set, a table whose keys are evaluated keeps them and each key
      naming the same entry, no entry disappears, and the unset flags only
      shrink. */
  ghost predicate Grows(s0: State, s1: State) {
    && s1.refs.Keys == s0.refs.Keys
    && s1.arrays.Keys == s0.arrays.Keys
    && s1.tables.Keys == s0.tables.Keys
    && s0.entries.Keys <= s1.entries.Keys
    && (forall u :: u in s0.entries && s0.entries[u].evaluated ==> u in s1.entries && s1.entries[u].evaluated)
    && s1.pending <= s0.pending && |s1.pending| <= |s0.pending|
    && (forall a :: a in s0.arrays && s0.arrays[a].evaluated ==>
          s1.arrays[a].evaluated && |s1.arrays[a].items| == |s0.arrays[a].items|)
    && (forall a, i :: a in s0.arrays && 0 <= i < |s0.arrays[a].items| && s0.arrays[a].items[i].evaluated ==>
          a in s1.arrays && i < |s1.arrays[a].items| && s1.arrays[a].items[i].evaluated)
    && (forall t :: t in s0.tables && s0.tables[t].evaluated ==> t in s1.tables && s1.tables[t].evaluated)
    && (forall t, k :: t in s0.tables && k in s0.tables[t].entries ==>
          t in s1.tables && k in s1.tables[t].entries && s1.tables[t].entries[k] == s0.tables[t].entries[k])
  }

  lemma GrowsTrans(s0: State, s1: State, s2: State)
    requires Grows(s0, s1) && Grows(s1, s2)
    ensures Grows(s0, s2)
  {
  }

  /** A subset is no larger than its superset. */
  lemma {:induction false} SubsetCard<T>(a: set<T>, b: set<T>)
    requires a <= b
    ensures |a| <= |b|
    decreases |a|
  {
    if a != {} {
      var x :| x in a;
      SubsetCard(a - {x}, b - {x});
    }
  }

  /** Removing a member takes one off the size. */
  lemma RemoveCard<T>(a: set<T>, x: T)
    requires x in a
    ensures |a - {x}| == |a| - 1
  {
    assert a == (a - {x}) + {x};
  }

  /** A prefix of evaluated items stays evaluated as the state grows, and
      grows by one when the next item is evaluated too. */
  lemma PrefixStaysSet(s0: State, s1: State, a: NodeId, n: nat)
    requires Grows(s0, s1) && a in s0.arrays && n < |s0.arrays[a].items|
    requires forall j :: 0 <= j < n ==> s0.arrays[a].items[j].evaluated
    requires a in s1.arrays && n < |s1.arrays[a].items| && s1.arrays[a].items[n].evaluated
    ensures forall j :: 0 <= j < n + 1 ==> s1.arrays[a].items[j].evaluated
  {
  }

  /** An evaluated table stays evaluated and keeps its keys as the state
      grows. */
  lemma KeysStay(s0: State, s1: State, t: NodeId)
    requires Grows(s0, s1) && t in s0.tables
    ensures t in s1.tables && s0.tables[t].entries.Keys <= s1.tables[t].entries.Keys
    ensures s0.tables[t].evaluated ==> s1.tables[t].evaluated
  {
  }

  /** An entry stays as the state grows. */
  lemma SlotStays(s0: State, s1: State, u: Slot)
    requires Grows(s0, s1) && u in s0.entries
    ensures u in s1.entries
  {
  }

  /** A key of a table goes on naming the same entry as the state grows. */
  lemma KeyStays(s0: State, s1: State, t: NodeId, k: string)
    requires Grows(s0, s1) && t in s0.tables && k in s0.tables[t].entries
    ensures t in s1.tables && k in s1.tables[t].entries && s1.tables[t].entries[k] == s0.tables[t].entries[k]
  {
  }

  /** Key `k` of table `t` names an entry whose flag is set. */
  ghost predicate Done(s: State, t: NodeId, k: string) {
    && t in s.tables && k in s.tables[t].entries && s.tables[t].entries[k] in s.entries
    && s.entries[s.tables[t].entries[k]].evaluated
  }

  /** The keys of `ks` not left in `todo` name evaluated entries, and
      stay so as the state grows; a key whose entry is now evaluated
      leaves `todo`. */
  lemma DoneStays(s0: State, s1: State, t: NodeId, ks: set<string>, todo: set<string>, k: string)
    requires Grows(s0, s1) && forall j :: j in ks && j !in todo ==> Done(s0, t, j)
    requires Done(s1, t, k)
    ensures forall j :: j in ks && j !in todo - {k} ==> Done(s1, t, j)
  {
  }

  /** The items `evaluateArrayIndices` creates: one unevaluated item per
      source item, holding it. */
  function FreshItems(items: seq<NodeId>): (r: seq<ArrayItem>)
    ensures |r| == |items|
    ensures forall i :: 0 <= i < |r| ==> r[i] == ArrayItem(Some(items[i]), false)
  {
    seq(|items|, i requires 0 <= i < |items| => ArrayItem(Some(items[i]), false))
  }

  /** The entries `evaluateTableKeys` creates for the first `n` items of
      table `t`: unevaluated, holding the item's parent and value. */
  function NewEntries(t: NodeId, items: seq<Item>, n: nat): (r: map<Slot, TableEntry>)
    requires n <= |items|
    ensures forall s :: s in r <==> s.table == t && s.index < n
    ensures forall j :: 0 <= j < n ==> r[Slot(t, j)] == TableEntry(items[j].parent, Some(items[j].value), false)
  {
    if n == 0 then map[]
    else NewEntries(t, items, n - 1)[Slot(t, n - 1) := TableEntry(items[n - 1].parent, Some(items[n - 1].value), false)]
  }

  /** The `parent` `Evaluate` hands to `bind`: the root when it is a
      table, nil otherwise (internal/evaluator/evaluator.go:67-71). */
  function Scope(doc: seq<Node>, root: NodeId): Ptr
    requires root < |doc|
  {
    if doc[root].form.NTable? then Some(root) else None
  }

  /** The root `bind` gives a reference with modifier `m` under `parent`. */
  function RootOf(root: NodeId, m: RefModifier, parent: Ptr): Ptr {
    if m == RefAbsolute then Some(root) else parent
  }

  /** `p` is nil or a node `bind` visited. */
  ghost predicate Visited(b: set<NodeId>, p: Ptr) {
    p.None? || p.value in b
  }

  predicate Concrete(doc: seq<Node>, p: Ptr) {
    p.None? || (p.value < |doc| && IsConcrete(doc[p.value].form))
  }

  /** `e1` is `e0` with the value of the entry in slot `s` set to `v`. */
  ghost predicate ValueStored(e0: map<Slot, TableEntry>, e1: map<Slot, TableEntry>, s: Slot, v: Ptr) {
    s in e0 && e1 == e0[s := e0[s].(value := v)]
  }

  /** `p` is nil or a visited concrete node: a value evaluation has
      settled. */
  ghost predicate Settled(doc: seq<Node>, b: set<NodeId>, p: Ptr) {
    Visited(b, p) && Concrete(doc, p)
  }

  /** `p` is an array or a table: a value a key can index. */
  predicate Container(doc: seq<Node>, p: Ptr) {
    p.Some? && p.value < |doc| && (doc[p.value].form.NArray? || doc[p.value].form.NTable?)
  }

  /** Every entry of `e0` is in `e1`, unchanged. */
  ghost predicate EntriesKept(e0: map<Slot, TableEntry>, e1: map<Slot, TableEntry>) {
    forall u :: u in e0 ==> u in e1 && e1[u] == e0[u]
  }

  predicate NotOp(doc: seq<Node>, p: Ptr) {
    p.None? || ValueAt(doc, p.value)
  }

  /** The records of `bind`, not yet touched by evaluation, for a walk
      under `parent`: every visited node has the record its form calls
      for, each in its initial state, and no table entry exists yet. */
  ghost predicate FreshRecords(
    doc: seq<Node>, root: NodeId, b: set<NodeId>,
    refs: map<NodeId, RefData>, unaries: map<NodeId, OpData>, binaries: map<NodeId, OpData>,
    arrays: map<NodeId, ArrayData>, tables: map<NodeId, TableData>, entries: map<Slot, TableEntry>,
    parent: Ptr)
  {
    && Closed(doc, b)
    && RefsCovered(doc, refs.Keys, b) && OpsCovered(doc, unaries.Keys, binaries.Keys, b)
    && ArraysCovered(doc, arrays.Keys, b) && TablesCovered(doc, tables.Keys, b)
    && RefsUnbound(doc, root, refs, parent)
    && OpsUnbound(unaries, binaries)
    && ArraysUnbound(doc, arrays)
    && TablesUnbound(doc, tables)
    && entries == map[]
  }

  /** Creating the initial record of node `id` keeps the records fresh. */
  lemma FreshRecord(
    doc: seq<Node>, root: NodeId, b: set<NodeId>,
    refs: map<NodeId, RefData>, unaries: map<NodeId, OpData>, binaries: map<NodeId, OpData>,
    arrays: map<NodeId, ArrayData>, tables: map<NodeId, TableData>, entries: map<Slot, TableEntry>,
    parent: Ptr, id: NodeId)
    requires FreshRecords(doc, root, b, refs, unaries, binaries, arrays, tables, entries, parent) && id < |doc|
    ensures var f := doc[id].form;
      FreshRecords(doc, root, b,
        if f.NRef? then refs[id := RefData(RootOf(root, f.modifier, parent), None, false)] else refs,
        if f.NUnary? then unaries[id := OpData(None, false)] else unaries,
        if f.NBinary? then binaries[id := OpData(None, false)] else binaries,
        if f.NArray? then arrays[id := ArrayData([], false)] else arrays,
        if f.NTable? then tables[id := TableData(map[], false)] else tables,
        entries, parent)
    ensures var f := doc[id].form;
      var k1 := RecordKeys(
        (if f.NRef? then refs[id := RefData(RootOf(root, f.modifier, parent), None, false)] else refs).Keys,
        (if f.NUnary? then unaries[id := OpData(None, false)] else unaries).Keys,
        (if f.NBinary? then binaries[id := OpData(None, false)] else binaries).Keys,
        (if f.NArray? then arrays[id := ArrayData([], false)] else arrays).Keys,
        (if f.NTable? then tables[id := TableData(map[], false)] else tables).Keys);
      KeysKept(RecordKeys(refs.Keys, unaries.Keys, binaries.Keys, arrays.Keys, tables.Keys), k1)
      && RecordIn(doc, id, k1)
  {
  }

  /** The nodes that have a record, by kind of record. */
  datatype RecordKeys = RecordKeys(
    refs: set<NodeId>, unaries: set<NodeId>, binaries: set<NodeId>, arrays: set<NodeId>, tables: set<NodeId>)

  /** Each set of records on the left is kept on the right. */
  ghost predicate KeysKept(k0: RecordKeys, k1: RecordKeys) {
    && k0.refs <= k1.refs && k0.unaries <= k1.unaries && k0.binaries <= k1.binaries
    && k0.arrays <= k1.arrays && k0.tables <= k1.tables
  }

  /** Node `n` has the record its form calls for. */
  ghost predicate RecordIn(doc: seq<Node>, n: NodeId, k: RecordKeys) {
    n < |doc| &&
    match doc[n].form
    case NRef(_, _) => n in k.refs
    case NUnary(_, _) => n in k.unaries
    case NBinary(_, _, _) => n in k.binaries
    case NArray(_) => n in k.arrays
    case NTable(_) => n in k.tables
    case _ => true
  }

  /** Two steps that keep the records keep them, and a node's record. */
  lemma KeysStep(doc: seq<Node>, n: NodeId, k0: RecordKeys, k1: RecordKeys, k2: RecordKeys)
    requires KeysKept(k0, k1) && KeysKept(k1, k2) && RecordIn(doc, n, k1)
    ensures KeysKept(k0, k2) && RecordIn(doc, n, k2)
  {
  }

  /** Marking node `id` visited, once it has its record and its children
      are visited, keeps the records fresh. */
  lemma FreshVisit(
    doc: seq<Node>, root: NodeId, b: set<NodeId>,
    refs: map<NodeId, RefData>, unaries: map<NodeId, OpData>, binaries: map<NodeId, OpData>,
    arrays: map<NodeId, ArrayData>, tables: map<NodeId, TableData>, entries: map<Slot, TableEntry>,
    parent: Ptr, id: NodeId)
    requires FreshRecords(doc, root, b, refs, unaries, binaries, arrays, tables, entries, parent) && id < |doc|
    requires ChildrenIn(doc[id].form, b)
    requires RecordIn(doc, id, RecordKeys(refs.Keys, unaries.Keys, binaries.Keys, arrays.Keys, tables.Keys))
    ensures FreshRecords(doc, root, b + {id}, refs, unaries, binaries, arrays, tables, entries, parent)
  {
    ClosedAdd(doc, b, id);
  }

  ghost predicate RefsUnbound(doc: seq<Node>, root: NodeId, refs: map<NodeId, RefData>, parent: Ptr) {
    forall r :: r in refs ==>
      r < |doc| && doc[r].form.NRef? && refs[r] == RefData(RootOf(root, doc[r].form.modifier, parent), None, false)
  }

  ghost predicate OpsUnbound(unaries: map<NodeId, OpData>, binaries: map<NodeId, OpData>) {
    && (forall n :: n in unaries ==> unaries[n] == OpData(None, false))
    && (forall n :: n in binaries ==> binaries[n] == OpData(None, false))
  }

  ghost predicate ArraysUnbound(doc: seq<Node>, arrays: map<NodeId, ArrayData>) {
    forall a :: a in arrays ==> a < |doc| && doc[a].form.NArray? && arrays[a] == ArrayData([], false)
  }

  ghost predicate TablesUnbound(doc: seq<Node>, tables: map<NodeId, TableData>) {
    forall t :: t in tables ==> t < |doc| && doc[t].form.NTable? && tables[t] == TableData(map[], false)
  }

  /** Every reference in `b` has a record in `refs`; */
  ghost predicate RefsCovered(doc: seq<Node>, refs: set<NodeId>, b: set<NodeId>) {
    forall n :: n in b && n < |doc| && doc[n].form.NRef? ==> n in refs
  }

  /** every operator one in `unaries` or `binaries`; */
  ghost predicate OpsCovered(doc: seq<Node>, unaries: set<NodeId>, binaries: set<NodeId>, b: set<NodeId>) {
    && (forall n :: n in b && n < |doc| && doc[n].form.NUnary? ==> n in unaries)
    && (forall n :: n in b && n < |doc| && doc[n].form.NBinary? ==> n in binaries)
  }

  /** every array one in `arrays`; */
  ghost predicate ArraysCovered(doc: seq<Node>, arrays: set<NodeId>, b: set<NodeId>) {
    forall n :: n in b && n < |doc| && doc[n].form.NArray? ==> n in arrays
  }

  /** and every table one in `tables`. */
  ghost predicate TablesCovered(doc: seq<Node>, tables: set<NodeId>, b: set<NodeId>) {
    forall n :: n in b && n < |doc| && doc[n].form.NTable? ==> n in tables
  }

  /** A reference keeps the root `bind` gave it, and its value is nil or
      concrete. */
  ghost predicate RefOk(doc: seq<Node>, root: NodeId, b: set<NodeId>, r: NodeId, d: RefData) {
    && r < |doc| && doc[r].form.NRef?
    && d.root == RootOf(root, doc[r].form.modifier, if root < |doc| then Scope(doc, root) else None)
    && Visited(b, d.value) && Concrete(doc, d.value)
  }

  ghost predicate RefsOk(doc: seq<Node>, root: NodeId, refs: map<NodeId, RefData>, b: set<NodeId>) {
    && RefsCovered(doc, refs.Keys, b)
    && forall r :: r in refs ==> RefOk(doc, root, b, r, refs[r])
  }

  /** An array's items exist once its indices are evaluated, one per
      source item, and hold values that are not operators. */
  ghost predicate ArrayOk(doc: seq<Node>, b: set<NodeId>, a: NodeId, d: ArrayData) {
    && a < |doc| && doc[a].form.NArray?
    && (if d.evaluated then |d.items| == |doc[a].form.items| else d.items == [])
    && forall i :: 0 <= i < |d.items| ==> Visited(b, d.items[i].value) && NotOp(doc, d.items[i].value)
  }

  ghost predicate ArraysOk(doc: seq<Node>, arrays: map<NodeId, ArrayData>, b: set<NodeId>) {
    && ArraysCovered(doc, arrays.Keys, b)
    && forall a :: a in arrays ==> ArrayOk(doc, b, a, arrays[a])
  }

  /** An entry holds values that are not operators. */
  ghost predicate EntryOk(doc: seq<Node>, b: set<NodeId>, e: TableEntry) {
    Visited(b, e.parent) && NotOp(doc, e.parent) && Visited(b, e.value) && NotOp(doc, e.value)
  }

  /** An entry exists only once the keys of the table that created it are
      evaluated, and names one of that table's items. */
  ghost predicate SlotOk(doc: seq<Node>, tables: map<NodeId, TableData>, s: Slot) {
    && s.table in tables && tables[s.table].evaluated
    && s.table < |doc| && doc[s.table].form.NTable? && s.index < |doc[s.table].form.tableItems|
  }

  /** A table has keys only once they are evaluated, and its keys name
      existing entries. */
  ghost predicate TablesOk(doc: seq<Node>, tables: map<NodeId, TableData>, entries: map<Slot, TableEntry>, b: set<NodeId>) {
    && TablesCovered(doc, tables.Keys, b)
    && TablesTyped(doc, tables)
    && KeysLinked(tables, entries)
    && EntriesOk(doc, tables, entries, b)
  }

  ghost predicate TablesTyped(doc: seq<Node>, tables: map<NodeId, TableData>) {
    forall t :: t in tables ==> t < |doc| && doc[t].form.NTable? && (tables[t].evaluated || tables[t].entries == map[])
  }

  ghost predicate KeysLinked(tables: map<NodeId, TableData>, entries: map<Slot, TableEntry>) {
    forall t, k :: t in tables && k in tables[t].entries ==> tables[t].entries[k] in entries
  }

  ghost predicate EntriesOk(doc: seq<Node>, tables: map<NodeId, TableData>, entries: map<Slot, TableEntry>, b: set<NodeId>) {
    forall s :: s in entries ==> EntryOk(doc, b, entries[s]) && SlotOk(doc, tables, s)
  }

  /** The flags not yet set are pending: a reference's, */
  ghost predicate RefsTracked(refs: map<NodeId, RefData>, pending: set<Flag>) {
    forall r :: r in refs && !refs[r].evaluated ==> RefFlag(r) in pending
  }

  ghost predicate ItemUnset(doc: seq<Node>, a: NodeId, d: ArrayData, i: nat) {
    && a < |doc| && doc[a].form.NArray? && i < |doc[a].form.items|
    && (!d.evaluated || (i < |d.items| && !d.items[i].evaluated))
  }

  /** an array item's (all of them, before the indices exist), */
  ghost predicate ItemsTracked(doc: seq<Node>, arrays: map<NodeId, ArrayData>, pending: set<Flag>) {
    forall a, i: nat :: a in arrays && ItemUnset(doc, a, arrays[a], i) ==> ItemFlag(a, i) in pending
  }

  ghost predicate EntryUnset(doc: seq<Node>, tables: map<NodeId, TableData>, entries: map<Slot, TableEntry>, s: Slot) {
    && s.table in tables && s.table < |doc| && doc[s.table].form.NTable? && s.index < |doc[s.table].form.tableItems|
    && (!tables[s.table].evaluated || (s in entries && !entries[s].evaluated))
  }

  /** and a table entry's (all of them, before the keys exist). */
  ghost predicate EntriesTracked(doc: seq<Node>, tables: map<NodeId, TableData>, entries: map<Slot, TableEntry>, pending: set<Flag>) {
    forall s :: EntryUnset(doc, tables, entries, s) ==> EntryFlag(s) in pending
  }

  /** The evaluation state `s` of document `doc` with root `root` is
      consistent with the nodes `b` that `bind` visited. */
  ghost predicate Good(doc: seq<Node>, root: NodeId, s: State, b: set<NodeId>) {
    && RefsOk(doc, root, s.refs, b)
    && ArraysOk(doc, s.arrays, b)
    && TablesOk(doc, s.tables, s.entries, b)
    && RefsTracked(s.refs, s.pending)
    && ItemsTracked(doc, s.arrays, s.pending)
    && EntriesTracked(doc, s.tables, s.entries, s.pending)
  }

  /** The whole invariant: a well-formed, evaluable document, the nodes
      `b` that `bind` visited from the root, and a consistent state. */
  ghost predicate Consistent(doc: seq<Node>, root: NodeId, b: set<NodeId>, s: State) {
    && WellFormed(doc) && Evaluable(doc, root)
    && root in b && Closed(doc, b)
    && Good(doc, root, s, b)
  }

  /** Every memo flag of `doc`, unset: the flags a fresh evaluation has
      ahead of it. */
  ghost function AllFlags(doc: seq<Node>): set<Flag> {
    (set r: nat | r < |doc| :: RefFlag(r))
    + (set a: nat, i: nat | a < |doc| && doc[a].form.NArray? && i < |doc[a].form.items| :: ItemFlag(a, i))
    + (set t: nat, i: nat | t < |doc| && doc[t].form.NTable? && i < |doc[t].form.tableItems| :: EntryFlag(Slot(t, i)))
  }

  /** The records `bind` leaves from the root, with every flag pending,
      are a consistent state to start evaluating from. */
  lemma FreshConsistent(
    doc: seq<Node>, root: NodeId, b: set<NodeId>,
    refs: map<NodeId, RefData>, unaries: map<NodeId, OpData>, binaries: map<NodeId, OpData>,
    arrays: map<NodeId, ArrayData>, tables: map<NodeId, TableData>, entries: map<Slot, TableEntry>)
    requires WellFormed(doc) && Evaluable(doc, root) && root in b
    requires FreshRecords(doc, root, b, refs, unaries, binaries, arrays, tables, entries, Scope(doc, root))
    ensures Consistent(doc, root, b, State(refs, arrays, tables, entries, AllFlags(doc)))
  {
  }
}
