/** The updates `evaluateArrayIndices` and `evaluateTableKeys` make, and
    why each keeps the evaluator's records consistent. */
module EvaluatorSteps {
  import opened Wrappers
  import opened Syntax
  import opened Document
  import opened EvaluatorState

  /** `Consistent`, as one fact a caller proves in one piece. */
  ghost predicate Sound(doc: seq<Node>, root: NodeId, b: set<NodeId>, s: State) {
    Consistent(doc, root, b, s)
  }

  /** Moving from state `s` to `s'` keeps the records consistent and only
      moves evaluation forward. */
  ghost predicate Step(doc: seq<Node>, root: NodeId, b: set<NodeId>, s: State, s': State) {
    Consistent(doc, root, b, s') && Grows(s, s')
  }

  /** A table whose keys are not evaluated has no entries yet. */
  lemma NoEntriesYet(doc: seq<Node>, root: NodeId, b: set<NodeId>, s: State, t: NodeId)
    requires Sound(doc, root, b, s) && t in s.tables && !s.tables[t].evaluated
    ensures forall u :: u in s.entries ==> u.table != t
  {
    forall u | u in s.entries
      ensures u.table != t
    {
      assert SlotOk(doc, s.tables, u);
    }
  }

  /** Giving an array its items keeps the state consistent. */
  lemma IndicesGood(doc: seq<Node>, root: NodeId, s: State, b: set<NodeId>, a: NodeId)
    requires Sound(doc, root, b, s)
    requires a in s.arrays && a in b && !s.arrays[a].evaluated
    ensures var s' := s.(arrays := s.arrays[a := ArrayData(FreshItems(doc[a].form.items), true)]);
      Step(doc, root, b, s, s')
  {
    var items := doc[a].form.items;
    var arrays' := s.arrays[a := ArrayData(FreshItems(items), true)];
    assert ChildrenIn(doc[a].form, b);
    assert NodeEvaluable(doc, doc[a].form);
    assert forall i :: 0 <= i < |items| ==> items[i] in b && ValueAt(doc, items[i]);
    assert ArraysOk(doc, arrays', b);
    IndicesTracked(doc, s.arrays, s.pending, a);
    ArraysReplaced(doc, root, b, s, arrays');
  }

  lemma IndicesTracked(doc: seq<Node>, arrays: map<NodeId, ArrayData>, pending: set<Flag>, a: NodeId)
    requires ItemsTracked(doc, arrays, pending)
    requires a in arrays && !arrays[a].evaluated && a < |doc| && doc[a].form.NArray?
    ensures ItemsTracked(doc, arrays[a := ArrayData(FreshItems(doc[a].form.items), true)], pending)
  {
    assert forall i :: 0 <= i < |doc[a].form.items| ==> ItemUnset(doc, a, arrays[a], i);
  }

  /** Replacing the arrays by ones that are consistent on their own keeps
      the whole state consistent, and is a step forward when no evaluated
      array changes. */
  lemma ArraysReplaced(doc: seq<Node>, root: NodeId, b: set<NodeId>, s: State, arrays: map<NodeId, ArrayData>)
    requires Sound(doc, root, b, s)
    requires ArraysOk(doc, arrays, b) && ItemsTracked(doc, arrays, s.pending)
    requires arrays.Keys == s.arrays.Keys
    requires forall a :: a in s.arrays && s.arrays[a].evaluated ==> arrays[a] == s.arrays[a]
    ensures Step(doc, root, b, s, s.(arrays := arrays))
  {
  }

  /** Giving a table keys that name the entries of its first `n` items,
      and those entries, keeps the state consistent. */
  lemma KeysGood(doc: seq<Node>, root: NodeId, s: State, b: set<NodeId>, t: NodeId, m: map<string, Slot>, n: nat)
    requires Sound(doc, root, b, s)
    requires t in s.tables && t in b && !s.tables[t].evaluated && n <= |doc[t].form.tableItems|
    requires forall k :: k in m ==> m[k].table == t && m[k].index < n
    ensures var s' := s.(tables := s.tables[t := TableData(m, true)],
                         entries := s.entries + NewEntries(t, doc[t].form.tableItems, n));
      Step(doc, root, b, s, s')
  {
    var items := doc[t].form.tableItems;
    var tables' := s.tables[t := TableData(m, true)];
    var entries' := s.entries + NewEntries(t, items, n);
    assert forall u :: u in s.entries ==> u.table != t;
    assert ChildrenIn(doc[t].form, b);
    assert NodeEvaluable(doc, doc[t].form);
    KeysLinkedAdd(doc, s.tables, s.entries, t, m, n);
    KeysEntriesOk(doc, s.tables, s.entries, b, t, m, n);
    KeysTracked(doc, s.tables, s.entries, s.pending, t, m, n);
    assert TablesCovered(doc, tables'.Keys, b) && TablesTyped(doc, tables');
    assert s.tables[t].entries == map[];
    TablesReplaced(doc, root, b, s, tables', entries');
    KeysGrow(s, t, m, entries');
  }

  /** Giving an unevaluated table keys, and adding entries, is a step
      forward. */
  lemma KeysGrow(s: State, t: NodeId, m: map<string, Slot>, entries: map<Slot, TableEntry>)
    requires t in s.tables && s.tables[t].entries == map[] && s.entries.Keys <= entries.Keys
    requires forall u :: u in s.entries ==> entries[u] == s.entries[u]
    ensures Grows(s, s.(tables := s.tables[t := TableData(m, true)], entries := entries))
  {
  }

  /** Replacing the tables and entries by ones that are consistent on their
      own keeps the whole state consistent. */
  lemma TablesReplaced(doc: seq<Node>, root: NodeId, b: set<NodeId>, s: State,
                       tables: map<NodeId, TableData>, entries: map<Slot, TableEntry>)
    requires Sound(doc, root, b, s)
    requires TablesOk(doc, tables, entries, b) && EntriesTracked(doc, tables, entries, s.pending)
    ensures Consistent(doc, root, b, s.(tables := tables, entries := entries))
  {
  }

  lemma KeysLinkedAdd(doc: seq<Node>, tables: map<NodeId, TableData>, entries: map<Slot, TableEntry>, t: NodeId, m: map<string, Slot>, n: nat)
    requires KeysLinked(tables, entries)
    requires t < |doc| && doc[t].form.NTable? && n <= |doc[t].form.tableItems|
    requires forall k :: k in m ==> m[k].table == t && m[k].index < n
    ensures KeysLinked(tables[t := TableData(m, true)], entries + NewEntries(t, doc[t].form.tableItems, n))
  {
    var tables' := tables[t := TableData(m, true)];
    var added := NewEntries(t, doc[t].form.tableItems, n);
    forall u, k | u in tables' && k in tables'[u].entries
      ensures tables'[u].entries[k] in entries + added
    {
      if u == t {
        assert m[k].table == t && m[k].index < n;
      }
    }
  }

  lemma KeysEntriesOk(doc: seq<Node>, tables: map<NodeId, TableData>, entries: map<Slot, TableEntry>, b: set<NodeId>, t: NodeId, m: map<string, Slot>, n: nat)
    requires EntriesOk(doc, tables, entries, b)
    requires t < |doc| && doc[t].form.NTable? && n <= |doc[t].form.tableItems|
    requires ChildrenIn(doc[t].form, b) && NodeEvaluable(doc, doc[t].form)
    requires forall u :: u in entries ==> u.table != t
    ensures EntriesOk(doc, tables[t := TableData(m, true)], entries + NewEntries(t, doc[t].form.tableItems, n), b)
  {
    var items := doc[t].form.tableItems;
    var tables' := tables[t := TableData(m, true)];
    var added := NewEntries(t, items, n);
    var entries' := entries + added;
    forall s | s in entries'
      ensures EntryOk(doc, b, entries'[s]) && SlotOk(doc, tables', s)
    {
      if s in added {
        assert ItemIn(items[s.index], b) && ItemEvaluable(doc, items[s.index]);
      }
    }
  }

  lemma KeysTracked(doc: seq<Node>, tables: map<NodeId, TableData>, entries: map<Slot, TableEntry>, pending: set<Flag>, t: NodeId, m: map<string, Slot>, n: nat)
    requires EntriesTracked(doc, tables, entries, pending)
    requires t in tables && !tables[t].evaluated && t < |doc| && doc[t].form.NTable? && n <= |doc[t].form.tableItems|
    requires forall u :: u in entries ==> u.table != t
    ensures EntriesTracked(doc, tables[t := TableData(m, true)], entries + NewEntries(t, doc[t].form.tableItems, n), pending)
  {
    assert forall j :: 0 <= j < |doc[t].form.tableItems| ==> EntryUnset(doc, tables, entries, Slot(t, j));
  }

  // ------------------------------------------------------------------
  // References

  /** Setting the flag of an unevaluated reference. */
  lemma RefFlagStep(doc: seq<Node>, root: NodeId, b: set<NodeId>, s: State, r: NodeId)
    requires Sound(doc, root, b, s) && r in s.refs && !s.refs[r].evaluated
    ensures Step(doc, root, b, s, s.(refs := s.refs[r := s.refs[r].(evaluated := true)], pending := s.pending - {RefFlag(r)}))
  {
    var refs' := s.refs[r := s.refs[r].(evaluated := true)];
    var pending' := s.pending - {RefFlag(r)};
    assert RefsOk(doc, root, refs', b);
    RefFlagTracked(s.refs, s.pending, r);
    OtherFlagItems(doc, s.arrays, s.pending, RefFlag(r));
    OtherFlagEntries(doc, s.tables, s.entries, s.pending, RefFlag(r));
    RefsGrow(s, refs', pending');
  }

  lemma RefFlagTracked(refs: map<NodeId, RefData>, pending: set<Flag>, r: NodeId)
    requires RefsTracked(refs, pending) && r in refs
    ensures RefsTracked(refs[r := refs[r].(evaluated := true)], pending - {RefFlag(r)})
  {
  }

  /** Changing the contents of existing references only is a step
      forward. */
  lemma RefsGrow(s: State, refs: map<NodeId, RefData>, pending: set<Flag>)
    requires refs.Keys == s.refs.Keys && pending <= s.pending
    ensures Grows(s, s.(refs := refs, pending := pending))
  {
    SubsetCard(pending, s.pending);
  }

  /** Setting a flag of one kind leaves the others tracked. */
  lemma OtherFlagRefs(refs: map<NodeId, RefData>, pending: set<Flag>, f: Flag)
    requires RefsTracked(refs, pending) && !f.RefFlag?
    ensures RefsTracked(refs, pending - {f})
  {
  }

  lemma OtherFlagItems(doc: seq<Node>, arrays: map<NodeId, ArrayData>, pending: set<Flag>, f: Flag)
    requires ItemsTracked(doc, arrays, pending) && !f.ItemFlag?
    ensures ItemsTracked(doc, arrays, pending - {f})
  {
  }

  lemma OtherFlagEntries(doc: seq<Node>, tables: map<NodeId, TableData>, entries: map<Slot, TableEntry>, pending: set<Flag>, f: Flag)
    requires EntriesTracked(doc, tables, entries, pending) && !f.EntryFlag?
    ensures EntriesTracked(doc, tables, entries, pending - {f})
  {
  }

  /** Storing a concrete value in a reference. */
  lemma RefValueStep(doc: seq<Node>, root: NodeId, b: set<NodeId>, s: State, r: NodeId, v: Ptr)
    requires Sound(doc, root, b, s) && r in s.refs && Visited(b, v) && Concrete(doc, v)
    ensures Step(doc, root, b, s, s.(refs := s.refs[r := s.refs[r].(value := v)]))
  {
    var refs' := s.refs[r := s.refs[r].(value := v)];
    RefValueOk(doc, root, b, s.refs, r, v);
    RefValueTracked(s.refs, s.pending, r, v);
    RefsGrow(s, refs', s.pending);
  }

  lemma RefValueOk(doc: seq<Node>, root: NodeId, b: set<NodeId>, refs: map<NodeId, RefData>, r: NodeId, v: Ptr)
    requires RefsOk(doc, root, refs, b) && r in refs && Visited(b, v) && Concrete(doc, v)
    ensures RefsOk(doc, root, refs[r := refs[r].(value := v)], b)
  {
  }

  lemma RefValueTracked(refs: map<NodeId, RefData>, pending: set<Flag>, r: NodeId, v: Ptr)
    requires RefsTracked(refs, pending) && r in refs
    ensures RefsTracked(refs[r := refs[r].(value := v)], pending)
  {
  }

  // ------------------------------------------------------------------
  // Array items

  /** Setting the flag of an unevaluated item of an array whose indices
      are evaluated. */
  lemma ItemFlagStep(doc: seq<Node>, root: NodeId, b: set<NodeId>, s: State, a: NodeId, i: nat)
    requires Sound(doc, root, b, s) && a in s.arrays && s.arrays[a].evaluated
    requires i < |s.arrays[a].items| && !s.arrays[a].items[i].evaluated
    ensures var items := s.arrays[a].items;
      Step(doc, root, b, s, s.(arrays := s.arrays[a := ArrayData(items[i := items[i].(evaluated := true)], true)],
                               pending := s.pending - {ItemFlag(a, i)}))
  {
    var items := s.arrays[a].items;
    var arrays' := s.arrays[a := ArrayData(items[i := items[i].(evaluated := true)], true)];
    var pending' := s.pending - {ItemFlag(a, i)};
    assert ArraysOk(doc, arrays', b);
    ItemFlagTracked(doc, s.arrays, s.pending, a, i);
    OtherFlagRefs(s.refs, s.pending, ItemFlag(a, i));
    OtherFlagEntries(doc, s.tables, s.entries, s.pending, ItemFlag(a, i));
    ItemsGrow(s, arrays', pending');
  }

  lemma ItemFlagTracked(doc: seq<Node>, arrays: map<NodeId, ArrayData>, pending: set<Flag>, a: NodeId, i: nat)
    requires ItemsTracked(doc, arrays, pending) && a in arrays && arrays[a].evaluated && i < |arrays[a].items|
    ensures var items := arrays[a].items;
      ItemsTracked(doc, arrays[a := ArrayData(items[i := items[i].(evaluated := true)], true)], pending - {ItemFlag(a, i)})
  {
    var items := arrays[a].items;
    var arrays' := arrays[a := ArrayData(items[i := items[i].(evaluated := true)], true)];
    forall u, j: nat | u in arrays' && ItemUnset(doc, u, arrays'[u], j)
      ensures ItemFlag(u, j) in pending - {ItemFlag(a, i)}
    {
      assert ItemUnset(doc, u, arrays[u], j);
    }
  }

  /** Changing only the items of evaluated arrays, keeping their number,
      is a step forward. */
  lemma ItemsGrow(s: State, arrays: map<NodeId, ArrayData>, pending: set<Flag>)
    requires arrays.Keys == s.arrays.Keys && pending <= s.pending
    requires forall a :: a in s.arrays && s.arrays[a].evaluated ==>
      arrays[a].evaluated && |arrays[a].items| == |s.arrays[a].items|
    requires forall a, i :: a in s.arrays && 0 <= i < |s.arrays[a].items| && s.arrays[a].items[i].evaluated ==>
      i < |arrays[a].items| && arrays[a].items[i].evaluated
    ensures Grows(s, s.(arrays := arrays, pending := pending))
  {
    SubsetCard(pending, s.pending);
  }

  /** Storing a value that is not an operator in an item. */
  lemma ItemValueStep(doc: seq<Node>, root: NodeId, b: set<NodeId>, s: State, a: NodeId, i: nat, v: Ptr)
    requires Sound(doc, root, b, s) && a in s.arrays && s.arrays[a].evaluated
    requires i < |s.arrays[a].items| && Visited(b, v) && NotOp(doc, v)
    ensures var items := s.arrays[a].items;
      Step(doc, root, b, s, s.(arrays := s.arrays[a := ArrayData(items[i := items[i].(value := v)], true)]))
  {
    var items := s.arrays[a].items;
    var arrays' := s.arrays[a := ArrayData(items[i := items[i].(value := v)], true)];
    assert ArraysOk(doc, arrays', b);
    ItemValueTracked(doc, s.arrays, s.pending, a, i, v);
    ItemsGrow(s, arrays', s.pending);
  }

  lemma ItemValueTracked(doc: seq<Node>, arrays: map<NodeId, ArrayData>, pending: set<Flag>, a: NodeId, i: nat, v: Ptr)
    requires ItemsTracked(doc, arrays, pending) && a in arrays && arrays[a].evaluated && i < |arrays[a].items|
    ensures var items := arrays[a].items;
      ItemsTracked(doc, arrays[a := ArrayData(items[i := items[i].(value := v)], true)], pending)
  {
    var items := arrays[a].items;
    var arrays' := arrays[a := ArrayData(items[i := items[i].(value := v)], true)];
    forall u, j: nat | u in arrays' && ItemUnset(doc, u, arrays'[u], j)
      ensures ItemFlag(u, j) in pending
    {
      assert ItemUnset(doc, u, arrays[u], j);
    }
  }

  // ------------------------------------------------------------------
  // Table entries

  /** Setting the flag of an unevaluated entry. */
  lemma EntryFlagStep(doc: seq<Node>, root: NodeId, b: set<NodeId>, s: State, e: Slot)
    requires Sound(doc, root, b, s) && e in s.entries && !s.entries[e].evaluated
    ensures Step(doc, root, b, s, s.(entries := s.entries[e := s.entries[e].(evaluated := true)],
                                     pending := s.pending - {EntryFlag(e)}))
    ensures |s.pending - {EntryFlag(e)}| < |s.pending|
  {
    var entries' := s.entries[e := s.entries[e].(evaluated := true)];
    var pending' := s.pending - {EntryFlag(e)};
    EntryTablesOk(doc, s.tables, s.entries, b, e, s.entries[e].(evaluated := true));
    assert SlotOk(doc, s.tables, e);
    EntryFlagTracked(doc, s.tables, s.entries, s.pending, e);
    OtherFlagRefs(s.refs, s.pending, EntryFlag(e));
    OtherFlagItems(doc, s.arrays, s.pending, EntryFlag(e));
    EntriesGrow(s, entries', pending');
    RemoveCard(s.pending, EntryFlag(e));
  }

  /** Replacing an existing entry by one that holds values that are not
      operators keeps the tables consistent. */
  lemma EntryTablesOk(doc: seq<Node>, tables: map<NodeId, TableData>, entries: map<Slot, TableEntry>, b: set<NodeId>, e: Slot, d: TableEntry)
    requires TablesOk(doc, tables, entries, b) && e in entries && EntryOk(doc, b, d)
    ensures TablesOk(doc, tables, entries[e := d], b)
  {
    assert KeysLinked(tables, entries[e := d]);
  }

  lemma EntryFlagTracked(doc: seq<Node>, tables: map<NodeId, TableData>, entries: map<Slot, TableEntry>, pending: set<Flag>, e: Slot)
    requires EntriesTracked(doc, tables, entries, pending) && e in entries
    requires e.table in tables && tables[e.table].evaluated
    ensures EntriesTracked(doc, tables, entries[e := entries[e].(evaluated := true)], pending - {EntryFlag(e)})
  {
    var entries' := entries[e := entries[e].(evaluated := true)];
    forall u | EntryUnset(doc, tables, entries', u)
      ensures EntryFlag(u) in pending - {EntryFlag(e)}
    {
      assert EntryUnset(doc, tables, entries, u);
    }
  }

  /** Changing existing entries only is a step forward. */
  lemma EntriesGrow(s: State, entries: map<Slot, TableEntry>, pending: set<Flag>)
    requires s.entries.Keys <= entries.Keys && pending <= s.pending
    requires forall u :: u in s.entries && s.entries[u].evaluated ==> entries[u].evaluated
    ensures Grows(s, s.(entries := entries, pending := pending))
  {
    SubsetCard(pending, s.pending);
  }

  /** Storing the values an entry holds, neither an operator. */
  lemma EntryValueStep(doc: seq<Node>, root: NodeId, b: set<NodeId>, s: State, e: Slot, d: TableEntry)
    requires Sound(doc, root, b, s) && e in s.entries && d.evaluated == s.entries[e].evaluated
    requires EntryOk(doc, b, d)
    ensures Step(doc, root, b, s, s.(entries := s.entries[e := d]))
  {
    EntryTablesOk(doc, s.tables, s.entries, b, e, d);
    EntryValueTracked(doc, s.tables, s.entries, s.pending, e, d);
    EntriesGrow(s, s.entries[e := d], s.pending);
  }

  /** Storing an entry's parent, not an operator. */
  lemma EntryParentStep(doc: seq<Node>, root: NodeId, b: set<NodeId>, s: State, e: Slot, p: Ptr)
    requires Sound(doc, root, b, s) && e in s.entries && Visited(b, p) && NotOp(doc, p)
    ensures Step(doc, root, b, s, s.(entries := s.entries[e := s.entries[e].(parent := p)]))
  {
    assert EntryOk(doc, b, s.entries[e]);
    EntryValueStep(doc, root, b, s, e, s.entries[e].(parent := p));
  }

  /** Storing an entry's value, not an operator. */
  lemma EntryResultStep(doc: seq<Node>, root: NodeId, b: set<NodeId>, s: State, e: Slot, v: Ptr)
    requires Sound(doc, root, b, s) && e in s.entries && Visited(b, v) && NotOp(doc, v)
    ensures Step(doc, root, b, s, s.(entries := s.entries[e := s.entries[e].(value := v)]))
  {
    assert EntryOk(doc, b, s.entries[e]);
    EntryValueStep(doc, root, b, s, e, s.entries[e].(value := v));
  }

  lemma EntryValueTracked(doc: seq<Node>, tables: map<NodeId, TableData>, entries: map<Slot, TableEntry>, pending: set<Flag>, e: Slot, d: TableEntry)
    requires EntriesTracked(doc, tables, entries, pending) && e in entries && d.evaluated == entries[e].evaluated
    ensures EntriesTracked(doc, tables, entries[e := d], pending)
  {
    forall u | EntryUnset(doc, tables, entries[e := d], u)
      ensures EntryFlag(u) in pending
    {
      assert EntryUnset(doc, tables, entries, u);
    }
  }

  // ------------------------------------------------------------------
  // Inheritance

  /** Giving an evaluated table the entries of another evaluated table
      that it lacks. */
  lemma MergeStep(doc: seq<Node>, root: NodeId, b: set<NodeId>, s: State, c: NodeId, p: NodeId)
    requires Sound(doc, root, b, s)
    requires c in s.tables && s.tables[c].evaluated && p in s.tables && s.tables[p].evaluated
    ensures Step(doc, root, b, s, s.(tables := s.tables[c := TableData(s.tables[p].entries + s.tables[c].entries, true)]))
  {
    var tables' := s.tables[c := TableData(s.tables[p].entries + s.tables[c].entries, true)];
    MergeTablesOk(doc, s.tables, s.entries, b, c, p);
    MergeTracked(doc, s.tables, s.entries, s.pending, c, p);
    MergeGrow(s, c, p);
  }

  lemma MergeTablesOk(doc: seq<Node>, tables: map<NodeId, TableData>, entries: map<Slot, TableEntry>, b: set<NodeId>, c: NodeId, p: NodeId)
    requires TablesOk(doc, tables, entries, b)
    requires c in tables && tables[c].evaluated && p in tables
    ensures TablesOk(doc, tables[c := TableData(tables[p].entries + tables[c].entries, true)], entries, b)
  {
    var tables' := tables[c := TableData(tables[p].entries + tables[c].entries, true)];
    assert KeysLinked(tables', entries) by {
      forall u, k | u in tables' && k in tables'[u].entries
        ensures tables'[u].entries[k] in entries
      {
        if u == c && k !in tables[c].entries {
          assert tables[p].entries[k] in entries;
        }
      }
    }
    assert EntriesOk(doc, tables', entries, b) by {
      forall e | e in entries
        ensures SlotOk(doc, tables', e)
      {
        assert SlotOk(doc, tables, e);
      }
    }
  }

  lemma MergeTracked(doc: seq<Node>, tables: map<NodeId, TableData>, entries: map<Slot, TableEntry>, pending: set<Flag>, c: NodeId, p: NodeId)
    requires EntriesTracked(doc, tables, entries, pending)
    requires c in tables && tables[c].evaluated && p in tables
    ensures EntriesTracked(doc, tables[c := TableData(tables[p].entries + tables[c].entries, true)], entries, pending)
  {
    var tables' := tables[c := TableData(tables[p].entries + tables[c].entries, true)];
    forall u | EntryUnset(doc, tables', entries, u)
      ensures EntryFlag(u) in pending
    {
      assert EntryUnset(doc, tables, entries, u);
    }
  }

  lemma MergeGrow(s: State, c: NodeId, p: NodeId)
    requires c in s.tables && s.tables[c].evaluated && p in s.tables
    ensures Grows(s, s.(tables := s.tables[c := TableData(s.tables[p].entries + s.tables[c].entries, true)]))
  {
  }

  // ------------------------------------------------------------------
  // A flag that is no longer pending is set

  lemma RefStaysSet(doc: seq<Node>, root: NodeId, b: set<NodeId>, s: State, r: NodeId)
    requires Sound(doc, root, b, s) && r in s.refs && RefFlag(r) !in s.pending
    ensures s.refs[r].evaluated
  {
  }

  lemma ItemStaysSet(doc: seq<Node>, root: NodeId, b: set<NodeId>, s: State, a: NodeId, i: nat)
    requires Sound(doc, root, b, s) && a in s.arrays && s.arrays[a].evaluated
    requires i < |s.arrays[a].items| && ItemFlag(a, i) !in s.pending
    ensures s.arrays[a].items[i].evaluated
  {
    assert !ItemUnset(doc, a, s.arrays[a], i);
  }

  lemma EntryStaysSet(doc: seq<Node>, root: NodeId, b: set<NodeId>, s: State, e: Slot)
    requires Sound(doc, root, b, s) && e in s.entries && EntryFlag(e) !in s.pending
    ensures s.entries[e].evaluated
  {
    assert SlotOk(doc, s.tables, e);
    assert !EntryUnset(doc, s.tables, s.entries, e);
  }
}
