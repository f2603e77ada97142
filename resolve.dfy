/** `resolve` (internal/evaluator/evaluator.go:520-563): the read-only walk
    that turns the evaluator's records into the configuration's value once
    evaluation is over. The records are passed in as a `State`. */
module Resolution {
  import opened Wrappers
  import opened Logger
  import opened Syntax
  import opened Document
  import opened EvaluatorState

  /** What `resolve` returns: Go's `string`, `bool`, `int64`, `float64`,
      `[]any`, `map[string]any` or nil. A float keeps its decimal text. */
  datatype Value =
    | Null
    | VStr(s: string)
    | VBool(b: bool)
    | VInt(i: int)
    | VFloat(text: string)
    | VArray(items: seq<Value>)
    | VTable(fields: map<string, Value>)

  /** Why there is no value.
      `Unresolvable`: Go panics ("Unable to resolve expression."): an
      operator, or a node without the record `bind` gives it.
      `Unsettled`: a reference that evaluation never reached; Go's `unwrap`
      would evaluate it at this point.
      `Cyclic`: an array or a table that contains itself.
      `Overflow`: the recursion went deeper than the fuel it was given. */
  datatype Failure = Unresolvable | Unsettled | Cyclic | Overflow

  /** `unwrap` once evaluation is over, over the references' records
      `refs`: nil and concrete nodes stay, an evaluated reference gives its
      stored value, which is nil or concrete; an operator has no value. */
  function Unwrapped(doc: seq<Node>, refs: map<NodeId, RefData>, p: Ptr): (r: Result<Ptr, Failure>)
    ensures r.Ok? ==> Concrete(doc, r.value)
    ensures Concrete(doc, p) ==> r == Ok(p)
    ensures p.Some? && p.value < |doc| && IsOperator(doc[p.value].form) ==> r == Err(Unresolvable)
    ensures p.Some? && p.value < |doc| && doc[p.value].form.NRef? ==>
      if p.value in refs && refs[p.value].evaluated then
        (Concrete(doc, refs[p.value].value) ==> r == Ok(refs[p.value].value))
      else r == Err(Unsettled)
  {
    match p
    case None => Ok(None)
    case Some(n) =>
      if n >= |doc| then Err(Unresolvable)
      else match doc[n].form
        case NRef(_, _) =>
          if n in refs && refs[n].evaluated then
            var v := refs[n].value;
            if Concrete(doc, v) then Ok(v) else Err(Unresolvable)
          else Err(Unsettled)
        case NUnary(_, _) => Err(Unresolvable)
        case NBinary(_, _, _) => Err(Unresolvable)
        case _ => Ok(p)
  }

  /** The items of an array, in order, failing at the first item that has
      no value, as the loop over `arrayData.value` does. */
  function Gather(rs: seq<Result<Value, Failure>>): (r: Result<seq<Value>, Failure>)
    ensures r.Ok? <==> forall i :: 0 <= i < |rs| ==> rs[i].Ok?
    ensures r.Ok? ==> |r.value| == |rs| && forall i :: 0 <= i < |rs| ==> rs[i] == Ok(r.value[i])
    ensures r.Err? ==> exists i :: 0 <= i < |rs| && rs[i] == Err(r.error) && forall j :: 0 <= j < i ==> rs[j].Ok?
  {
    if |rs| == 0 then Ok([])
    else match rs[0]
      case Err(f) => Err(f)
      case Ok(v) =>
        var g := Gather(rs[1..]);
        if g.Ok? then Ok([v] + g.value) else Err(g.error)
  }

  /** The fields of a table: a value for every key, or a failure of one of
      them. Go visits the keys in a random order and stops at the first
      failure; the failure reported here does not depend on an order: an
      overflow before a cycle before an unsettled reference before a
      panic. */
  function GatherMap(rs: map<string, Result<Value, Failure>>): (r: Result<map<string, Value>, Failure>)
    ensures r.Ok? <==> forall k :: k in rs ==> rs[k].Ok?
    ensures r.Ok? ==> r.value.Keys == rs.Keys && forall k :: k in rs ==> rs[k] == Ok(r.value[k])
    ensures r.Err? ==> exists k :: k in rs && rs[k] == Err(r.error)
  {
    if forall k :: k in rs ==> rs[k].Ok? then Ok(map k | k in rs :: rs[k].value)
    else if exists k :: k in rs && rs[k] == Err(Overflow) then Err(Overflow)
    else if exists k :: k in rs && rs[k] == Err(Cyclic) then Err(Cyclic)
    else if exists k :: k in rs && rs[k] == Err(Unsettled) then Err(Unsettled)
    else
      assert exists k :: k in rs && rs[k].Err?;
      assert forall k :: k in rs && rs[k].Err? ==>
        rs[k].error != Overflow && rs[k].error != Cyclic && rs[k].error != Unsettled;
      Err(Unresolvable)
  }

  /** One overflowing field makes the whole table overflow. */
  lemma GatherMapOverflow(rs: map<string, Result<Value, Failure>>, k: string)
    requires k in rs && rs[k] == Err(Overflow)
    ensures GatherMap(rs) == Err(Overflow)
  {
  }

  /** The value an array item or a table entry holds, when it exists. */
  function EntryValue(s: State, slot: Slot): Ptr {
    if slot in s.entries then s.entries[slot].value else None
  }

  /** `resolve`, kept from running forever: `visiting` holds the arrays and
      tables being resolved further up, and meeting one of them again is
      `Cyclic`. An array or a table without a record is a panic, as Go's
      `nil` record would be. */
  function Resolve(doc: seq<Node>, s: State, p: Ptr, visiting: set<NodeId>): (r: Result<Value, Failure>)
    ensures r != Err(Overflow)
    decreases Below(|doc|) - visiting, 0
  {
    match Unwrapped(doc, s.refs, p)
    case Err(f) => Err(f)
    case Ok(None) => Ok(Null)
    case Ok(Some(n)) =>
      match doc[n].form
      case NStr(v) => Ok(VStr(v))
      case NBool(v) => Ok(VBool(v))
      case NInt(v) => Ok(VInt(v))
      case NFloat(v) => Ok(VFloat(v))
      case NArray(_) =>
        if n in visiting then Err(Cyclic)
        else if n !in s.arrays then Err(Unresolvable)
        else
          assert n in Below(|doc|) - visiting;
          var g := Gather(ResolveItems(doc, s, s.arrays[n].items, visiting + {n}));
          if g.Ok? then Ok(VArray(g.value)) else Err(g.error)
      case NTable(_) =>
        if n in visiting then Err(Cyclic)
        else if n !in s.tables then Err(Unresolvable)
        else
          assert n in Below(|doc|) - visiting;
          var g := GatherMap(ResolveFields(doc, s, s.tables[n].entries, visiting + {n}));
          if g.Ok? then Ok(VTable(g.value)) else Err(g.error)
      case _ => Err(Unresolvable)
  }

  /** `Resolve` on each item of an array. */
  function ResolveItems(doc: seq<Node>, s: State, items: seq<ArrayItem>, visiting: set<NodeId>): (rs: seq<Result<Value, Failure>>)
    ensures |rs| == |items| && forall i :: 0 <= i < |rs| ==> rs[i] != Err(Overflow)
    decreases Below(|doc|) - visiting, 1
  {
    seq(|items|, i requires 0 <= i < |items| => Resolve(doc, s, items[i].value, visiting))
  }

  /** `Resolve` on the entry of each key of a table. */
  function ResolveFields(doc: seq<Node>, s: State, es: map<string, Slot>, visiting: set<NodeId>): (rs: map<string, Result<Value, Failure>>)
    ensures rs.Keys == es.Keys && forall k :: k in rs ==> rs[k] != Err(Overflow)
    decreases Below(|doc|) - visiting, 1
  {
    map k | k in es :: Resolve(doc, s, EntryValue(s, es[k]), visiting)
  }

  /** `resolve` as written: no guard against an array or a table that
      contains itself. Go's recursion runs until the stack overflows; here
      each call uses one unit of `fuel`, and running out is `Overflow`. */
  function ResolveAsWritten(doc: seq<Node>, s: State, p: Ptr, fuel: nat): (r: Result<Value, Failure>)
    ensures r != Err(Cyclic)
    decreases fuel, 0
  {
    if fuel == 0 then Err(Overflow)
    else match Unwrapped(doc, s.refs, p)
      case Err(f) => Err(f)
      case Ok(None) => Ok(Null)
      case Ok(Some(n)) =>
        match doc[n].form
        case NStr(v) => Ok(VStr(v))
        case NBool(v) => Ok(VBool(v))
        case NInt(v) => Ok(VInt(v))
        case NFloat(v) => Ok(VFloat(v))
        case NArray(_) =>
          if n !in s.arrays then Err(Unresolvable)
          else
            var g := Gather(WrittenItems(doc, s, s.arrays[n].items, fuel - 1));
            if g.Ok? then Ok(VArray(g.value)) else Err(g.error)
        case NTable(_) =>
          if n !in s.tables then Err(Unresolvable)
          else
            var g := GatherMap(WrittenFields(doc, s, s.tables[n].entries, fuel - 1));
            if g.Ok? then Ok(VTable(g.value)) else Err(g.error)
        case _ => Err(Unresolvable)
  }

  function WrittenItems(doc: seq<Node>, s: State, items: seq<ArrayItem>, fuel: nat): (rs: seq<Result<Value, Failure>>)
    ensures |rs| == |items| && forall i :: 0 <= i < |rs| ==> rs[i] != Err(Cyclic)
    decreases fuel, 1
  {
    seq(|items|, i requires 0 <= i < |items| => ResolveAsWritten(doc, s, items[i].value, fuel))
  }

  function WrittenFields(doc: seq<Node>, s: State, es: map<string, Slot>, fuel: nat): (rs: map<string, Result<Value, Failure>>)
    ensures rs.Keys == es.Keys && forall k :: k in rs ==> rs[k] != Err(Cyclic)
    decreases fuel, 1
  {
    map k | k in es :: ResolveAsWritten(doc, s, EntryValue(s, es[k]), fuel)
  }

  /** Whenever the guarded `Resolve` gives a value, `resolve` as written
      gives the same value, given a stack as deep as the document has
      nodes: the guard only turns a run that would never end into
      `Cyclic`. */
  lemma {:induction false} ResolveAgrees(doc: seq<Node>, s: State, p: Ptr, visiting: set<NodeId>, fuel: nat)
    requires fuel > |Below(|doc|) - visiting|
    requires Resolve(doc, s, p, visiting).Ok?
    ensures ResolveAsWritten(doc, s, p, fuel) == Resolve(doc, s, p, visiting)
    decreases Below(|doc|) - visiting, 2
  {
    match Unwrapped(doc, s.refs, p)
    case Err(_) =>
    case Ok(None) =>
    case Ok(Some(n)) =>
      if doc[n].form.NArray? {
        ArrayAgrees(doc, s, p, n, visiting, fuel);
      } else if doc[n].form.NTable? {
        TableAgrees(doc, s, p, n, visiting, fuel);
      }
  }

  /** `ResolveAgrees` where `p` unwraps to an array. */
  lemma {:induction false} ArrayAgrees(doc: seq<Node>, s: State, p: Ptr, n: NodeId, visiting: set<NodeId>, fuel: nat)
    requires fuel > |Below(|doc|) - visiting|
    requires Unwrapped(doc, s.refs, p) == Ok(Some(n)) && doc[n].form.NArray?
    requires Resolve(doc, s, p, visiting).Ok?
    ensures ResolveAsWritten(doc, s, p, fuel) == Resolve(doc, s, p, visiting)
    decreases Below(|doc|) - visiting, 1
  {
    assert n !in visiting && n in s.arrays;
    var g := Gather(ResolveItems(doc, s, s.arrays[n].items, visiting + {n}));
    assert g.Ok? && Resolve(doc, s, p, visiting) == Ok(VArray(g.value));
    Shrinks(doc, visiting, n);
    ItemsAgree(doc, s, s.arrays[n].items, visiting + {n}, fuel - 1);
  }

  /** `ResolveAgrees` where `p` unwraps to a table. */
  lemma {:induction false} TableAgrees(doc: seq<Node>, s: State, p: Ptr, n: NodeId, visiting: set<NodeId>, fuel: nat)
    requires fuel > |Below(|doc|) - visiting|
    requires Unwrapped(doc, s.refs, p) == Ok(Some(n)) && doc[n].form.NTable?
    requires Resolve(doc, s, p, visiting).Ok?
    ensures ResolveAsWritten(doc, s, p, fuel) == Resolve(doc, s, p, visiting)
    decreases Below(|doc|) - visiting, 1
  {
    assert n !in visiting && n in s.tables;
    var g := GatherMap(ResolveFields(doc, s, s.tables[n].entries, visiting + {n}));
    assert g.Ok? && Resolve(doc, s, p, visiting) == Ok(VTable(g.value));
    Shrinks(doc, visiting, n);
    FieldsAgree(doc, s, s.tables[n].entries, visiting + {n}, fuel - 1);
  }

  /** Entering a node not yet on the path leaves one node fewer to enter. */
  lemma Shrinks(doc: seq<Node>, visiting: set<NodeId>, n: NodeId)
    requires n < |doc| && n !in visiting
    ensures |Below(|doc|) - (visiting + {n})| < |Below(|doc|) - visiting|
  {
    assert n in Below(|doc|) - visiting;
    assert Below(|doc|) - (visiting + {n}) == (Below(|doc|) - visiting) - {n};
    RemoveCard(Below(|doc|) - visiting, n);
  }

  lemma {:induction false} ItemsAgree(doc: seq<Node>, s: State, items: seq<ArrayItem>, visiting: set<NodeId>, fuel: nat)
    requires fuel > |Below(|doc|) - visiting|
    requires Gather(ResolveItems(doc, s, items, visiting)).Ok?
    ensures WrittenItems(doc, s, items, fuel) == ResolveItems(doc, s, items, visiting)
    decreases Below(|doc|) - visiting, 3
  {
    var rs := ResolveItems(doc, s, items, visiting);
    var ws := WrittenItems(doc, s, items, fuel);
    forall i | 0 <= i < |items|
      ensures ws[i] == rs[i]
    {
      assert rs[i].Ok?;
      ResolveAgrees(doc, s, items[i].value, visiting, fuel);
    }
  }

  lemma {:induction false} FieldsAgree(doc: seq<Node>, s: State, es: map<string, Slot>, visiting: set<NodeId>, fuel: nat)
    requires fuel > |Below(|doc|) - visiting|
    requires GatherMap(ResolveFields(doc, s, es, visiting)).Ok?
    ensures WrittenFields(doc, s, es, fuel) == ResolveFields(doc, s, es, visiting)
    decreases Below(|doc|) - visiting, 3
  {
    var rs := ResolveFields(doc, s, es, visiting);
    var ws := WrittenFields(doc, s, es, fuel);
    forall k | k in es
      ensures ws[k] == rs[k]
    {
      assert rs[k].Ok?;
      ResolveAgrees(doc, s, EntryValue(s, es[k]), visiting, fuel);
    }
  }

  /** `resolve` as written does not depend on more fuel than it needs:
      once it returns a value, any deeper stack returns the same one. */
  lemma {:induction false} WrittenMonotone(doc: seq<Node>, s: State, p: Ptr, f: nat, g: nat)
    requires f <= g
    ensures ResolveAsWritten(doc, s, p, f).Ok? ==> ResolveAsWritten(doc, s, p, g) == ResolveAsWritten(doc, s, p, f)
    decreases f, 2
  {
    if ResolveAsWritten(doc, s, p, f).Ok? {
      match Unwrapped(doc, s.refs, p)
      case Err(_) =>
      case Ok(None) =>
      case Ok(Some(n)) =>
        if doc[n].form.NArray? {
          ArrayMonotone(doc, s, p, n, f, g);
        } else if doc[n].form.NTable? {
          TableMonotone(doc, s, p, n, f, g);
        }
    }
  }

  /** `WrittenMonotone` where `p` unwraps to an array. */
  lemma {:induction false} ArrayMonotone(doc: seq<Node>, s: State, p: Ptr, n: NodeId, f: nat, g: nat)
    requires f <= g && Unwrapped(doc, s.refs, p) == Ok(Some(n)) && doc[n].form.NArray?
    requires ResolveAsWritten(doc, s, p, f).Ok?
    ensures ResolveAsWritten(doc, s, p, g) == ResolveAsWritten(doc, s, p, f)
    decreases f, 1
  {
    assert n in s.arrays;
    var items := s.arrays[n].items;
    var w := Gather(WrittenItems(doc, s, items, f - 1));
    assert w.Ok? && ResolveAsWritten(doc, s, p, f) == Ok(VArray(w.value));
    ItemsMonotone(doc, s, items, f - 1, g - 1);
  }

  /** `WrittenMonotone` where `p` unwraps to a table. */
  lemma {:induction false} TableMonotone(doc: seq<Node>, s: State, p: Ptr, n: NodeId, f: nat, g: nat)
    requires f <= g && Unwrapped(doc, s.refs, p) == Ok(Some(n)) && doc[n].form.NTable?
    requires ResolveAsWritten(doc, s, p, f).Ok?
    ensures ResolveAsWritten(doc, s, p, g) == ResolveAsWritten(doc, s, p, f)
    decreases f, 1
  {
    assert n in s.tables;
    var es := s.tables[n].entries;
    var w := GatherMap(WrittenFields(doc, s, es, f - 1));
    assert w.Ok? && ResolveAsWritten(doc, s, p, f) == Ok(VTable(w.value));
    FieldsMonotone(doc, s, es, f - 1, g - 1);
  }

  lemma {:induction false} ItemsMonotone(doc: seq<Node>, s: State, items: seq<ArrayItem>, f: nat, g: nat)
    requires f <= g && Gather(WrittenItems(doc, s, items, f)).Ok?
    ensures WrittenItems(doc, s, items, g) == WrittenItems(doc, s, items, f)
    decreases f, 3
  {
    var ws := WrittenItems(doc, s, items, f);
    forall i | 0 <= i < |items|
      ensures WrittenItems(doc, s, items, g)[i] == ws[i]
    {
      assert ws[i].Ok?;
      WrittenMonotone(doc, s, items[i].value, f, g);
    }
  }

  lemma {:induction false} FieldsMonotone(doc: seq<Node>, s: State, es: map<string, Slot>, f: nat, g: nat)
    requires f <= g && GatherMap(WrittenFields(doc, s, es, f)).Ok?
    ensures WrittenFields(doc, s, es, g) == WrittenFields(doc, s, es, f)
    decreases f, 3
  {
    var ws := WrittenFields(doc, s, es, f);
    forall k | k in es
      ensures WrittenFields(doc, s, es, g)[k] == ws[k]
    {
      assert ws[k].Ok?;
      WrittenMonotone(doc, s, EntryValue(s, es[k]), f, g);
    }
  }

  /** The least fuel at or below `f` with which `resolve` as written
      returns a value. */
  ghost function LeastFuel(doc: seq<Node>, s: State, p: Ptr, f: nat): (r: nat)
    requires ResolveAsWritten(doc, s, p, f).Ok?
    ensures 0 < r <= f && ResolveAsWritten(doc, s, p, r).Ok?
    ensures !ResolveAsWritten(doc, s, p, r - 1).Ok?
  {
    if ResolveAsWritten(doc, s, p, f - 1).Ok? then LeastFuel(doc, s, p, f - 1) else f
  }

  /** The node `m` does not resolve, as written, with `f`. */
  predicate Stuck(doc: seq<Node>, s: State, m: NodeId, f: nat) {
    !ResolveAsWritten(doc, s, Some(m), f).Ok?
  }

  /** A pointer and the node it unwraps to resolve alike, as written. */
  lemma SameNode(doc: seq<Node>, s: State, p: Ptr, n: NodeId, f: nat)
    requires Unwrapped(doc, s.refs, p) == Ok(Some(n))
    ensures ResolveAsWritten(doc, s, Some(n), f) == ResolveAsWritten(doc, s, p, f)
  {
    assert Unwrapped(doc, s.refs, Some(n)) == Ok(Some(n));
  }

  /** Conversely, whenever `resolve` as written returns a value, the
      guarded `Resolve` returns the same value: a walk that ends never
      re-enters an array or a table it is inside, so the guard never
      fires. `visiting` holds nodes that do not resolve with `f`. */
  lemma {:induction false} WrittenAgrees(doc: seq<Node>, s: State, p: Ptr, visiting: set<NodeId>, f: nat)
    requires ResolveAsWritten(doc, s, p, f).Ok?
    requires forall m {:trigger Stuck(doc, s, m, f)} :: m in visiting ==> Stuck(doc, s, m, f)
    ensures Resolve(doc, s, p, visiting) == ResolveAsWritten(doc, s, p, f)
    decreases f, 2
  {
    match Unwrapped(doc, s.refs, p)
    case Err(_) =>
    case Ok(None) =>
    case Ok(Some(n)) =>
      if doc[n].form.NArray? {
        WrittenArrayAgrees(doc, s, p, n, visiting, f);
      } else if doc[n].form.NTable? {
        WrittenTableAgrees(doc, s, p, n, visiting, f);
      }
  }

  /** Entering `n` with the least fuel that resolves it: the nodes on the
      path, `n` among them, still do not resolve with what is left. */
  lemma EnterLeast(doc: seq<Node>, s: State, p: Ptr, n: NodeId, visiting: set<NodeId>, f: nat) returns (h: nat)
    requires Unwrapped(doc, s.refs, p) == Ok(Some(n))
    requires ResolveAsWritten(doc, s, p, f).Ok?
    requires forall m {:trigger Stuck(doc, s, m, f)} :: m in visiting ==> Stuck(doc, s, m, f)
    ensures 0 < h <= f && ResolveAsWritten(doc, s, p, h) == ResolveAsWritten(doc, s, p, f)
    ensures n !in visiting
    ensures forall m {:trigger Stuck(doc, s, m, h - 1)} :: m in visiting + {n} ==> Stuck(doc, s, m, h - 1)
  {
    SameNode(doc, s, p, n, f);
    assert !Stuck(doc, s, n, f);
    h := LeastFuel(doc, s, p, f);
    WrittenMonotone(doc, s, p, h, f);
    SameNode(doc, s, p, n, h - 1);
    assert Stuck(doc, s, n, h - 1);
    forall m | m in visiting
      ensures Stuck(doc, s, m, h - 1)
    {
      assert Stuck(doc, s, m, f);
      WrittenMonotone(doc, s, Some(m), h - 1, f);
    }
  }

  /** `WrittenAgrees` where `p` unwraps to an array. */
  lemma {:induction false} WrittenArrayAgrees(doc: seq<Node>, s: State, p: Ptr, n: NodeId, visiting: set<NodeId>, f: nat)
    requires Unwrapped(doc, s.refs, p) == Ok(Some(n)) && doc[n].form.NArray?
    requires ResolveAsWritten(doc, s, p, f).Ok?
    requires forall m {:trigger Stuck(doc, s, m, f)} :: m in visiting ==> Stuck(doc, s, m, f)
    ensures Resolve(doc, s, p, visiting) == ResolveAsWritten(doc, s, p, f)
    decreases f, 1
  {
    var h := EnterLeast(doc, s, p, n, visiting, f);
    assert n in s.arrays;
    var items := s.arrays[n].items;
    var g := Gather(WrittenItems(doc, s, items, h - 1));
    assert g.Ok? && ResolveAsWritten(doc, s, p, h) == Ok(VArray(g.value));
    WrittenItemsAgree(doc, s, items, visiting + {n}, h - 1);
  }

  /** `WrittenAgrees` where `p` unwraps to a table. */
  lemma {:induction false} WrittenTableAgrees(doc: seq<Node>, s: State, p: Ptr, n: NodeId, visiting: set<NodeId>, f: nat)
    requires Unwrapped(doc, s.refs, p) == Ok(Some(n)) && doc[n].form.NTable?
    requires ResolveAsWritten(doc, s, p, f).Ok?
    requires forall m {:trigger Stuck(doc, s, m, f)} :: m in visiting ==> Stuck(doc, s, m, f)
    ensures Resolve(doc, s, p, visiting) == ResolveAsWritten(doc, s, p, f)
    decreases f, 1
  {
    var h := EnterLeast(doc, s, p, n, visiting, f);
    assert n in s.tables;
    var es := s.tables[n].entries;
    var g := GatherMap(WrittenFields(doc, s, es, h - 1));
    assert g.Ok? && ResolveAsWritten(doc, s, p, h) == Ok(VTable(g.value));
    WrittenFieldsAgree(doc, s, es, visiting + {n}, h - 1);
  }

  lemma {:induction false} WrittenItemsAgree(doc: seq<Node>, s: State, items: seq<ArrayItem>, visiting: set<NodeId>, f: nat)
    requires Gather(WrittenItems(doc, s, items, f)).Ok?
    requires forall m {:trigger Stuck(doc, s, m, f)} :: m in visiting ==> Stuck(doc, s, m, f)
    ensures ResolveItems(doc, s, items, visiting) == WrittenItems(doc, s, items, f)
    decreases f, 3
  {
    var ws := WrittenItems(doc, s, items, f);
    forall i | 0 <= i < |items|
      ensures ResolveItems(doc, s, items, visiting)[i] == ws[i]
    {
      assert ws[i].Ok?;
      WrittenAgrees(doc, s, items[i].value, visiting, f);
    }
  }

  lemma {:induction false} WrittenFieldsAgree(doc: seq<Node>, s: State, es: map<string, Slot>, visiting: set<NodeId>, f: nat)
    requires GatherMap(WrittenFields(doc, s, es, f)).Ok?
    requires forall m {:trigger Stuck(doc, s, m, f)} :: m in visiting ==> Stuck(doc, s, m, f)
    ensures ResolveFields(doc, s, es, visiting) == WrittenFields(doc, s, es, f)
    decreases f, 3
  {
    var ws := WrittenFields(doc, s, es, f);
    forall k | k in es
      ensures ResolveFields(doc, s, es, visiting)[k] == ws[k]
    {
      assert ws[k].Ok?;
      WrittenAgrees(doc, s, EntryValue(s, es[k]), visiting, f);
    }
  }

  /** The converse of `ResolveAgrees`, from the top: a value `resolve` as
      written returns is the value of the guarded walk. */
  lemma WrittenRefines(doc: seq<Node>, s: State, p: Ptr, fuel: nat)
    requires ResolveAsWritten(doc, s, p, fuel).Ok?
    ensures Resolve(doc, s, p, {}) == ResolveAsWritten(doc, s, p, fuel)
  {
    WrittenAgrees(doc, s, p, {}, fuel);
  }

  /** Hence when the guarded walk fails, in particular on any cycle,
      however far apart its nodes, `resolve` as written never returns a
      value, however deep the stack. */
  lemma FailureAgrees(doc: seq<Node>, s: State, p: Ptr, fuel: nat)
    requires Resolve(doc, s, p, {}).Err?
    ensures ResolveAsWritten(doc, s, p, fuel).Err?
  {
    if ResolveAsWritten(doc, s, p, fuel).Ok? {
      WrittenRefines(doc, s, p, fuel);
    }
  }

  // The configuration `{a: $}` once evaluated: node 0 is the reference
  // `$`, node 1 the key `a`, node 2 the table; the entry `a` holds the
  // table itself, the value its reference settled to.

  const SelfDoc: seq<Node> := [
    Node(NRef(RefAbsolute, []), Span(4, 5)),
    Node(NStr("a"), Span(1, 2)),
    Node(NTable([Item(1, None, 0)]), Span(0, 6))]

  const SelfState: State := State(
    map[0 := RefData(Some(2), Some(2), true)],
    map[],
    map[2 := TableData(map["a" := Slot(2, 0)], true)],
    map[Slot(2, 0) := TableEntry(None, Some(2), true)],
    {})

  /** `resolve` as written never returns on a table one of whose entries
      holds the table itself: however deep the stack, the walk re-enters
      the table through that entry. */
  lemma {:induction false} TableLoops(doc: seq<Node>, s: State, n: NodeId, k: string, fuel: nat)
    requires n < |doc| && doc[n].form.NTable? && n in s.tables
    requires k in s.tables[n].entries && EntryValue(s, s.tables[n].entries[k]) == Some(n)
    ensures ResolveAsWritten(doc, s, Some(n), fuel) == Err(Overflow)
  {
    if fuel > 0 {
      TableLoops(doc, s, n, k, fuel - 1);
      var ws := WrittenFields(doc, s, s.tables[n].entries, fuel - 1);
      assert ws[k] == ResolveAsWritten(doc, s, Some(n), fuel - 1);
      GatherMapOverflow(ws, k);
    }
  }

  /** Hence on `{a: $}`. */
  lemma SelfOverflows(fuel: nat)
    ensures ResolveAsWritten(SelfDoc, SelfState, Some(2), fuel) == Err(Overflow)
  {
    SelfUnwraps();
    TableLoops(SelfDoc, SelfState, 2, "a", fuel);
  }

  /** The guarded walk stops on such a table, whatever the path above it. */
  lemma TableStops(doc: seq<Node>, s: State, n: NodeId, k: string, visiting: set<NodeId>)
    requires n < |doc| && doc[n].form.NTable? && n in s.tables
    requires k in s.tables[n].entries && EntryValue(s, s.tables[n].entries[k]) == Some(n)
    ensures Resolve(doc, s, Some(n), visiting).Err?
  {
    assert Concrete(doc, Some(n));
    if n !in visiting {
      var rs := ResolveFields(doc, s, s.tables[n].entries, visiting + {n});
      assert rs[k] == Resolve(doc, s, Some(n), visiting + {n});
      assert rs[k] == Err(Cyclic);
    }
  }

  /** The guarded walk reports the cycle on `{a: $}`. */
  lemma SelfCyclic()
    ensures Resolve(SelfDoc, SelfState, Some(2), {}) == Err(Cyclic)
  {
    SelfUnwraps();
    assert Resolve(SelfDoc, SelfState, Some(2), {2}) == Err(Cyclic);
    var rs := ResolveFields(SelfDoc, SelfState, SelfState.tables[2].entries, {2});
    assert "a" in rs && rs["a"] == Err(Cyclic);
    assert forall k :: k in rs ==> k == "a";
    assert GatherMap(rs) == Err(Cyclic);
  }

  /** The table is its own value, and its entry `a` holds the table. */
  lemma SelfUnwraps()
    ensures Unwrapped(SelfDoc, SelfState.refs, Some(2)) == Ok(Some(2))
    ensures SelfDoc[2].form.NTable? && 2 in SelfState.tables
    ensures SelfState.tables[2].entries.Keys == {"a"}
    ensures EntryValue(SelfState, SelfState.tables[2].entries["a"]) == Some(2)
  {
    assert Concrete(SelfDoc, Some(2));
  }
}
