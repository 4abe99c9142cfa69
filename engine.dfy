/**
 * The accumulation engine as a specification: the state `analyse` keeps
 * while the walker calls it back, one function per callback, and the fold
 * of those callbacks over the walker's sequence of events.
 */
module Engine {
  import opened Wrappers
  import opened Descriptors
  import opened Reports

  /**
   * The state of one analysis: the report, the stack of open scopes and the
   * current scope (both as positions in `functions`, so that the current
   * report, the stack entry and the list entry are one report), and the
   * one-shot "clear dependencies" flag.
   */
  datatype State = State(report: Report, scopeStack: seq<nat>, current: Option<nat>, clearDependencies: bool)

  /** What the walker reports: a scope opens, a node is processed, the innermost scope closes. */
  datatype Event =
    | Scope(name: Option<string>, lines: Option<Loc>, params: int)
    | Process(node: Node, syntax: Descriptor)
    | EndScope

  function Top(stack: seq<nat>): Option<nat>
  {
    if |stack| == 0 then None else Some(stack[|stack| - 1])
  }

  /**
   * The invariant: the current report is the top of the stack, every stack
   * entry is a report in `functions`, and every Halstead counter is consistent.
   */
  predicate Valid(s: State)
  {
    && s.current == Top(s.scopeStack)
    && (forall k :: 0 <= k < |s.scopeStack| ==> s.scopeStack[k] < |s.report.functions|)
    && WellFormed(s.report.aggregate)
    && (forall j :: 0 <= j < |s.report.functions| ==> WellFormed(s.report.functions[j]))
  }

  /** The state before the walk: a fresh report, no scope, dependencies still to be cleared. */
  function Initial(lines: Option<Loc>): (s: State)
    ensures Valid(s) && s.current.None? && s.clearDependencies
    ensures s.report == CreateReport(lines) && s.scopeStack == []
    ensures s.report.functions == [] && s.report.dependencies == []
  {
    State(CreateReport(lines), [], None, true)
  }

  /** `pushScope`: a fresh report is appended, counted in the aggregate's parameters and made current. */
  function ScopeEntered(s: State, name: Option<string>, lines: Option<Loc>, params: int): (t: State)
    ensures Valid(s) ==> Valid(t)
    ensures |t.report.functions| == |s.report.functions| + 1
    ensures t.report.functions[..|s.report.functions|] == s.report.functions
    ensures t.report.functions[|s.report.functions|] == CreateFunctionReport(name, lines, params)
    ensures t.report.aggregate == s.report.aggregate.(params := s.report.aggregate.params + params)
    ensures t.current == Some(|s.report.functions|) && t.scopeStack == s.scopeStack + [|s.report.functions|]
    ensures t.report.dependencies == s.report.dependencies && t.clearDependencies == s.clearDependencies
  {
    var r := s.report;
    var created := CreateFunctionReport(name, lines, params);
    var i := |r.functions|;
    State(
      r.(functions := r.functions + [created], aggregate := r.aggregate.(params := r.aggregate.params + params)),
      s.scopeStack + [i],
      Some(i),
      s.clearDependencies)
  }

  /** `popScope`: the innermost scope closes and the one below it, if any, becomes current; the report is untouched. */
  function ScopeExited(s: State): (t: State)
    ensures Valid(s) ==> Valid(t)
    ensures t.report == s.report && t.clearDependencies == s.clearDependencies
    ensures |t.scopeStack| == if |s.scopeStack| == 0 then 0 else |s.scopeStack| - 1
    ensures t.scopeStack == s.scopeStack[..|t.scopeStack|]
    ensures t.current == Top(t.scopeStack)
  {
    var stack := if |s.scopeStack| > 0 then s.scopeStack[..|s.scopeStack| - 1] else [];
    s.(scopeStack := stack, current := Top(stack))
  }

  /** A contribution goes to the aggregate, and to the current scope's report when there is one. */
  function Contributed(s: State, c: Contribution): (t: State)
    ensures t.report.aggregate == Applied(s.report.aggregate, c)
    ensures |t.report.functions| == |s.report.functions|
    ensures forall j :: 0 <= j < |s.report.functions| ==>
      t.report.functions[j] == if s.current == Some(j) then Applied(s.report.functions[j], c) else s.report.functions[j]
    ensures t.scopeStack == s.scopeStack && t.current == s.current
    ensures t.clearDependencies == s.clearDependencies && t.report.dependencies == s.report.dependencies
  {
    var r := s.report;
    var functions :=
      if s.current.Some? && s.current.value < |r.functions| then
        r.functions[s.current.value := Applied(r.functions[s.current.value], c)]
      else r.functions;
    s.(report := r.(aggregate := Applied(r.aggregate, c), functions := functions))
  }

  function ContributedAll(s: State, cs: seq<Contribution>): State
  {
    if |cs| == 0 then s else Contributed(ContributedAll(s, cs[..|cs| - 1]), cs[|cs| - 1])
  }

  /**
   * A Halstead item reaches the aggregate's counter and the current
   * report's counter through the same counting rule, so `distinct` is kept
   * per report.
   */
  lemma ItemRouted(s: State, m: Metric, id: string)
    ensures var t := Contributed(s, AddItem(m, id));
      && CounterOf(t.report.aggregate.halstead, m) == ItemIncremented(CounterOf(s.report.aggregate.halstead, m), id)
      && (s.current.Some? && s.current.value < |s.report.functions| ==>
            var i := s.current.value;
            CounterOf(t.report.functions[i].halstead, m) == ItemIncremented(CounterOf(s.report.functions[i].halstead, m), id))
  {
  }

  /** Contributions leave the scopes, the flag, the dependencies and the number of reports alone. */
  lemma {:induction false} ContributedAllFrame(s: State, cs: seq<Contribution>)
    ensures var t := ContributedAll(s, cs);
      && t.scopeStack == s.scopeStack && t.current == s.current
      && t.clearDependencies == s.clearDependencies && t.report.dependencies == s.report.dependencies
      && |t.report.functions| == |s.report.functions|
  {
    if |cs| > 0 {
      ContributedAllFrame(s, cs[..|cs| - 1]);
    }
  }

  /** Contributions made in two batches have the effect of the whole list. */
  lemma {:induction false} ContributedAllAppended(s: State, a: seq<Contribution>, b: seq<Contribution>)
    ensures ContributedAll(s, a + b) == ContributedAll(ContributedAll(s, a), b)
  {
    if |b| == 0 {
      assert a + b == a;
    } else {
      ContributedAllAppended(s, a, b[..|b| - 1]);
      assert (a + b)[..|a + b| - 1] == a + b[..|b| - 1];
    }
  }

  lemma ContributedAllLast(s: State, cs: seq<Contribution>, c: Contribution)
    ensures ContributedAll(s, cs + [c]) == Contributed(ContributedAll(s, cs), c)
  {
    assert (cs + [c])[..|cs|] == cs;
  }

  lemma AsItemsLast(m: Metric, ids: seq<string>, id: string)
    ensures AsItems(m, ids + [id]) == AsItems(m, ids) + [AddItem(m, id)]
  {
    assert (ids + [id])[..|ids|] == ids;
  }

  /** One more item of a descriptor list: contributed when counted, skipped otherwise. */
  lemma ItemRecorded(s: State, m: Metric, items: seq<Item>, i: nat, node: Node)
    requires i < |items|
    ensures var before := ContributedAll(s, AsItems(m, Recorded(items[..i], node)));
      ContributedAll(s, AsItems(m, Recorded(items[..i + 1], node)))
      == if Counted(items[i], node).Some? then Contributed(before, AddItem(m, Counted(items[i], node).value)) else before
  {
    RecordedLast(items, i, node);
    var ids := Recorded(items[..i], node);
    if Counted(items[i], node).Some? {
      var id := Counted(items[i], node).value;
      AsItemsLast(m, ids, id);
      ContributedAllLast(s, AsItems(m, ids), AddItem(m, id));
    } else {
      assert Recorded(items[..i + 1], node) == ids;
    }
  }

  /** The total a list of contributions adds to a quantity. */
  function DeltaSum(cs: seq<Contribution>, q: Quantity): int
  {
    if |cs| == 0 then 0 else DeltaSum(cs[..|cs| - 1], q) + Delta(cs[|cs| - 1], q)
  }

  /** The total of a quantity over a list of reports. */
  function Sum(fs: seq<FunctionReport>, q: Quantity): int
  {
    if |fs| == 0 then 0 else Sum(fs[..|fs| - 1], q) + Measure(fs[|fs| - 1], q)
  }

  lemma {:induction false} SumUpdated(fs: seq<FunctionReport>, i: nat, g: FunctionReport, q: Quantity)
    requires i < |fs|
    ensures Sum(fs[i := g], q) == Sum(fs, q) - Measure(fs[i], q) + Measure(g, q)
  {
    var n := |fs|;
    var gs := fs[i := g];
    if i < n - 1 {
      assert gs[..n - 1] == fs[..n - 1][i := g];
      SumUpdated(fs[..n - 1], i, g, q);
    } else {
      assert gs[..n - 1] == fs[..n - 1];
    }
  }

  lemma SumAppended(fs: seq<FunctionReport>, f: FunctionReport, q: Quantity)
    ensures Sum(fs + [f], q) == Sum(fs, q) + Measure(f, q)
  {
    assert (fs + [f])[..|fs|] == fs;
  }

  /**
   * Contributions change only the measures: the aggregate receives all of
   * them, the current report receives all of them, every other report none.
   */
  lemma {:induction false} ContributedAllEffect(s: State, cs: seq<Contribution>, q: Quantity, j: nat)
    requires Valid(s)
    ensures var t := ContributedAll(s, cs);
      && Valid(t)
      && t.scopeStack == s.scopeStack && t.current == s.current && t.clearDependencies == s.clearDependencies
      && t.report.dependencies == s.report.dependencies
      && |t.report.functions| == |s.report.functions|
      && Measure(t.report.aggregate, q) == Measure(s.report.aggregate, q) + DeltaSum(cs, q)
      && Sum(t.report.functions, q) == Sum(s.report.functions, q) + (if s.current.Some? then DeltaSum(cs, q) else 0)
      && (j < |s.report.functions| ==>
            Measure(t.report.functions[j], q)
            == Measure(s.report.functions[j], q) + (if s.current == Some(j) then DeltaSum(cs, q) else 0))
      && (j < |s.report.functions| && s.current != Some(j) ==> t.report.functions[j] == s.report.functions[j])
  {
    if |cs| > 0 {
      var init, c := cs[..|cs| - 1], cs[|cs| - 1];
      ContributedAllEffect(s, init, q, j);
      var m := ContributedAll(s, init);
      var t := Contributed(m, c);
      var fs := m.report.functions;
      if m.current.Some? {
        var i := m.current.value;
        SumUpdated(fs, i, Applied(fs[i], c), q);
      }
      assert forall k :: 0 <= k < |t.report.functions| ==> WellFormed(t.report.functions[k]);
    }
  }

  /** The contributions of one node, in the order `processNode` makes them. */
  function NodeContributions(node: Node, d: Descriptor): seq<Contribution>
  {
    CounterContributions(d.lloc, node, true)
    + CounterContributions(d.cyclomatic, node, false)
    + AsItems(Operator, OperatorsOf(d, node))
    + AsItems(Operand, OperandsOf(d, node))
  }

  /** `incrementCounter`: an absent field contributes nothing, a present one its value for the node. */
  function CounterContributions(field: Option<Value<int>>, node: Node, logical: bool): seq<Contribution>
  {
    match field
    case None => []
    case Some(v) => [if logical then AddLogical(Eval(v, node)) else AddCyclomatic(Eval(v, node))]
  }

  function AsItems(m: Metric, ids: seq<string>): seq<Contribution>
  {
    if |ids| == 0 then [] else AsItems(m, ids[..|ids| - 1]) + [AddItem(m, ids[|ids| - 1])]
  }

  /** What one node adds to each quantity of the reports it reaches. */
  function NodeDelta(node: Node, d: Descriptor, q: Quantity): int
  {
    match q
    case LogicalLines => LlocOf(d, node)
    case ExtraPaths => CyclomaticOf(d, node)
    case Total(Operator) => |OperatorsOf(d, node)|
    case Total(Operand) => |OperandsOf(d, node)|
    case Params => 0
  }

  lemma {:induction false} DeltaSumAppended(a: seq<Contribution>, b: seq<Contribution>, q: Quantity)
    ensures DeltaSum(a + b, q) == DeltaSum(a, q) + DeltaSum(b, q)
  {
    if |b| > 0 {
      var init := b[..|b| - 1];
      assert (a + b)[..|a + b| - 1] == a + init;
      DeltaSumAppended(a, init, q);
    } else {
      assert a + b == a;
    }
  }

  lemma {:induction false} DeltaSumItems(m: Metric, ids: seq<string>, q: Quantity)
    ensures DeltaSum(AsItems(m, ids), q) == if q == Total(m) then |ids| else 0
  {
    if |ids| > 0 {
      var init := ids[..|ids| - 1];
      DeltaSumItems(m, init, q);
      DeltaSumAppended(AsItems(m, init), [AddItem(m, ids[|ids| - 1])], q);
      assert DeltaSum([AddItem(m, ids[|ids| - 1])], q) == Delta(AddItem(m, ids[|ids| - 1]), q);
    }
  }

  lemma DeltaSumSingle(c: Contribution, q: Quantity)
    ensures DeltaSum([c], q) == Delta(c, q)
  {
    assert [c][..0] == [];
  }

  lemma CounterContributionsSum(field: Option<Value<int>>, node: Node, logical: bool, q: Quantity)
    ensures DeltaSum(CounterContributions(field, node, logical), q)
      == if q == (if logical then LogicalLines else ExtraPaths) then Amount(field, node) else 0
  {
    if field.Some? {
      DeltaSumSingle(CounterContributions(field, node, logical)[0], q);
    }
  }

  /** The contributions of a node add up to what its descriptor declares for it. */
  lemma NodeContributionsSum(node: Node, d: Descriptor, q: Quantity)
    ensures DeltaSum(NodeContributions(node, d), q) == NodeDelta(node, d, q)
  {
    var lloc := CounterContributions(d.lloc, node, true);
    var paths := CounterContributions(d.cyclomatic, node, false);
    var ops := AsItems(Operator, OperatorsOf(d, node));
    var opnds := AsItems(Operand, OperandsOf(d, node));
    CounterContributionsSum(d.lloc, node, true, q);
    CounterContributionsSum(d.cyclomatic, node, false, q);
    DeltaSumItems(Operator, OperatorsOf(d, node), q);
    DeltaSumItems(Operand, OperandsOf(d, node), q);
    DeltaSumAppended(lloc, paths, q);
    DeltaSumAppended(lloc + paths, ops, q);
    DeltaSumAppended(lloc + paths + ops, opnds, q);
  }

  /**
   * `processDependencies`: a descriptor with a `dependencies` function adds
   * what it returns, in order and without deduplication, and clears the
   * flag for good.
   */
  function DependenciesProcessed(s: State, node: Node, d: Descriptor): (t: State)
    ensures t.report.dependencies == s.report.dependencies + DependenciesOf(d, node, s.clearDependencies)
    ensures t.clearDependencies == (s.clearDependencies && d.dependencies.None?)
    ensures t.report.aggregate == s.report.aggregate && t.report.functions == s.report.functions
    ensures t.scopeStack == s.scopeStack && t.current == s.current
  {
    match d.dependencies
    case None => s
    case Some(f) =>
      s.(report := s.report.(dependencies := s.report.dependencies + Appended(f(node, s.clearDependencies))),
         clearDependencies := false)
  }

  /** `processNode`: logical lines, cyclomatic complexity, operators, operands, then dependencies. */
  function NodeProcessed(s: State, node: Node, d: Descriptor): (t: State)
    ensures t.scopeStack == s.scopeStack && t.current == s.current
    ensures |t.report.functions| == |s.report.functions|
    ensures t.report.dependencies == s.report.dependencies + DependenciesOf(d, node, s.clearDependencies)
    ensures t.clearDependencies == (s.clearDependencies && d.dependencies.None?)
  {
    ContributedAllFrame(s, NodeContributions(node, d));
    DependenciesProcessed(ContributedAll(s, NodeContributions(node, d)), node, d)
  }

  /**
   * What processing one node does to a quantity: the aggregate and the
   * current report receive the node's amount, every other report is
   * unchanged, and the invariant is kept.
   */
  lemma NodeProcessedEffect(s: State, node: Node, d: Descriptor, q: Quantity, j: nat)
    requires Valid(s)
    ensures var t := NodeProcessed(s, node, d);
      && Valid(t)
      && Measure(t.report.aggregate, q) == Measure(s.report.aggregate, q) + NodeDelta(node, d, q)
      && (j < |s.report.functions| ==>
            Measure(t.report.functions[j], q)
            == Measure(s.report.functions[j], q) + (if s.current == Some(j) then NodeDelta(node, d, q) else 0))
      && (j < |s.report.functions| && s.current != Some(j) ==> t.report.functions[j] == s.report.functions[j])
  {
    ContributedAllEffect(s, NodeContributions(node, d), q, j);
    NodeContributionsSum(node, d, q);
  }

  /** One callback of the walker. */
  function Step(s: State, e: Event): State
  {
    match e
    case Scope(name, lines, params) => ScopeEntered(s, name, lines, params)
    case Process(node, syntax) => NodeProcessed(s, node, syntax)
    case EndScope => ScopeExited(s)
  }

  /** The state after the walker has made the given callbacks, in order. */
  function Run(s: State, events: seq<Event>): State
  {
    if |events| == 0 then s else Step(Run(s, events[..|events| - 1]), events[|events| - 1])
  }

  /** What one event adds to a quantity of the aggregate. */
  function EventDelta(e: Event, q: Quantity): int
  {
    match e
    case Scope(_, _, params) => if q == Params then params else 0
    case Process(node, syntax) => NodeDelta(node, syntax, q)
    case EndScope => 0
  }

  function TotalDelta(events: seq<Event>, q: Quantity): int
  {
    if |events| == 0 then 0 else TotalDelta(events[..|events| - 1], q) + EventDelta(events[|events| - 1], q)
  }

  /** What the nodes processed while no scope was open added to a quantity. */
  function TopLevel(s: State, events: seq<Event>, q: Quantity): int
  {
    if |events| == 0 then 0
    else
      var init, e := events[..|events| - 1], events[|events| - 1];
      TopLevel(s, init, q) + (if e.Process? && Run(s, init).current.None? then NodeDelta(e.node, e.syntax, q) else 0)
  }

  function ScopeCount(events: seq<Event>): nat
  {
    if |events| == 0 then 0 else ScopeCount(events[..|events| - 1]) + (if events[|events| - 1].Scope? then 1 else 0)
  }

  /** Whether any processed node's descriptor has a `dependencies` function. */
  predicate AnyDependencies(events: seq<Event>)
  {
    if |events| == 0 then false
    else
      var e := events[|events| - 1];
      AnyDependencies(events[..|events| - 1]) || (e.Process? && e.syntax.dependencies.Some?)
  }

  /**
   * The dependencies the nodes declare, in order; each `dependencies`
   * function is told whether the flag is still set, which holds only up to
   * the first node whose descriptor has such a function.
   */
  function Discovered(clear: bool, events: seq<Event>): seq<Dependency>
  {
    if |events| == 0 then []
    else
      var init, e := events[..|events| - 1], events[|events| - 1];
      Discovered(clear, init)
      + (if e.Process? then DependenciesOf(e.syntax, e.node, clear && !AnyDependencies(init)) else [])
  }

  lemma ConcatAssociates(a: seq<Dependency>, b: seq<Dependency>, c: seq<Dependency>)
    ensures (a + b) + c == a + (b + c)
  {
  }

  /** The dependencies and the flag after one callback. */
  lemma StepDependencies(m: State, e: Event)
    requires Valid(m)
    ensures Step(m, e).report.dependencies
      == m.report.dependencies + (if e.Process? then DependenciesOf(e.syntax, e.node, m.clearDependencies) else [])
    ensures Step(m, e).clearDependencies == (m.clearDependencies && !(e.Process? && e.syntax.dependencies.Some?))
  {
    if e.Process? {
      ContributedAllEffect(m, NodeContributions(e.node, e.syntax), Params, 0);
    }
  }

  /** Each callback keeps the invariant. */
  lemma StepValid(s: State, e: Event)
    requires Valid(s)
    ensures Valid(Step(s, e))
  {
    if e.Process? {
      ContributedAllEffect(s, NodeContributions(e.node, e.syntax), Params, 0);
    }
  }

  lemma {:induction false} RunValid(s: State, events: seq<Event>)
    requires Valid(s)
    ensures Valid(Run(s, events))
  {
    if |events| > 0 {
      RunValid(s, events[..|events| - 1]);
      StepValid(Run(s, events[..|events| - 1]), events[|events| - 1]);
    }
  }

  /** One report per scope event, in order. */
  lemma {:induction false} RunScopes(s: State, events: seq<Event>)
    requires Valid(s)
    ensures |Run(s, events).report.functions| == |s.report.functions| + ScopeCount(events)
  {
    if |events| > 0 {
      var init := events[..|events| - 1];
      RunScopes(s, init);
      RunValid(s, init);
      if events[|events| - 1].Process? {
        var e := events[|events| - 1];
        ContributedAllEffect(Run(s, init), NodeContributions(e.node, e.syntax), Params, 0);
      }
    }
  }

  /** Every amount of every node reaches the aggregate. */
  lemma {:induction false} RunAggregate(s: State, events: seq<Event>, q: Quantity)
    requires Valid(s)
    ensures Measure(Run(s, events).report.aggregate, q) == Measure(s.report.aggregate, q) + TotalDelta(events, q)
  {
    if |events| > 0 {
      var init, e := events[..|events| - 1], events[|events| - 1];
      RunAggregate(s, init, q);
      RunValid(s, init);
      if e.Process? {
        ContributedAllEffect(Run(s, init), NodeContributions(e.node, e.syntax), q, 0);
        NodeContributionsSum(e.node, e.syntax, q);
      }
    }
  }

  /**
   * The aggregate's increase is what top-level code added plus the
   * increase of all function reports together.
   */
  lemma {:induction false} RunBalance(s: State, events: seq<Event>, q: Quantity)
    requires Valid(s)
    ensures var t := Run(s, events);
      Measure(t.report.aggregate, q) - Measure(s.report.aggregate, q)
      == TopLevel(s, events, q) + Sum(t.report.functions, q) - Sum(s.report.functions, q)
  {
    if |events| > 0 {
      var init, e := events[..|events| - 1], events[|events| - 1];
      RunBalance(s, init, q);
      RunValid(s, init);
      var m := Run(s, init);
      match e
      case Scope(name, lines, params) =>
        SumAppended(m.report.functions, CreateFunctionReport(name, lines, params), q);
      case Process(node, syntax) =>
        ContributedAllEffect(m, NodeContributions(node, syntax), q, 0);
        NodeContributionsSum(node, syntax, q);
      case EndScope =>
    }
  }

  /**
   * Dependencies are appended in the order the nodes declare them, and the
   * flag is cleared for good by the first node whose descriptor has a
   * `dependencies` function.
   */
  lemma {:induction false} RunDependencies(s: State, events: seq<Event>)
    requires Valid(s)
    ensures var t := Run(s, events);
      && t.report.dependencies == s.report.dependencies + Discovered(s.clearDependencies, events)
      && t.clearDependencies == (s.clearDependencies && !AnyDependencies(events))
  {
    if |events| > 0 {
      var init, e := events[..|events| - 1], events[|events| - 1];
      RunDependencies(s, init);
      RunValid(s, init);
      var m := Run(s, init);
      StepDependencies(m, e);
      var added := if e.Process? then DependenciesOf(e.syntax, e.node, m.clearDependencies) else [];
      assert Run(s, events) == Step(m, e);
      assert Discovered(s.clearDependencies, events) == Discovered(s.clearDependencies, init) + added;
      var before, found := s.report.dependencies, Discovered(s.clearDependencies, init);
      assert m.report.dependencies == before + found;
      ConcatAssociates(before, found, added);
    }
  }

  /** Non-negative amounts: every node adds a non-negative number of lines and paths, every scope a non-negative parameter count. */
  predicate NonNegativeEvent(e: Event)
  {
    match e
    case Scope(_, _, params) => params >= 0
    case Process(node, syntax) => LlocOf(syntax, node) >= 0 && CyclomaticOf(syntax, node) >= 0
    case EndScope => true
  }

  predicate NonNegative(events: seq<Event>)
  {
    forall k :: 0 <= k < |events| ==> NonNegativeEvent(events[k])
  }

  lemma NodeDeltaNonNegative(node: Node, d: Descriptor, q: Quantity)
    requires LlocOf(d, node) >= 0 && CyclomaticOf(d, node) >= 0
    ensures NodeDelta(node, d, q) >= 0
  {
  }

  /**
   * With non-negative amounts no quantity of an existing report ever
   * decreases: cyclomatic complexity is only incremented, logical lines
   * and Halstead totals never shrink.
   */
  lemma {:induction false} RunMonotone(s: State, events: seq<Event>, q: Quantity, j: nat)
    requires Valid(s) && NonNegative(events)
    ensures Measure(Run(s, events).report.aggregate, q) >= Measure(s.report.aggregate, q)
    ensures j < |s.report.functions| ==>
      |Run(s, events).report.functions| > j
      && Measure(Run(s, events).report.functions[j], q) >= Measure(s.report.functions[j], q)
  {
    if |events| > 0 {
      var init, e := events[..|events| - 1], events[|events| - 1];
      assert NonNegative(init) by {
        forall k | 0 <= k < |init| ensures NonNegativeEvent(init[k]) {
          assert init[k] == events[k];
        }
      }
      assert NonNegativeEvent(e);
      RunMonotone(s, init, q, j);
      RunValid(s, init);
      var m := Run(s, init);
      if e.Process? {
        ContributedAllEffect(m, NodeContributions(e.node, e.syntax), q, j);
        NodeContributionsSum(e.node, e.syntax, q);
        NodeDeltaNonNegative(e.node, e.syntax, q);
      } else if e.Scope? && j < |m.report.functions| {
        assert Step(m, e).report.functions[j] == m.report.functions[..|m.report.functions|][j];
      }
    }
  }

  /** A report's floor: at least one path and no negative line count. */
  predicate Floor(f: FunctionReport)
  {
    f.cyclomatic >= 1 && f.sloc.logical >= 0
  }

  predicate Floors(r: Report)
  {
    Floor(r.aggregate) && forall j :: 0 <= j < |r.functions| ==> Floor(r.functions[j])
  }

  /** With non-negative amounts every report keeps cyclomatic complexity at least 1. */
  lemma {:induction false} RunFloors(s: State, events: seq<Event>)
    requires Valid(s) && Floors(s.report) && NonNegative(events)
    ensures Floors(Run(s, events).report)
  {
    if |events| > 0 {
      var init, e := events[..|events| - 1], events[|events| - 1];
      assert NonNegative(init) by {
        forall k | 0 <= k < |init| ensures NonNegativeEvent(init[k]) {
          assert init[k] == events[k];
        }
      }
      assert NonNegativeEvent(e);
      RunFloors(s, init);
      RunValid(s, init);
      var m := Run(s, init);
      var t := Step(m, e);
      if e.Process? {
        var cs := NodeContributions(e.node, e.syntax);
        forall j | 0 <= j < |t.report.functions| ensures Floor(t.report.functions[j]) {
          ContributedAllEffect(m, cs, ExtraPaths, j);
          ContributedAllEffect(m, cs, LogicalLines, j);
          NodeContributionsSum(e.node, e.syntax, ExtraPaths);
          NodeContributionsSum(e.node, e.syntax, LogicalLines);
        }
        ContributedAllEffect(m, cs, ExtraPaths, 0);
        ContributedAllEffect(m, cs, LogicalLines, 0);
        NodeContributionsSum(e.node, e.syntax, ExtraPaths);
        NodeContributionsSum(e.node, e.syntax, LogicalLines);
      } else if e.Scope? {
        forall j | 0 <= j < |t.report.functions| ensures Floor(t.report.functions[j]) {
          if j < |m.report.functions| {
            assert t.report.functions[j] == m.report.functions[..|m.report.functions|][j];
          }
        }
      }
    }
  }
}
