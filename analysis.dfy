/**
 * The analyser as the source runs it: `analyse` creates the report, hands
 * three callbacks to the walker (`createScope`, `popScope`, `processNode`),
 * which update the report, the scope stack and the current report in
 * place, and then runs the finishing pass.
 *
 * Every method of `Analyser` is proved against the `Engine` function that
 * specifies it, so the lemmas about `Engine.Run` and `Metrics.Completed`
 * carry over to `Analyse`.
 */
module Analysis {
  import opened Wrappers
  import opened Descriptors
  import opened Reports
  import opened Engine
  import opened Metrics

  class Analyser {
    var aggregate: FunctionReport
    var functions: seq<FunctionReport>
    var dependencies: seq<Dependency>
    var scopeStack: seq<nat>
    var current: Option<nat>
    var clearDependencies: bool

    /** The analyser's state as the value the `Engine` functions work on. */
    function Snapshot(): State
      reads this
    {
      State(Report(aggregate, functions, dependencies), scopeStack, current, clearDependencies)
    }

    function Produced(): Report
      reads this
    {
      Report(aggregate, functions, dependencies)
    }

    /** `createReport`, with no scope open and dependencies still to be cleared. */
    constructor (lines: Option<Loc>)
      ensures Snapshot() == Initial(lines)
    {
      aggregate := CreateFunctionReport(None, lines, 0);
      functions := [];
      dependencies := [];
      scopeStack := [];
      current := None;
      clearDependencies := true;
    }

    /** `pushScope`: a fresh report is appended to `functions`, pushed on the stack and made current. */
    method PushScope(name: Option<string>, lines: Option<Loc>, params: int)
      modifies this
      ensures Snapshot() == ScopeEntered(old(Snapshot()), name, lines, params)
    {
      var created := CreateFunctionReport(name, lines, params);
      functions := functions + [created];
      aggregate := aggregate.(params := aggregate.params + params);
      scopeStack := scopeStack + [|functions| - 1];
      current := Some(|functions| - 1);
    }

    /** `popScope`: the stack loses its top, and the new top, if any, becomes current. */
    method PopScope()
      modifies this
      ensures Snapshot() == ScopeExited(old(Snapshot()))
    {
      if |scopeStack| > 0 {
        scopeStack := scopeStack[..|scopeStack| - 1];
      }
      if |scopeStack| > 0 {
        current := Some(scopeStack[|scopeStack| - 1]);
      } else {
        current := None;
      }
    }

    /** `incrementLogicalSloc`: the aggregate's logical lines, and the current report's if there is one. */
    method IncrementLogicalSloc(amount: int)
      modifies this
      ensures Snapshot() == Contributed(old(Snapshot()), AddLogical(amount))
    {
      aggregate := aggregate.(sloc := aggregate.sloc.(logical := aggregate.sloc.logical + amount));
      if current.Some? && current.value < |functions| {
        var f := functions[current.value];
        functions := functions[current.value := f.(sloc := f.sloc.(logical := f.sloc.logical + amount))];
      }
    }

    /** `incrementCyclomatic`: the aggregate's cyclomatic complexity, and the current report's if there is one. */
    method IncrementCyclomatic(amount: int)
      modifies this
      ensures Snapshot() == Contributed(old(Snapshot()), AddCyclomatic(amount))
    {
      aggregate := aggregate.(cyclomatic := aggregate.cyclomatic + amount);
      if current.Some? && current.value < |functions| {
        var f := functions[current.value];
        functions := functions[current.value := f.(cyclomatic := f.cyclomatic + amount)];
      }
    }

    /**
     * `incrementCounter`: a descriptor field that is a number is added as
     * it is, one that is a function is applied to the node first, and an
     * absent one adds nothing.
     */
    method IncrementCounter(node: Node, field: Option<Value<int>>, logical: bool)
      modifies this
      ensures Snapshot() == ContributedAll(old(Snapshot()), CounterContributions(field, node, logical))
    {
      if field.Some? {
        var amount := Eval(field.value, node);
        if logical {
          IncrementLogicalSloc(amount);
        } else {
          IncrementCyclomatic(amount);
        }
      }
    }

    /** `halsteadItemEncountered`: the item is recorded in the current report, if any, and in the aggregate. */
    method HalsteadItemEncountered(metric: Metric, identifier: string)
      modifies this
      ensures Snapshot() == Contributed(old(Snapshot()), AddItem(metric, identifier))
    {
      if current.Some? && current.value < |functions| {
        functions := functions[current.value := Applied(functions[current.value], AddItem(metric, identifier))];
      }
      aggregate := Applied(aggregate, AddItem(metric, identifier));
    }

    /**
     * The body of `processHalsteadMetric`'s loop, for the item at position
     * `i`: the item is encountered when its filter, if any, accepts the node
     * and its identifier is defined, so the items up to and including it
     * have all been recorded afterwards.
     */
    method ProcessHalsteadItem(node: Node, items: seq<Item>, i: nat, metric: Metric, ghost start: State)
      requires i < |items|
      requires Snapshot() == ContributedAll(start, AsItems(metric, Recorded(items[..i], node)))
      modifies this
      ensures Snapshot() == ContributedAll(start, AsItems(metric, Recorded(items[..i + 1], node)))
    {
      ItemRecorded(start, metric, items, i, node);
      var item := items[i];
      var counted := Counted(item, node);
      if counted.Some? {
        HalsteadItemEncountered(metric, counted.value);
      }
    }

    /** `processHalsteadMetric`: the items of the descriptor's list for the metric, in list order. */
    method ProcessHalsteadMetric(node: Node, syntax: Descriptor, metric: Metric)
      modifies this
      ensures Snapshot() == ContributedAll(old(Snapshot()),
        AsItems(metric, if metric == Operator then OperatorsOf(syntax, node) else OperandsOf(syntax, node)))
    {
      var items := if metric == Operator then syntax.operators else syntax.operands;
      ghost var start := Snapshot();
      var i := 0;
      while i < |items|
        invariant 0 <= i <= |items|
        invariant Snapshot() == ContributedAll(start, AsItems(metric, Recorded(items[..i], node)))
      {
        ProcessHalsteadItem(node, items, i, metric, start);
        i := i + 1;
      }
      assert items[..i] == items;
    }

    /**
     * `processDependencies`: a descriptor with a `dependencies` function
     * has its result appended; the answer says whether there was one.
     */
    method ProcessDependencies(node: Node, syntax: Descriptor) returns (processed: bool)
      modifies this
      ensures processed == syntax.dependencies.Some?
      ensures Snapshot() == old(Snapshot()).(report := old(Snapshot()).report.(dependencies :=
        old(dependencies) + DependenciesOf(syntax, node, old(clearDependencies))))
    {
      processed := false;
      if syntax.dependencies.Some? {
        var found := syntax.dependencies.value(node, clearDependencies);
        dependencies := dependencies + Appended(found);
        processed := true;
      }
    }

    /** `processNode`: lines, paths, operators, operands, then dependencies, which clear the flag for good. */
    method ProcessNode(node: Node, syntax: Descriptor)
      modifies this
      ensures Snapshot() == NodeProcessed(old(Snapshot()), node, syntax)
    {
      ghost var s := Snapshot();
      var lloc := CounterContributions(syntax.lloc, node, true);
      var paths := CounterContributions(syntax.cyclomatic, node, false);
      var ops := AsItems(Operator, OperatorsOf(syntax, node));
      var opnds := AsItems(Operand, OperandsOf(syntax, node));
      IncrementCounter(node, syntax.lloc, true);
      IncrementCounter(node, syntax.cyclomatic, false);
      ContributedAllAppended(s, lloc, paths);
      ProcessHalsteadMetric(node, syntax, Operator);
      ContributedAllAppended(s, lloc + paths, ops);
      ProcessHalsteadMetric(node, syntax, Operand);
      ContributedAllAppended(s, lloc + paths + ops, opnds);
      var processed := ProcessDependencies(node, syntax);
      if processed {
        clearDependencies := false;
      }
    }
  }

  /** The syntax tree, of which the analyser itself reads only the position. */
  datatype Tree = Tree(loc: Option<Loc>)

  /** The walker: the callbacks its `walk` makes for a tree under the given settings, in order. */
  datatype Walker = Walker(walk: Option<(Tree, Settings) -> seq<Event>>)

  /** What `analyse` returns for valid inputs, or the error its finishing pass throws. */
  function Analysed(ast: Tree, walk: (Tree, Settings) -> seq<Event>, options: Option<Settings>,
                    effort: Halstead -> Num, ln: real -> real): Result<Summary, Error>
  {
    var settings := SettingsFor(options);
    Completed(Run(Initial(ast.loc), walk(ast, settings)).report, settings.newmi, effort, ln)
  }

  /**
   * `analyse`: the three input checks in order, the walk with the
   * analyser's callbacks, then the finishing pass.
   */
  method Analyse(ast: Option<Tree>, walker: Option<Walker>, options: Option<Settings>,
                 effort: Halstead -> Num, ln: real -> real) returns (r: Result<Summary, Error>)
    ensures ast.None? ==> r == Failure(InvalidSyntaxTree)
    ensures ast.Some? && walker.None? ==> r == Failure(InvalidWalker)
    ensures ast.Some? && walker.Some? && walker.value.walk.None? ==> r == Failure(InvalidWalkMethod)
    ensures ast.Some? && walker.Some? && walker.value.walk.Some?
      ==> r == Analysed(ast.value, walker.value.walk.value, options, effort, ln)
  {
    if ast.None? {
      return Failure(InvalidSyntaxTree);
    }
    if walker.None? {
      return Failure(InvalidWalker);
    }
    if walker.value.walk.None? {
      return Failure(InvalidWalkMethod);
    }
    var settings := SettingsFor(options);
    var analyser := new Analyser(ast.value.loc);
    var events := walker.value.walk.value(ast.value, settings);
    var i := 0;
    while i < |events|
      invariant 0 <= i <= |events|
      invariant analyser.Snapshot() == Run(Initial(ast.value.loc), events[..i])
    {
      match events[i] {
        case Scope(name, lines, params) => analyser.PushScope(name, lines, params);
        case Process(node, syntax) => analyser.ProcessNode(node, syntax);
        case EndScope => analyser.PopScope();
      }
      assert events[..i + 1][..i] == events[..i];
      i := i + 1;
    }
    assert events[..i] == events;
    r := CalculateMetrics(analyser.Produced(), settings.newmi, effort, ln);
  }

  /**
   * With non-negative amounts from the walker and a finite, non-negative
   * effort for every report the walk leaves, an analysis never throws, and its index is finite and at most 171, or
   * within 0..100 with `newmi`.
   */
  lemma AnalysedBounded(ast: Tree, walk: (Tree, Settings) -> seq<Event>, options: Option<Settings>,
                        effort: Halstead -> Num, ln: real -> real)
    requires NonNegative(walk(ast, SettingsFor(options)))
    requires EffortsBounded(Run(Initial(ast.loc), walk(ast, SettingsFor(options))).report, effort)
    ensures Analysed(ast, walk, options, effort, ln).Success?
    ensures var s := Analysed(ast, walk, options, effort, ln).value;
      s.cyclomatic >= 1.0 && s.maintainability.Finite? && s.maintainability.v <= 171.0
      && (SettingsFor(options).newmi ==> 0.0 <= s.maintainability.v <= 100.0)
  {
    var settings := SettingsFor(options);
    var s0 := Initial(ast.loc);
    RunFloors(s0, walk(ast, settings));
    var t := Run(s0, walk(ast, settings));
    CompletedBounded(t.report, settings.newmi, effort, ln);
  }

  /**
   * A successful analysis has one function report per scope the walker
   * opened, and the dependencies the nodes declared, in order.
   */
  lemma AnalysedShape(ast: Tree, walk: (Tree, Settings) -> seq<Event>, options: Option<Settings>,
                      effort: Halstead -> Num, ln: real -> real)
    requires Analysed(ast, walk, options, effort, ln).Success?
    ensures var s, events := Analysed(ast, walk, options, effort, ln).value, walk(ast, SettingsFor(options));
      |s.functions| == ScopeCount(events) && s.dependencies == Discovered(true, events)
  {
    var events := walk(ast, SettingsFor(options));
    RunScopes(Initial(ast.loc), events);
    RunDependencies(Initial(ast.loc), events);
  }
}
