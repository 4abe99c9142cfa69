/**
 * Small units run through the engine with the descriptors of this model.
 * Statements, identifiers and branches are described by the base table,
 * which is not part of this model; the scenarios that need them use
 * stand-in descriptors with the same counts.
 */
module Scenarios {
  import opened Wrappers
  import opened Descriptors
  import opened Reports
  import opened Engine
  import Es2015
  import Es2017

  /** A node of the given kind with everything else blank. */
  function Blank(kind: string, line: int): Node
  {
    Node(kind, line, "", "", "", false, false, false, false, false)
  }

  /** A stand-in for an identifier: one operand, its name. */
  const IdentifierSyntax := NoSyntax.(operands := [FromNode((n: Node) => Some(n.idName))])

  /** A stand-in for a branch such as `if`: one logical line and one extra path. */
  const BranchSyntax := NoSyntax.(lloc := Some(Fixed(1)), cyclomatic := Some(Fixed(1)), operators := [Literal("if")])

  /** A unit holding only `import ... from "./util"` on line 1 declares that one module dependency. */
  lemma ImportOfUtil()
    ensures var node := Blank("ImportDeclaration", 1).(sourceValue := "./util");
      var t := Run(Initial(None), [Process(node, Es2015.ImportDeclaration(Defaults))]);
      t.report.dependencies == [Dependency(1, "Module", "./util")]
      && t.report.functions == []
      && t.report.aggregate.sloc.logical == 1
      && t.report.aggregate.cyclomatic == 1
      && !t.clearDependencies
  {
    ImportOfUtilFrom(Initial(None));
  }

  /** The same import processed in any state with the counts of a fresh unit. */
  lemma ImportOfUtilFrom(s0: State)
    requires Valid(s0) && s0.report.functions == [] && s0.report.dependencies == [] && s0.clearDependencies
    requires s0.report.aggregate.sloc.logical == 0 && s0.report.aggregate.cyclomatic == 1
    ensures var node := Blank("ImportDeclaration", 1).(sourceValue := "./util");
      var t := Run(s0, [Process(node, Es2015.ImportDeclaration(Defaults))]);
      t.report.dependencies == [Dependency(1, "Module", "./util")]
      && t.report.functions == []
      && t.report.aggregate.sloc.logical == 1
      && t.report.aggregate.cyclomatic == 1
      && !t.clearDependencies
  {
    var node := Blank("ImportDeclaration", 1).(sourceValue := "./util");
    var d := Es2015.ImportDeclaration(Defaults);
    var events := [Process(node, d)];
    assert events[..0] == [];
    RunDependencies(s0, events);
    RunScopes(s0, events);
    RunAggregate(s0, events, LogicalLines);
    RunAggregate(s0, events, ExtraPaths);
    assert Contributes(d, node, 1, 0, ["import"], []);
  }

  /** Processing an identifier stand-in records its name once more as an operand, in the aggregate. */
  lemma IdentifierProcessed(s: State, node: Node)
    ensures var t := Step(s, Process(node, IdentifierSyntax));
      t.report.aggregate.halstead.operands == ItemIncremented(s.report.aggregate.halstead.operands, node.idName)
      && t.report.aggregate.halstead.operators == s.report.aggregate.halstead.operators
      && t.report.aggregate.sloc == s.report.aggregate.sloc
  {
    var items := IdentifierSyntax.operands;
    RecordedLast(items, 0, node);
    assert items[..1] == items && items[..0] == [];
    assert Counted(items[0], node) == Some(node.idName);
    assert OperandsOf(IdentifierSyntax, node) == [] + [node.idName] == [node.idName];
    assert OperatorsOf(IdentifierSyntax, node) == [];
    var c := AddItem(Operand, node.idName);
    AsItemsLast(Operand, [], node.idName);
    var cs := NodeContributions(node, IdentifierSyntax);
    assert cs == [c];
    ContributedAllLast(s, [], c);
    assert [] + [c] == [c];
    assert Step(s, Process(node, IdentifierSyntax)) == ContributedAll(s, cs);
  }

  /** A shorthand property adds no line, no operator and no operand of its own. */
  lemma ShorthandProcessed(s: State, node: Node)
    requires node.shorthand
    ensures var t := Step(s, Process(node, Es2015.Property(Defaults)));
      t.report.aggregate.halstead == s.report.aggregate.halstead
      && t.report.aggregate.sloc == s.report.aggregate.sloc
  {
    var d := Es2015.Property(Defaults);
    assert Contributes(d, node, 0, 0, [], []);
    var c := AddLogical(0);
    var cs := NodeContributions(node, d);
    assert cs == [c];
    ContributedAllLast(s, [], c);
    assert [] + [c] == [c];
  }

  lemma RunLast(s: State, events: seq<Event>, e: Event)
    ensures Run(s, events + [e]) == Step(Run(s, events), e)
  {
    assert (events + [e])[..|events|] == events;
  }

  /** The identifier `a` met twice: two occurrences, one distinct key. */
  lemma SameOperandTwice()
    ensures ItemIncremented(NoItems, "a") == Counter(1, 1, ["a"])
    ensures ItemIncremented(Counter(1, 1, ["a"]), "a") == Counter(2, 1, ["a"])
  {
    ShortNamesKept("a");
  }

  /**
   * The shorthand property `{a}`: the property itself adds no line and no
   * operator, and the walker visits the same identifier as key and as
   * value, so the operand `a` is counted twice but distinct once.
   */
  lemma ShorthandProperty()
    ensures var property := Blank("Property", 1).(shorthand := true);
      var key := Blank("Identifier", 1).(idName := "a");
      var events := [Process(property, Es2015.Property(Defaults)), Process(key, IdentifierSyntax), Process(key, IdentifierSyntax)];
      var h := Run(Initial(None), events).report.aggregate.halstead;
      h.operands.total == 2 && h.operands.distinct == 1 && h.operands.identifiers == ["a"]
      && h.operators.total == 0
      && Run(Initial(None), events).report.aggregate.sloc.logical == 0
  {
    var property := Blank("Property", 1).(shorthand := true);
    var key := Blank("Identifier", 1).(idName := "a");
    var e0, e1 := Process(property, Es2015.Property(Defaults)), Process(key, IdentifierSyntax);
    var s0 := Initial(None);
    RunThree(s0, e0, e1, e1);
    ShorthandProcessed(s0, property);
    var s1 := Step(s0, e0);
    IdentifierProcessed(s1, key);
    var s2 := Step(s1, e1);
    IdentifierProcessed(s2, key);
    SameOperandTwice();
  }

  lemma RunThree(s: State, e0: Event, e1: Event, e2: Event)
    ensures Run(s, [e0, e1, e2]) == Step(Step(Step(s, e0), e1), e2)
  {
    RunLast(s, [], e0);
    RunLast(s, [e0], e1);
    RunLast(s, [e0, e1], e2);
    assert [] + [e0] == [e0] && [e0] + [e1] == [e0, e1] && [e0, e1] + [e2] == [e0, e1, e2];
  }

  lemma RunFive(s: State, e0: Event, e1: Event, e2: Event, e3: Event, e4: Event)
    ensures Run(s, [e0, e1, e2, e3, e4]) == Step(Step(Run(s, [e0, e1, e2]), e3), e4)
  {
    RunLast(s, [e0, e1, e2], e3);
    RunLast(s, [e0, e1, e2, e3], e4);
    assert [e0, e1, e2] + [e3] == [e0, e1, e2, e3] && [e0, e1, e2, e3] + [e4] == [e0, e1, e2, e3, e4];
  }

  /** The declaration `function f (x)` at top level of a fresh unit, then its scope opened. */
  lemma FunctionOpened(s0: State, f: Node)
    requires Valid(s0) && s0.current.None? && s0.scopeStack == [] && s0.report.functions == []
    requires s0.report.aggregate.sloc.logical == 0 && s0.report.aggregate.cyclomatic == 1 && s0.report.aggregate.params == 0
    requires f.idName == "f" && f.safeId == "f"
    ensures var s2 := Step(Step(s0, Process(f, Es2017.FunctionDeclaration(Defaults))), Scope(Some("f"), None, 1));
      && Valid(s2) && s2.current == Some(0) && s2.scopeStack == [0] && |s2.report.functions| == 1
      && s2.report.functions[0] == CreateFunctionReport(Some("f"), None, 1)
      && s2.report.aggregate.sloc.logical == 1 && s2.report.aggregate.cyclomatic == 1 && s2.report.aggregate.params == 1
  {
    var d := Es2017.FunctionDeclaration(Defaults);
    assert NodeDelta(f, d, LogicalLines) == 1 && NodeDelta(f, d, ExtraPaths) == 0;
    assert Step(s0, Process(f, d)) == NodeProcessed(s0, f, d);
    NodeProcessedEffect(s0, f, d, LogicalLines, 0);
    NodeProcessedEffect(s0, f, d, ExtraPaths, 0);
    NodeProcessedEffect(s0, f, d, Params, 0);
  }

  /** A branch inside the only, current scope: one more line and path in it and in the aggregate. */
  lemma BranchInScope(s: State, branch: Node, d: Descriptor)
    requires Valid(s) && s.current == Some(0) && |s.report.functions| == 1
    requires NodeDelta(branch, d, LogicalLines) == 1 && NodeDelta(branch, d, ExtraPaths) == 1
    ensures var t := NodeProcessed(s, branch, d);
      && Valid(t) && t.current == Some(0) && t.scopeStack == s.scopeStack && |t.report.functions| == 1
      && t.report.functions[0].cyclomatic == s.report.functions[0].cyclomatic + 1
      && t.report.functions[0].sloc.logical == s.report.functions[0].sloc.logical + 1
      && t.report.functions[0].params == s.report.functions[0].params
      && t.report.aggregate.cyclomatic == s.report.aggregate.cyclomatic + 1
      && t.report.aggregate.sloc.logical == s.report.aggregate.sloc.logical + 1
      && t.report.aggregate.params == s.report.aggregate.params
  {
    NodeProcessedEffect(s, branch, d, LogicalLines, 0);
    NodeProcessedEffect(s, branch, d, ExtraPaths, 0);
    NodeProcessedEffect(s, branch, d, Params, 0);
  }

  /** Two branches in the only, current scope, then the scope closed. */
  lemma TwoBranchesClosed(s: State, branch: Node, d: Descriptor)
    requires Valid(s) && s.current == Some(0) && s.scopeStack == [0] && |s.report.functions| == 1
    requires NodeDelta(branch, d, LogicalLines) == 1 && NodeDelta(branch, d, ExtraPaths) == 1
    ensures var t := ScopeExited(Step(Step(s, Process(branch, d)), Process(branch, d)));
      && t.current.None? && |t.report.functions| == 1
      && t.report.functions[0].cyclomatic == s.report.functions[0].cyclomatic + 2
      && t.report.functions[0].sloc.logical == s.report.functions[0].sloc.logical + 2
      && t.report.functions[0].params == s.report.functions[0].params
      && t.report.aggregate.cyclomatic == s.report.aggregate.cyclomatic + 2
      && t.report.aggregate.sloc.logical == s.report.aggregate.sloc.logical + 2
      && t.report.aggregate.params == s.report.aggregate.params
  {
    var s1 := NodeProcessed(s, branch, d);
    BranchInScope(s, branch, d);
    BranchInScope(s1, branch, d);
    assert Step(Step(s, Process(branch, d)), Process(branch, d)) == NodeProcessed(s1, branch, d);
  }

  /**
   * A function with one parameter and two branches: its report has
   * cyclomatic complexity 3 and two logical lines, and the aggregate,
   * which also counts the declaration's own line, has the parameter and
   * both branches too. The events assume that the walker processes the
   * declaration node before it opens the declaration's scope, so the
   * declaration's own line counts at the top level; the walker is not part
   * of this model, and the other order would give the function three lines.
   */
  lemma FunctionWithTwoBranches()
    ensures var f := Blank("FunctionDeclaration", 1).(idName := "f", safeId := "f");
      var branch := Blank("IfStatement", 2);
      var events := [Process(f, Es2017.FunctionDeclaration(Defaults)), Scope(Some("f"), None, 1),
                     Process(branch, BranchSyntax), Process(branch, BranchSyntax), EndScope];
      var t := Run(Initial(None), events);
      |t.report.functions| == 1
      && t.report.functions[0].cyclomatic == 3 && t.report.functions[0].params == 1
      && t.report.functions[0].sloc.logical == 2
      && t.report.aggregate.params == 1 && t.report.aggregate.cyclomatic == 3
      && t.report.aggregate.sloc.logical == 3
      && t.current.None?
  {
    var f := Blank("FunctionDeclaration", 1).(idName := "f", safeId := "f");
    var branch := Blank("IfStatement", 2);
    assert NodeDelta(branch, BranchSyntax, LogicalLines) == 1 && NodeDelta(branch, BranchSyntax, ExtraPaths) == 1;
    FunctionWithTwoBranchesFrom(Initial(None), f, branch, BranchSyntax);
  }

  /**
   * The same unit walked from any state with the counts of a fresh one,
   * with any branch descriptor that adds one line and one path.
   */
  lemma FunctionWithTwoBranchesFrom(s0: State, f: Node, branch: Node, b: Descriptor)
    requires Valid(s0) && s0.current.None? && s0.scopeStack == [] && s0.report.functions == []
    requires s0.report.aggregate.sloc.logical == 0 && s0.report.aggregate.cyclomatic == 1 && s0.report.aggregate.params == 0
    requires f.idName == "f" && f.safeId == "f"
    requires NodeDelta(branch, b, LogicalLines) == 1 && NodeDelta(branch, b, ExtraPaths) == 1
    ensures var events := [Process(f, Es2017.FunctionDeclaration(Defaults)), Scope(Some("f"), None, 1),
                           Process(branch, b), Process(branch, b), EndScope];
      var t := Run(s0, events);
      |t.report.functions| == 1
      && t.report.functions[0].cyclomatic == 3 && t.report.functions[0].params == 1
      && t.report.functions[0].sloc.logical == 2
      && t.report.aggregate.params == 1 && t.report.aggregate.cyclomatic == 3
      && t.report.aggregate.sloc.logical == 3
      && t.current.None?
  {
    var e0, e1 := Process(f, Es2017.FunctionDeclaration(Defaults)), Scope(Some("f"), None, 1);
    var e2 := Process(branch, b);
    var s2 := Step(Step(s0, e0), e1);
    FunctionOpened(s0, f);
    TwoBranchesClosed(s2, branch, b);
    RunThree(s0, e0, e1, e2);
    RunFive(s0, e0, e1, e2, e2, EndScope);
    assert Run(s0, [e0, e1, e2, e2, EndScope]) == ScopeExited(Step(Step(s2, e2), e2));
  }
}
