/**
 * The report records the engine builds: one function report per scope plus
 * an aggregate, Halstead counters, and the per-report increments.
 */
module Reports {
  import opened Wrappers
  import opened Descriptors

  /**
   * One Halstead counter: every occurrence (`total`), the distinct ones
   * (`distinct`), and the escaped identifiers seen so far, each appended
   * when it is first seen.
   */
  datatype Counter = Counter(total: nat, distinct: nat, identifiers: seq<string>)

  datatype Halstead = Halstead(operators: Counter, operands: Counter)

  datatype Metric = Operator | Operand

  /** Logical lines, and physical lines when the scope has a position. */
  datatype Sloc = Sloc(logical: int, physical: Option<int>)

  /** The report of one scope, or of the whole unit (the aggregate, which has no name). */
  datatype FunctionReport = FunctionReport(
    name: Option<string>,
    params: int,
    cyclomatic: int,
    sloc: Sloc,
    line: Option<int>,
    halstead: Halstead)

  /** The report of one unit while it is being walked. */
  datatype Report = Report(aggregate: FunctionReport, functions: seq<FunctionReport>, dependencies: seq<Dependency>)

  /** The failures of an analysis: three input checks and the zero mean cyclomatic complexity. */
  datatype Error = InvalidSyntaxTree | InvalidWalker | InvalidWalkMethod | ZeroCyclomatic

  /** The counter of a fresh Halstead record. */
  const NoItems := Counter(0, 0, [])

  predicate NoDuplicates(s: seq<string>)
  {
    forall i, j :: 0 <= i < j < |s| ==> s[i] != s[j]
  }

  /** `distinct` is the length of the duplicate-free identifier list, and at most `total`. */
  predicate Consistent(c: Counter)
  {
    c.distinct == |c.identifiers| && c.distinct <= c.total && NoDuplicates(c.identifiers)
  }

  predicate WellFormed(f: FunctionReport)
  {
    Consistent(f.halstead.operators) && Consistent(f.halstead.operands)
  }

  /**
   * A fresh report: one path, no logical lines, no Halstead items; with a
   * position it starts at the start line and spans through the end line.
   */
  function CreateFunctionReport(name: Option<string>, lines: Option<Loc>, params: int): (r: FunctionReport)
    ensures r.name == name && r.params == params
    ensures r.cyclomatic == 1 && r.sloc.logical == 0 && r.halstead == Halstead(NoItems, NoItems)
    ensures WellFormed(r)
    ensures r.line.Some? == r.sloc.physical.Some? == lines.Some?
    ensures lines.Some? ==> r.line.value == lines.value.startLine
    ensures lines.Some? ==> r.line.value + r.sloc.physical.value - 1 == lines.value.endLine
  {
    var base := FunctionReport(name, params, 1, Sloc(0, None), None, Halstead(NoItems, NoItems));
    match lines
    case None => base
    case Some(loc) =>
      base.(line := Some(loc.startLine), sloc := Sloc(0, Some(loc.endLine - loc.startLine + 1)))
  }

  /** A fresh report of a unit: an anonymous aggregate with no parameters, no functions and no dependencies. */
  function CreateReport(lines: Option<Loc>): (r: Report)
    ensures r.functions == [] && r.dependencies == []
    ensures r.aggregate.name.None? && r.aggregate.params == 0 && r.aggregate.cyclomatic == 1
    ensures r.aggregate.sloc.logical == 0 && WellFormed(r.aggregate)
    ensures r.aggregate.sloc.physical.Some? == lines.Some?
    ensures r.aggregate == CreateFunctionReport(None, lines, 0)
  {
    Report(CreateFunctionReport(None, lines, 0), [], [])
  }

  /** The own property names of `Object.prototype`. */
  const PrototypeNames: set<string> := {
    "constructor", "__defineGetter__", "__defineSetter__", "hasOwnProperty",
    "__lookupGetter__", "__lookupSetter__", "isPrototypeOf", "propertyIsEnumerable",
    "toString", "valueOf", "__proto__", "toLocaleString"}

  /**
   * The key under which an identifier is tested for distinctness: the
   * identifier prefixed with `_` when it is an own name of `Object.prototype`.
   */
  function Escaped(id: string): string
  {
    if id in PrototypeNames then "_" + id else id
  }

  /** The escaped key ends with the identifier and differs from it exactly for prototype names. */
  lemma EscapedKeepsName(id: string)
    ensures var r := Escaped(id); |r| >= |id| && r[|r| - |id|..] == id
    ensures Escaped(id) == id <==> id !in PrototypeNames
  {
    if id in PrototypeNames {
      assert |Escaped(id)| == |id| + 1;
    }
  }

  /**
   * Escaping makes two different identifiers share one key. The keys are
   * kept in a list whose membership test compares elements, which prototype
   * names cannot fool, so the prefix protects nothing and only merges
   * `toString` with `_toString`.
   */
  lemma EscapeConflates()
    ensures "toString" != "_toString" && Escaped("toString") == Escaped("_toString")
  {
    assert "toString"[0] != "_toString"[0];
  }

  /** Identifiers shorter than every prototype name are their own keys. */
  lemma ShortNamesKept(id: string)
    requires |id| < 7
    ensures Escaped(id) == id
  {
  }

  /** Counts the identifier as distinct when its key has not been seen in this counter. */
  function DistinctIncremented(c: Counter, id: string): (r: Counter)
    ensures Escaped(id) in r.identifiers && r.total == c.total
    ensures r.identifiers == if Escaped(id) in c.identifiers then c.identifiers else c.identifiers + [Escaped(id)]
    ensures r.distinct == c.distinct + (if Escaped(id) in c.identifiers then 0 else 1)
    ensures forall k :: k in r.identifiers <==> k in c.identifiers || k == Escaped(id)
    ensures c.distinct == |c.identifiers| && NoDuplicates(c.identifiers) ==>
      r.distinct == |r.identifiers| && NoDuplicates(r.identifiers)
  {
    var key := Escaped(id);
    if key in c.identifiers then c
    else c.(identifiers := c.identifiers + [key], distinct := c.distinct + 1)
  }

  /** Records one occurrence: distinct first, then the total. */
  function ItemIncremented(c: Counter, id: string): (r: Counter)
    ensures r.total == c.total + 1
    ensures r.distinct == c.distinct + (if Escaped(id) in c.identifiers then 0 else 1)
    ensures forall k :: k in r.identifiers <==> k in c.identifiers || k == Escaped(id)
    ensures Consistent(c) ==> Consistent(r)
  {
    var seen := DistinctIncremented(c, id);
    seen.(total := seen.total + 1)
  }

  /** A key seen for the first time goes at the end of the identifiers; a key seen before leaves them as they are. */
  lemma FirstSeenAppended(c: Counter, id: string)
    ensures var r := ItemIncremented(c, id);
      r.identifiers == if Escaped(id) in c.identifiers then c.identifiers else c.identifiers + [Escaped(id)]
  {
  }

  /** Records a sequence of occurrences in order. */
  function ItemsIncremented(c: Counter, ids: seq<string>): Counter
  {
    if |ids| == 0 then c
    else ItemIncremented(ItemsIncremented(c, ids[..|ids| - 1]), ids[|ids| - 1])
  }

  /** The distinct keys of a sequence of identifiers. */
  function Keys(ids: seq<string>): (keys: set<string>)
    ensures forall k :: k in keys <==> exists i :: 0 <= i < |ids| && Escaped(ids[i]) == k
  {
    if |ids| == 0 then {}
    else
      var init := ids[..|ids| - 1];
      assert forall i :: 0 <= i < |init| ==> init[i] == ids[i];
      Keys(init) + {Escaped(ids[|ids| - 1])}
  }

  /**
   * Starting from a fresh counter, `total` counts every occurrence and
   * `distinct` the distinct keys, which are exactly the identifiers kept.
   */
  lemma {:induction false} CountedFromNothing(ids: seq<string>)
    ensures var c := ItemsIncremented(NoItems, ids);
      && Consistent(c) && c.total == |ids|
      && (forall k :: k in c.identifiers <==> k in Keys(ids))
      && c.distinct == |Keys(ids)|
  {
    if |ids| > 0 {
      var init, key := ids[..|ids| - 1], Escaped(ids[|ids| - 1]);
      CountedFromNothing(init);
      var c0 := ItemsIncremented(NoItems, init);
      assert Keys(ids) == Keys(init) + {key};
      if key in c0.identifiers {
        assert Keys(ids) == Keys(init);
      } else {
        assert key !in Keys(init);
        assert |Keys(ids)| == |Keys(init)| + 1;
      }
    }
  }

  function CounterOf(h: Halstead, m: Metric): Counter
  {
    match m
    case Operator => h.operators
    case Operand => h.operands
  }

  /** One contribution of a node to a report. */
  datatype Contribution = AddLogical(amount: int) | AddCyclomatic(amount: int) | AddItem(metric: Metric, identifier: string)

  /** The additive quantities of a report. */
  datatype Quantity = LogicalLines | ExtraPaths | Total(metric: Metric) | Params

  /** A quantity of a report; `ExtraPaths` is the cyclomatic complexity above its starting value 1. */
  function Measure(f: FunctionReport, q: Quantity): int
  {
    match q
    case LogicalLines => f.sloc.logical
    case ExtraPaths => f.cyclomatic - 1
    case Total(m) => CounterOf(f.halstead, m).total
    case Params => f.params
  }

  /** How much a contribution adds to a quantity. */
  function Delta(c: Contribution, q: Quantity): int
  {
    match (c, q)
    case (AddLogical(a), LogicalLines) => a
    case (AddCyclomatic(a), ExtraPaths) => a
    case (AddItem(m, _), Total(m')) => if m == m' then 1 else 0
    case _ => 0
  }

  /**
   * A contribution to one report: logical lines and cyclomatic complexity
   * grow by the amount, a Halstead item is recorded in its metric's counter.
   */
  function Applied(f: FunctionReport, c: Contribution): (g: FunctionReport)
    ensures forall q :: Measure(g, q) == Measure(f, q) + Delta(c, q)
    ensures WellFormed(f) ==> WellFormed(g)
    ensures g.name == f.name && g.line == f.line && g.sloc.physical == f.sloc.physical
    ensures c.AddItem? ==> CounterOf(g.halstead, c.metric) == ItemIncremented(CounterOf(f.halstead, c.metric), c.identifier)
    ensures c.AddItem? ==> forall m :: m != c.metric ==> CounterOf(g.halstead, m) == CounterOf(f.halstead, m)
    ensures !c.AddItem? ==> g.halstead == f.halstead
  {
    match c
    case AddLogical(a) => f.(sloc := f.sloc.(logical := f.sloc.logical + a))
    case AddCyclomatic(a) => f.(cyclomatic := f.cyclomatic + a)
    case AddItem(Operator, id) => f.(halstead := f.halstead.(operators := ItemIncremented(f.halstead.operators, id)))
    case AddItem(Operand, id) => f.(halstead := f.halstead.(operands := ItemIncremented(f.halstead.operands, id)))
  }
}
