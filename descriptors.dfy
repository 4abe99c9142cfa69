/**
 * Syntax descriptors: how one kind of syntax-tree node contributes to the
 * metrics. Every field of a descriptor is absent, a constant, or a function
 * of the node, and one evaluation rule (`Eval`) resolves it.
 */
module Descriptors {
  import opened Wrappers

  /** Source position of a node or scope: `loc.start.line` and `loc.end.line`. */
  datatype Loc = Loc(startLine: int, endLine: int)

  /**
   * The properties of a syntax-tree node that the descriptor tables read.
   * A flag the parser leaves out reads as false.
   */
  datatype Node = Node(
    kind: string,         // node.type
    startLine: int,       // node.loc.start.line
    idName: string,       // node.id.name
    safeId: string,       // safeName(node.id), computed outside this model
    sourceValue: string,  // node.source.value
    isStatic: bool,       // node.static
    expression: bool,     // node.expression: an arrow whose body is an expression
    shorthand: bool,      // node.shorthand
    generator: bool,      // node.generator
    isAsync: bool)        // node.async

  /**
   * Analysis settings. A key that is missing from a caller's options object
   * is `undefined` in the source and reads as false here.
   */
  datatype Settings = Settings(
    forin: bool, logicalor: bool, newmi: bool, switchcase: bool, trycatch: bool, forof: bool)

  /** The defaults: `forof` is not among them, so it reads as false. */
  const Defaults := Settings(false, true, false, true, false, false)

  /** The settings an analysis uses: the options object, or the defaults when the options are not an object. */
  function SettingsFor(options: Option<Settings>): (s: Settings)
    ensures options.None? ==> !s.forin && s.logicalor && !s.newmi && s.switchcase && !s.trycatch && !s.forof
    ensures options.Some? ==> s == options.value
  {
    match options
    case Some(settings) => settings
    case None => Defaults
  }

  /** A descriptor field: a constant, or a function of the node being processed. */
  datatype Value<T> = Fixed(value: T) | Derived(at: Node -> T)

  /** The single evaluation rule for descriptor fields. */
  function Eval<T>(v: Value<T>, node: Node): T
  {
    match v
    case Fixed(x) => x
    case Derived(f) => f(node)
  }

  /**
   * A Halstead item: its identifier (`None` is `undefined`), possibly
   * computed from the node, and an optional filter.
   */
  datatype Item = Item(identifier: Value<Option<string>>, filter: Option<Node -> bool>)

  /** An item with a constant identifier and no filter. */
  function Literal(name: string): Item
  {
    Item(Fixed(Some(name)), None)
  }

  /** An item whose identifier is computed from the node and may be `undefined`. */
  function FromNode(f: Node -> Option<string>): Item
  {
    Item(Derived(f), None)
  }

  /**
   * The identifier an item records for a node: none when its filter exists
   * and does not hold, or when the identifier is `undefined`.
   */
  function Counted(item: Item, node: Node): (r: Option<string>)
    ensures r.Some? <==> (item.filter.None? || item.filter.value(node)) && Eval(item.identifier, node).Some?
    ensures r.Some? ==> r == Eval(item.identifier, node)
  {
    if item.filter.None? || item.filter.value(node) then Eval(item.identifier, node) else None
  }

  /**
   * The identifiers a list of items records for a node: those of the
   * counted items, one each, in item order (`RecordedInOrder`,
   * `RecordedMembers`).
   */
  function Recorded(items: seq<Item>, node: Node): (r: seq<string>)
    ensures |r| <= |items|
  {
    if |items| == 0 then []
    else
      var init := Recorded(items[..|items| - 1], node);
      match Counted(items[|items| - 1], node)
      case None => init
      case Some(id) => init + [id]
  }

  /** The positions of the items that are counted for a node, in increasing order. */
  function CountedPositions(items: seq<Item>, node: Node): (ks: seq<int>)
    ensures forall i, j :: 0 <= i < j < |ks| ==> ks[i] < ks[j]
    ensures forall i :: 0 <= i < |ks| ==> 0 <= ks[i] < |items|
    ensures forall k :: 0 <= k < |items| ==> (k in ks <==> Counted(items[k], node).Some?)
  {
    if |items| == 0 then []
    else
      var n := |items| - 1;
      assert forall k :: 0 <= k < n ==> items[..n][k] == items[k];
      CountedPositions(items[..n], node) + (if Counted(items[n], node).Some? then [n] else [])
  }

  /**
   * The recorded identifiers are the identifiers of the counted items, one
   * per counted item, in the order of the items.
   */
  lemma {:induction false} RecordedInOrder(items: seq<Item>, node: Node)
    ensures var r, ks := Recorded(items, node), CountedPositions(items, node);
      |r| == |ks| && forall i :: 0 <= i < |ks| ==> Counted(items[ks[i]], node) == Some(r[i])
  {
    if |items| > 0 {
      var n := |items| - 1;
      var init := items[..n];
      RecordedInOrder(init, node);
      var r0, ks0 := Recorded(init, node), CountedPositions(init, node);
      var r, ks := Recorded(items, node), CountedPositions(items, node);
      match Counted(items[n], node)
      case None =>
        assert r == r0 && ks == ks0;
        forall i | 0 <= i < |ks|
          ensures Counted(items[ks[i]], node) == Some(r[i])
        {
          assert init[ks0[i]] == items[ks0[i]];
        }
      case Some(id) =>
        assert r == r0 + [id] && ks == ks0 + [n];
        forall i | 0 <= i < |ks|
          ensures Counted(items[ks[i]], node) == Some(r[i])
        {
          if i < |ks0| {
            assert ks[i] == ks0[i] && r[i] == r0[i] && init[ks0[i]] == items[ks0[i]];
          }
        }
    }
  }

  /** An identifier is recorded exactly when some item of the list is counted with it. */
  lemma {:induction false} RecordedMembers(items: seq<Item>, node: Node)
    ensures forall x :: x in Recorded(items, node) <==> exists k :: 0 <= k < |items| && Counted(items[k], node) == Some(x)
  {
    var r, ks := Recorded(items, node), CountedPositions(items, node);
    RecordedInOrder(items, node);
    forall x | x in r
      ensures exists k :: 0 <= k < |items| && Counted(items[k], node) == Some(x)
    {
      var i :| 0 <= i < |r| && r[i] == x;
      assert Counted(items[ks[i]], node) == Some(x);
    }
    forall x, k | 0 <= k < |items| && Counted(items[k], node) == Some(x)
      ensures x in r
    {
      assert k in ks;
      var i :| 0 <= i < |ks| && ks[i] == k;
      assert r[i] == x;
    }
  }

  /** A module dependency, `{line, type, path}`; `kind` is the record's `type`. */
  datatype Dependency = Dependency(line: int, kind: string, path: string)

  /**
   * What a `dependencies` function returns. Concatenation appends an object
   * as one element and an array element by element; anything else is ignored.
   */
  datatype Found = Nothing | One(dependency: Dependency) | Many(dependencies: seq<Dependency>)

  function Appended(found: Found): (r: seq<Dependency>)
    ensures found.Nothing? ==> r == []
    ensures found.One? ==> r == [found.dependency]
    ensures found.Many? ==> r == found.dependencies
  {
    match found
    case Nothing => []
    case One(d) => [d]
    case Many(ds) => ds
  }

  /**
   * A descriptor after normalisation: Halstead fields are lists of items,
   * children a list of slot names, and `dependencies` a function of the node
   * and of the "clear dependencies" flag.
   */
  datatype Descriptor = Descriptor(
    lloc: Option<Value<int>>,
    cyclomatic: Option<Value<int>>,
    operators: seq<Item>,
    operands: seq<Item>,
    children: seq<string>,
    newScope: Option<Value<bool>>,
    dependencies: Option<(Node, bool) -> Found>)

  /** The descriptor with no field present. */
  const NoSyntax := Descriptor(None, None, [], [], [], None, None)

  /** One more item records its identifier when it is counted, and nothing otherwise. */
  lemma RecordedLast(items: seq<Item>, i: nat, node: Node)
    requires i < |items|
    ensures Recorded(items[..i + 1], node)
      == Recorded(items[..i], node) + (if Counted(items[i], node).Some? then [Counted(items[i], node).value] else [])
  {
    assert items[..i + 1][..i] == items[..i];
  }

  /** The amount an optional counter field contributes; an absent field contributes nothing. */
  function Amount(field: Option<Value<int>>, node: Node): int
  {
    match field
    case None => 0
    case Some(v) => Eval(v, node)
  }

  function LlocOf(d: Descriptor, node: Node): int { Amount(d.lloc, node) }

  function CyclomaticOf(d: Descriptor, node: Node): int { Amount(d.cyclomatic, node) }

  function OperatorsOf(d: Descriptor, node: Node): seq<string> { Recorded(d.operators, node) }

  function OperandsOf(d: Descriptor, node: Node): seq<string> { Recorded(d.operands, node) }

  /** Whether a node opens a new scope: `newScope` is true, or a function of the node that yields true. */
  predicate OpensScope(d: Descriptor, node: Node)
  {
    d.newScope.Some? && Eval(d.newScope.value, node)
  }

  /** The dependencies a node adds to the report. */
  function DependenciesOf(d: Descriptor, node: Node, clear: bool): seq<Dependency>
  {
    match d.dependencies
    case None => []
    case Some(f) => Appended(f(node, clear))
  }

  /** Everything a descriptor counts for one node. */
  predicate Contributes(d: Descriptor, node: Node, lloc: int, cyclomatic: int, operators: seq<string>, operands: seq<string>)
  {
    && LlocOf(d, node) == lloc
    && CyclomaticOf(d, node) == cyclomatic
    && OperatorsOf(d, node) == operators
    && OperandsOf(d, node) == operands
  }

  /** A descriptor factory takes the active settings. */
  type Factory = Settings -> Descriptor

  /** A descriptor table maps node kinds to factories. */
  type Table = map<string, Factory>

  /** Tables overlaid in order: an entry of a later table shadows an earlier one for the same kind. */
  function Compose(tables: seq<Table>): (t: Table)
    ensures forall kind :: kind in t ==> exists j :: 0 <= j < |tables| && kind in tables[j]
  {
    if |tables| == 0 then map[]
    else Compose(tables[..|tables| - 1]) + tables[|tables| - 1]
  }

  /** The composed table answers with the LAST table that defines a kind. */
  lemma {:induction false} ComposeShadows(tables: seq<Table>, j: nat, kind: string)
    requires j < |tables| && kind in tables[j]
    requires forall l :: j < l < |tables| ==> kind !in tables[l]
    ensures kind in Compose(tables) && Compose(tables)[kind] == tables[j][kind]
  {
    var n := |tables|;
    if j < n - 1 {
      ComposeShadows(tables[..n - 1], j, kind);
    }
  }
}
