/**
 * Descriptor factories for the syntax that ECMAScript 2017 adds or redefines,
 * and how this table overlays the earlier ones.
 */
module Es2017 {
  import opened Wrappers
  import opened Descriptors
  import Es2015

  /** `await` counts one operator and visits its argument. */
  function AwaitExpression(settings: Settings): (d: Descriptor)
    ensures forall n: Node :: Contributes(d, n, 0, 0, ["await"], []) && !OpensScope(d, n)
    ensures d.dependencies.None? && d.children == ["argument"]
  {
    NoSyntax.(operators := [Literal("await")], children := ["argument"])
  }

  /** The operator a generator function adds; `undefined` for any other function. */
  function GeneratorOperator(n: Node): Option<string>
  {
    if n.generator then Some("generator") else None
  }

  /** The operator an async function adds; `undefined` for any other function. */
  function AsyncOperator(n: Node): Option<string>
  {
    if n.isAsync then Some("async") else None
  }

  /** The operator list of a function declaration: a constant mixed with node functions. */
  const FunctionOperators := [Literal("function"), FromNode(GeneratorOperator), FromNode(AsyncOperator)]

  /** Which identifiers the function-declaration operator list records for a node. */
  lemma FunctionOperatorsRecorded()
    ensures forall n: Node ::
      Recorded(FunctionOperators, n)
      == ["function"] + (if n.generator then ["generator"] else []) + (if n.isAsync then ["async"] else [])
  {
    var items := FunctionOperators;
    assert items[..2] == [Literal("function"), FromNode(GeneratorOperator)];
    assert items[..2][..1] == [Literal("function")];
    assert items[..2][..1][..0] == [];
    forall n: Node
      ensures Recorded(items, n)
        == ["function"] + (if n.generator then ["generator"] else []) + (if n.isAsync then ["async"] else [])
    {
      assert Recorded(items[..2][..1], n) == ["function"];
      assert Recorded(items[..2], n) == ["function"] + (if n.generator then ["generator"] else []);
    }
  }

  /**
   * A function declaration always opens a scope. It counts `function`, and
   * `generator` and `async` only for generator and async functions; the
   * `undefined` alternatives are dropped.
   */
  function FunctionDeclaration(settings: Settings): (d: Descriptor)
    ensures forall n: Node ::
      && Contributes(d, n, 1, 0,
           ["function"] + (if n.generator then ["generator"] else []) + (if n.isAsync then ["async"] else []),
           [n.safeId])
      && OpensScope(d, n)
    ensures d.dependencies.None? && d.children == ["params", "body"]
  {
    FunctionOperatorsRecorded();
    var d := NoSyntax.(
      lloc := Some(Fixed(1)),
      operators := FunctionOperators,
      operands := [FromNode((n: Node) => Some(n.safeId))],
      children := ["params", "body"],
      newScope := Some(Fixed(true)));
    assert forall n: Node :: OperatorsOf(d, n) == Recorded(FunctionOperators, n);
    d
  }

  /** The table this file exports. */
  const Definitions: Table := map[
    "AwaitExpression" := AwaitExpression,
    "FunctionDeclaration" := FunctionDeclaration]

  /** The table defines exactly the two kinds the file exports, each by its own factory. */
  lemma Exported()
    ensures Definitions.Keys == {"AwaitExpression", "FunctionDeclaration"}
    ensures Definitions["AwaitExpression"] == AwaitExpression
    ensures Definitions["FunctionDeclaration"] == FunctionDeclaration
  {
  }

  /**
   * Whatever earlier tables say about a function declaration, the 2017
   * entry is the one used once the 2015 and 2017 tables are overlaid on them.
   */
  lemma FunctionDeclarationShadows(earlier: seq<Table>)
    ensures var t := Compose(earlier + [Es2015.Definitions, Definitions]);
      "FunctionDeclaration" in t && t["FunctionDeclaration"] == FunctionDeclaration
  {
    var tables := earlier + [Es2015.Definitions, Definitions];
    ComposeShadows(tables, |tables| - 1, "FunctionDeclaration");
  }

  /**
   * The 2015 `Property` entry shadows any earlier one and the 2017 table
   * does not redefine it.
   */
  lemma PropertyFromEs2015(earlier: seq<Table>)
    ensures var t := Compose(earlier + [Es2015.Definitions, Definitions]);
      "Property" in t && t["Property"] == Es2015.Property
  {
    var tables := earlier + [Es2015.Definitions, Definitions];
    ComposeShadows(tables, |tables| - 2, "Property");
  }
}
