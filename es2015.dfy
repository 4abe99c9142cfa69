/** Descriptor factories for the syntax that ECMAScript 2015 adds. */
module Es2015 {
  import opened Wrappers
  import opened Descriptors

  /** A descriptor that counts one fixed operator and nothing else. */
  function OperatorOnly(operator: string, children: seq<string>): (d: Descriptor)
    ensures forall n: Node :: Contributes(d, n, 0, 0, [operator], []) && !OpensScope(d, n)
    ensures d.dependencies.None? && d.children == children
  {
    NoSyntax.(operators := [Literal(operator)], children := children)
  }

  /** A `for ... of` loop adds a decision point only when the `forof` setting is on. */
  function ForOfStatement(settings: Settings): (d: Descriptor)
    ensures settings.forof ==> forall n: Node :: Contributes(d, n, 1, 1, ["forof"], []) && !OpensScope(d, n)
    ensures !settings.forof ==> forall n: Node :: Contributes(d, n, 1, 0, ["forof"], []) && !OpensScope(d, n)
    ensures d.dependencies.None? && d.children == ["left", "right", "body"]
  {
    NoSyntax.(
      lloc := Some(Fixed(1)),
      cyclomatic := Some(Fixed(if settings.forof then 1 else 0)),
      operators := [Literal("forof")],
      children := ["left", "right", "body"])
  }

  /** A class body only leads the walk to its members. */
  function ClassBody(settings: Settings): (d: Descriptor)
    ensures forall n: Node :: Contributes(d, n, 0, 0, [], []) && !OpensScope(d, n)
    ensures d.dependencies.None? && d.children == ["body"]
  {
    NoSyntax.(children := ["body"])
  }

  /** A class declaration counts `class` and the class name. */
  function ClassDeclaration(settings: Settings): (d: Descriptor)
    ensures forall n: Node :: Contributes(d, n, 1, 0, ["class"], [n.idName]) && !OpensScope(d, n)
    ensures d.dependencies.None? && d.children == ["superClass", "body"]
  {
    NoSyntax.(
      lloc := Some(Fixed(1)),
      operators := [Literal("class")],
      operands := [FromNode((n: Node) => Some(n.idName))],
      children := ["superClass", "body"])
  }

  /** An import declares one module dependency at its start line. */
  function ImportDeclaration(settings: Settings): (d: Descriptor)
    ensures forall n: Node :: Contributes(d, n, 1, 0, ["import"], []) && !OpensScope(d, n)
    ensures forall n: Node, clear: bool :: DependenciesOf(d, n, clear) == [Dependency(n.startLine, "Module", n.sourceValue)]
    ensures d.dependencies.Some? && d.children == ["specifiers", "source"]
  {
    NoSyntax.(
      lloc := Some(Fixed(1)),
      operators := [Literal("import")],
      children := ["specifiers", "source"],
      dependencies := Some((n: Node, clear: bool) => One(Dependency(n.startLine, "Module", n.sourceValue))))
  }

  /** The three export forms differ only in the child slots they visit. */
  function Export(children: seq<string>): (d: Descriptor)
    ensures forall n: Node :: Contributes(d, n, 1, 0, ["export"], []) && !OpensScope(d, n)
    ensures d.dependencies.None? && d.children == children
  {
    NoSyntax.(lloc := Some(Fixed(1)), operators := [Literal("export")], children := children)
  }

  function ExportAllDeclaration(settings: Settings): (d: Descriptor)
    ensures forall n: Node :: Contributes(d, n, 1, 0, ["export"], []) && !OpensScope(d, n)
    ensures d.dependencies.None? && d.children == ["source"]
  {
    Export(["source"])
  }

  function ExportDefaultDeclaration(settings: Settings): (d: Descriptor)
    ensures forall n: Node :: Contributes(d, n, 1, 0, ["export"], []) && !OpensScope(d, n)
    ensures d.dependencies.None? && d.children == ["declaration"]
  {
    Export(["declaration"])
  }

  function ExportNamedDeclaration(settings: Settings): (d: Descriptor)
    ensures forall n: Node :: Contributes(d, n, 1, 0, ["export"], []) && !OpensScope(d, n)
    ensures d.dependencies.None? && d.children == ["declaration", "specifiers", "source"]
  {
    Export(["declaration", "specifiers", "source"])
  }

  /** A method counts `static` when it is static; otherwise its operator is `undefined` and is dropped. */
  function MethodDefinition(settings: Settings): (d: Descriptor)
    ensures forall n: Node :: Contributes(d, n, 0, 0, if n.isStatic then ["static"] else [], []) && !OpensScope(d, n)
    ensures d.dependencies.None? && d.children == ["value"]
  {
    NoSyntax.(
      operators := [FromNode((n: Node) => if n.isStatic then Some("static") else None)],
      children := ["value"])
  }

  /** An arrow opens a scope exactly when its body is a block, not an expression. */
  function ArrowFunctionExpression(settings: Settings): (d: Descriptor)
    ensures forall n: Node :: Contributes(d, n, 0, 0, ["=>"], []) && (OpensScope(d, n) <==> !n.expression)
    ensures d.dependencies.None? && d.children == ["params", "body"]
  {
    NoSyntax.(
      operators := [Literal("=>")],
      children := ["params", "body"],
      newScope := Some(Derived((n: Node) => !n.expression)))
  }

  function YieldExpression(settings: Settings): (d: Descriptor)
    ensures forall n: Node :: Contributes(d, n, 0, 0, ["yield"], []) && !OpensScope(d, n)
    ensures d.dependencies.None? && d.children == ["argument"]
  {
    OperatorOnly("yield", ["argument"])
  }

  function RestElement(settings: Settings): (d: Descriptor)
    ensures forall n: Node :: Contributes(d, n, 0, 0, ["rest"], []) && !OpensScope(d, n)
    ensures d.dependencies.None? && d.children == ["argument"]
  {
    OperatorOnly("rest", ["argument"])
  }

  function SpreadElement(settings: Settings): (d: Descriptor)
    ensures forall n: Node :: Contributes(d, n, 0, 0, ["spread"], []) && !OpensScope(d, n)
    ensures d.dependencies.None? && d.children == ["argument"]
  {
    OperatorOnly("spread", ["argument"])
  }

  /** A default parameter value. */
  function AssignmentPattern(settings: Settings): (d: Descriptor)
    ensures forall n: Node :: Contributes(d, n, 0, 0, ["="], []) && !OpensScope(d, n)
    ensures d.dependencies.None? && d.children == ["left", "right"]
  {
    OperatorOnly("=", ["left", "right"])
  }

  /** Array destructuring. */
  function ArrayPattern(settings: Settings): (d: Descriptor)
    ensures forall n: Node :: Contributes(d, n, 0, 0, ["[]"], []) && !OpensScope(d, n)
    ensures d.dependencies.None? && d.children == ["elements"]
  {
    OperatorOnly("[]", ["elements"])
  }

  /** Object destructuring. */
  function ObjectPattern(settings: Settings): (d: Descriptor)
    ensures forall n: Node :: Contributes(d, n, 0, 0, ["{}"], []) && !OpensScope(d, n)
    ensures d.dependencies.None? && d.children == ["properties"]
  {
    OperatorOnly("{}", ["properties"])
  }

  function TemplateLiteral(settings: Settings): (d: Descriptor)
    ensures forall n: Node :: Contributes(d, n, 0, 0, ["``"], []) && !OpensScope(d, n)
    ensures d.dependencies.None? && d.children == ["expressions"]
  {
    OperatorOnly("``", ["expressions"])
  }

  function TaggedTemplateExpression(settings: Settings): (d: Descriptor)
    ensures forall n: Node :: Contributes(d, n, 0, 0, ["tag"], []) && !OpensScope(d, n)
    ensures d.dependencies.None? && d.children == ["quasi"]
  {
    OperatorOnly("tag", ["quasi"])
  }

  /**
   * A shorthand property `{a}` adds no logical line and no `:` operator.
   * Its key and value are the same node and both are still visited, so its
   * operand is counted twice.
   */
  function Property(settings: Settings): (d: Descriptor)
    ensures forall n: Node :: Contributes(d, n, if n.shorthand then 0 else 1, 0, if n.shorthand then [] else [":"], []) && !OpensScope(d, n)
    ensures d.dependencies.None? && d.children == ["key", "value"]
  {
    NoSyntax.(
      lloc := Some(Derived((n: Node) => if !n.shorthand then 1 else 0)),
      operators := [FromNode((n: Node) => if !n.shorthand then Some(":") else None)],
      children := ["key", "value"])
  }

  /** The entries for declarations and statements. */
  const DeclarationEntries: Table := map[
    "ClassBody" := ClassBody,
    "ClassDeclaration" := ClassDeclaration,
    "ExportAllDeclaration" := ExportAllDeclaration,
    "ExportDefaultDeclaration" := ExportDefaultDeclaration,
    "ExportNamedDeclaration" := ExportNamedDeclaration,
    "ForOfStatement" := ForOfStatement,
    "ImportDeclaration" := ImportDeclaration,
    "MethodDefinition" := MethodDefinition]

  /** The entries for expressions, patterns and properties. */
  const ExpressionEntries: Table := map[
    "ArrowFunctionExpression" := ArrowFunctionExpression,
    "YieldExpression" := YieldExpression,
    "RestElement" := RestElement,
    "SpreadElement" := SpreadElement,
    "AssignmentPattern" := AssignmentPattern,
    "ArrayPattern" := ArrayPattern,
    "ObjectPattern" := ObjectPattern,
    "TemplateLiteral" := TemplateLiteral,
    "TaggedTemplateExpression" := TaggedTemplateExpression,
    "Property" := Property]

  /** The table this file exports. */
  const Definitions: Table := DeclarationEntries + ExpressionEntries

  /**
   * The table defines exactly the eighteen kinds the file exports, each
   * by its own factory (stated here for the kinds the engine's properties
   * use); a function declaration is left to other tables.
   */
  lemma Exported()
    ensures Definitions.Keys == DeclarationKinds + ExpressionKinds
    ensures Definitions["ForOfStatement"] == ForOfStatement
    ensures Definitions["ImportDeclaration"] == ImportDeclaration
    ensures Definitions["Property"] == Property
    ensures Definitions["ArrowFunctionExpression"] == ArrowFunctionExpression
  {
    DeclarationKindsExported();
    ExpressionKindsExported();
  }

  /** The declaration and statement kinds the file exports. */
  const DeclarationKinds: set<string> := {
    "ClassBody", "ClassDeclaration", "ExportAllDeclaration", "ExportDefaultDeclaration",
    "ExportNamedDeclaration", "ForOfStatement", "ImportDeclaration", "MethodDefinition"}

  /** The expression, pattern and property kinds the file exports. */
  const ExpressionKinds: set<string> := {
    "ArrowFunctionExpression", "YieldExpression", "RestElement", "SpreadElement",
    "AssignmentPattern", "ArrayPattern", "ObjectPattern", "TemplateLiteral",
    "TaggedTemplateExpression", "Property"}

  lemma DeclarationKindsExported()
    ensures DeclarationEntries.Keys == DeclarationKinds
    ensures DeclarationEntries["ForOfStatement"] == ForOfStatement
    ensures DeclarationEntries["ImportDeclaration"] == ImportDeclaration
  {
  }

  lemma ExpressionKindsExported()
    ensures ExpressionEntries.Keys == ExpressionKinds
    ensures ExpressionEntries["Property"] == Property
    ensures ExpressionEntries["ArrowFunctionExpression"] == ArrowFunctionExpression
  {
  }

  /** Under the default settings a `for ... of` loop adds no decision point. */
  lemma ForOfUnderDefaults(n: Node)
    ensures CyclomaticOf(ForOfStatement(SettingsFor(None)), n) == 0
    ensures CyclomaticOf(ForOfStatement(Defaults.(forof := true)), n) == 1
  {
  }
}
