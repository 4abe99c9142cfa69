# escomplex metric engine, modelled in Dafny

This project models the core of escomplex's per-module analysis. The engine
receives a syntax walker's callbacks: open a scope, process a node, close a
scope. From them it accumulates a report. The report has an aggregate record
and one record per function scope, in order. Each record holds logical lines,
cyclomatic complexity, parameter counts and Halstead operator/operand
counters. The report also lists the module dependencies the nodes declare. A
finishing pass then computes the cyclomatic density of each record, the means
over the function records and the maintainability index. The node descriptors
for ES2015 and ES2017 syntax are modelled as well.

Modules, one per file:

- `Wrappers`: `Option` and `Result`.
- `Descriptors`: analysis settings and their defaults. Descriptor fields are
  absent, a constant, or a function of the node (`Value`, evaluated by
  `Eval`). Halstead items carry an optional filter. Also the dependency
  records and the shadowing composition of descriptor tables.
- `Es2015`, `Es2017`: the descriptor factories of `src/syntax/es2015.js` and
  `src/syntax/es2017.js`. Each contract states exactly what the descriptor
  contributes for every node and under which settings.
- `Reports`: function reports, Halstead counters, and creation of a function
  report or a report. Also the escaping of identifiers that are own names of
  `Object.prototype`, and the distinct/total counting rule.
- `Engine`: the analyser's state as a value. The walker's output is a
  sequence of `Event`s. `Step` and `Run` are the specification of the
  callbacks, folded over the events. The lemmas are the invariants of that
  fold: well-formed counters, one report per scope, aggregate balance,
  monotonicity, the cyclomatic floor, and dependency order with the one-shot
  clear flag.
- `Metrics`: the finishing pass. It uses `Num`, a JavaScript number with
  infinities and NaN, over exact reals. `MaintainabilityIndex` throws on a
  zero mean cyclomatic complexity, caps the index at 171 and rescales it
  under `newmi`. `CalculateMetrics` is the `forEach` loop that accumulates
  the sums.
- `Analysis`: the class `Analyser`, whose fields the callbacks update in
  place. Each method is proved equal to its `Engine` function. `Analyse` runs
  the three input checks, the walk and the finishing pass. Its end-to-end
  lemmas say that a walk with non-negative amounts, whose reports all have
  finite, non-negative efforts, never throws, and that the index is then
  finite and within bounds.
- `Scenarios`: small concrete units run through the engine:
  - an import of `"./util"`;
  - a shorthand property, whose operand is counted twice;
  - a function with two branches.

Function reports are values. The report keeps them in a sequence, and the
scope stack and the current report are positions in that sequence. This is
how the source's sharing of one report object among `functions`,
`scopeStack` and `currentReport` is represented.

## Model

| member | source | states |
|---|---|---|
| Descriptors.SettingsFor | src/module.js:9-15 | options that are not an object give the defaults forin false, logicalor true, newmi false, switchcase true, trycatch false (and forof false, as it is absent); an options object is used as it is |
| Descriptors.Eval | src/module.js:110-117 | the single evaluation rule of a descriptor field: a constant is its value, a function is applied to the node; it has no contract of its own, and the Analysis.Analyser.IncrementCounter and Descriptors.Counted rows state what it gives |
| Descriptors.Counted | src/module.js:140-149 | an item is counted exactly when it has no filter or its filter accepts the node, and its resolved identifier (constant or computed from the node) is defined; the counted name is that identifier |
| Descriptors.Recorded | src/module.js:138-152 | a node records at most one name per item |
| Descriptors.CountedPositions | src/module.js:140-151 | the positions of the items that count for a node, increasing, each one exactly when its item is counted |
| Descriptors.RecordedInOrder | src/module.js:138-152 | the recorded names are, one for one and in item order, the identifiers of the items that count for the node (filter absent or true, identifier defined) |
| Descriptors.RecordedMembers | src/module.js:138-152 | a name is recorded exactly when some item counts for the node with that identifier |
| Descriptors.Appended | src/module.js:185-187 | an object result adds one dependency, an array adds its elements in order, anything else adds nothing |
| Descriptors.Compose | src/syntax/es2015.js:109-111 | the composed table defines only kinds that one of the tables defines |
| Descriptors.ComposeShadows | src/syntax/es2017.js:11-12 | for a kind defined by a later table, the composed table's entry is the latest table's entry |
| Es2015.ForOfStatement | src/syntax/es2015.js:6-11 | lloc 1 and operator `forof` always; cyclomatic 1 exactly when the `forof` setting is set, otherwise 0; children left, right, body |
| Es2015.ForOfUnderDefaults | src/module.js:9-15 | under the defaults a for-of loop adds no path, because `forof` is not among them |
| Es2015.ClassBody | src/syntax/es2015.js:13-15 | contributes nothing and visits `body` |
| Es2015.ClassDeclaration | src/syntax/es2015.js:17-22 | lloc 1, operator `class`, operand the class's name; children superClass then body |
| Es2015.ImportDeclaration | src/syntax/es2015.js:24-33 | lloc 1, operator `import`, and for every node exactly one dependency: its start line, type Module, its source path |
| Es2015.ExportAllDeclaration | src/syntax/es2015.js:35-39 | lloc 1 and operator `export`; child source |
| Es2015.ExportDefaultDeclaration | src/syntax/es2015.js:41-45 | lloc 1 and operator `export`; child declaration |
| Es2015.ExportNamedDeclaration | src/syntax/es2015.js:47-51 | lloc 1 and operator `export`; children declaration, specifiers, source |
| Es2015.MethodDefinition | src/syntax/es2015.js:53-57 | operator `static` for static methods only, nothing else counted; child value |
| Es2015.ArrowFunctionExpression | src/syntax/es2015.js:59-64 | operator `=>` always; opens a scope exactly when the body is not an expression |
| Es2015.YieldExpression | src/syntax/es2015.js:66-69 | only operator `yield`; child argument |
| Es2015.RestElement | src/syntax/es2015.js:71-74 | only operator `rest`; child argument |
| Es2015.SpreadElement | src/syntax/es2015.js:76-79 | only operator `spread`; child argument |
| Es2015.AssignmentPattern | src/syntax/es2015.js:81-86 | only operator `=`; children left then right |
| Es2015.ArrayPattern | src/syntax/es2015.js:88-92 | only operator `[]`; child elements |
| Es2015.ObjectPattern | src/syntax/es2015.js:94-97 | only operator `{}`; child properties |
| Es2015.TemplateLiteral | src/syntax/es2015.js:99-102 | only the operator made of two backquotes; child expressions |
| Es2015.TaggedTemplateExpression | src/syntax/es2015.js:104-107 | only operator `tag`; child quasi |
| Es2015.Property | src/syntax/es2015.js:109-120 | shorthand: no line and no operator; otherwise lloc 1 and operator `:`; children key then value |
| Es2015.Exported | src/syntax/es2015.js:122-141 | the exported table defines exactly the eighteen kinds the file lists, and no function declaration |
| Es2015.DeclarationKindsExported | src/syntax/es2015.js:122-130 | the declaration and statement entries are ClassBody, ClassDeclaration, the three export declarations, ForOfStatement, ImportDeclaration and MethodDefinition |
| Es2015.ExpressionKindsExported | src/syntax/es2015.js:131-141 | the expression entries are ArrowFunctionExpression through Property, as the file lists them |
| Es2017.AwaitExpression | src/syntax/es2017.js:6-9 | only operator `await`, no line, no path; child argument |
| Es2017.FunctionDeclaration | src/syntax/es2017.js:11-23 | always opens a scope, lloc 1, operators `function` then `generator` only for generators and `async` only for async functions, operand the function's name; children params then body |
| Es2017.Exported | src/syntax/es2017.js:25-28 | the exported table defines exactly AwaitExpression and FunctionDeclaration, each by its own factory |
| Es2017.FunctionDeclarationShadows | src/syntax/es2017.js:11-12 | earlier tables, then ES2015, then ES2017 composed: FunctionDeclaration is ES2017's, whatever the earlier tables define |
| Es2017.PropertyFromEs2015 | src/syntax/es2015.js:109-111 | earlier tables, then ES2015, then ES2017 composed: Property is ES2015's, which ES2017 does not redefine |
| Reports.CreateFunctionReport | src/module.js:85-104 | a fresh record has one path, no logical lines, empty Halstead counters, the given name and parameters; with a position, line is the start line and physical lines span start through end |
| Reports.CreateReport | src/module.js:77-83 | a new report's aggregate is the fresh function report with no name, the unit's position and no parameters (one path, no lines, empty counters); no functions and no dependencies |
| Reports.Escaped | src/module.js:170-173 | the key of an identifier; its properties are on the next two rows |
| Reports.EscapedKeepsName | src/module.js:170-173 | the key ends with the identifier, and differs from it exactly when the identifier is an own name of `Object.prototype` |
| Reports.EscapeConflates | src/module.js:170-173 | escaping makes `toString` and `_toString` one key |
| Reports.DistinctIncremented | src/module.js:167-179 | the escaped key joins the identifiers and raises distinct exactly when it was not there; a consistent counter stays duplicate-free with distinct equal to its length |
| Reports.ItemIncremented | src/module.js:161-165 | total rises by exactly one, distinct as above, consistency kept |
| Reports.FirstSeenAppended | src/module.js:174-177 | a key seen for the first time is appended at the end of the identifiers; a known key leaves them unchanged |
| Reports.CountedFromNothing | src/module.js:161-179 | from a fresh counter, total counts every occurrence, identifiers are exactly the distinct escaped keys, and distinct is their number |
| Reports.Applied | src/module.js:119-136 | a contribution changes each quantity of a record by exactly its delta, keeps the counters consistent, and records an item through the counting rule; a line or path contribution leaves both Halstead counters unchanged, and an item leaves the other metric's counter unchanged |
| Engine.Initial | src/module.js:23-25 | before the walk: the report is the unit's fresh report, no scope, no current report, dependencies still to be cleared |
| Engine.ScopeEntered | src/module.js:58-63 | exactly one fresh report appended, the earlier ones unchanged, parameters added to the aggregate, the new report pushed and current |
| Engine.ScopeExited | src/module.js:65-72 | the report is untouched, the stack loses its top (if any), the new top or none becomes current |
| Engine.Contributed | src/module.js:119-136 | one contribution is applied to the aggregate and to the current report, if any; every other report, the stack, the current position, the flag and the dependencies are unchanged |
| Engine.ItemRouted | src/module.js:154-159 | a Halstead item goes through the same counting rule in the aggregate's counter and in the current report's counter, so `distinct` is kept per report |
| Engine.DependenciesProcessed | src/module.js:181-191 | a node's dependencies are appended after the earlier ones, and the flag is cleared for good exactly when the descriptor has a dependencies function |
| Engine.NodeProcessed | src/module.js:44-56 | processing a node keeps the stack, the current report and the number of reports, appends the node's dependencies under the current flag, and clears the flag exactly when the descriptor has a dependencies function; its effect on quantities is on the Engine.ContributedAllEffect and Engine.NodeContributionsSum rows |
| Engine.Step | src/module.js:37-41 | one callback of the walker: a scope event is `pushScope`, a node event `processNode`, an end event `popScope`; no contract of its own, the Engine.ScopeEntered, Engine.NodeProcessed and Engine.ScopeExited rows state each case |
| Engine.Run | src/module.js:37-41 | the walker's callbacks made in order, as a fold of Engine.Step; no contract of its own, the Engine.Run* lemma rows state its invariants |
| Engine.ContributedAllEffect | src/module.js:119-136 | contributions change the aggregate by their total, the current report by the same total, and leave every other report exactly as it was |
| Engine.NodeContributionsSum | src/module.js:44-56 | a processed node adds its descriptor's lloc, cyclomatic amount and number of counted items, and nothing to parameters |
| Engine.RunValid | src/module.js:44-72 | the stack only holds positions of reports, the current report is the stack top, every counter stays consistent |
| Engine.RunScopes | src/module.js:58-63 | the walk leaves one function report per scope it opened |
| Engine.RunAggregate | src/module.js:119-136 | every quantity of the aggregate grows by exactly the amounts of all events |
| Engine.RunBalance | src/module.js:119-136 | the aggregate's increase equals the top-level nodes' amounts plus the increase summed over all function reports |
| Engine.RunDependencies | src/module.js:50-55 | dependencies are the declared ones in discovery order, without deduplication; the flag ends set exactly when no descriptor met had a dependencies function |
| Engine.RunMonotone | src/module.js:119-136 | with non-negative amounts no quantity of the aggregate or of any existing report decreases |
| Engine.RunFloors | src/module.js:131-136 | with non-negative amounts every report keeps cyclomatic complexity at least 1 and no negative line count |
| Metrics.CyclomaticDensity | src/module.js:232-234 | with logical lines, density times lines is 100 times the complexity; without, infinite for positive complexity and NaN for zero |
| Metrics.Calculated | src/module.js:208-214 | one report after `calculateCyclomaticDensity` and `halstead.calculate()`; no contract of its own, its density is stated on the Metrics.CyclomaticDensity row and its effort is the effort parameter |
| Metrics.CalculatedAll | src/module.js:208-212 | one finished record per function report, in order, each the report's Metrics.Calculated |
| Metrics.Accumulated | src/module.js:236-241 | `sumMaintainabilityMetrics` on one report; no contract of its own, its sums are stated on the Metrics.SummedTotals row |
| Metrics.Summed | src/module.js:208-212 | the sums over a sequence of reports, in order; Metrics.SummedTotals and Metrics.SummedBounded state them |
| Metrics.SummedTotals | src/module.js:236-241 | the running sums are the engine's totals over the reports: logical lines, parameters, and one path per report plus the extra ones |
| Metrics.SummedBounded | src/module.js:236-241 | reports at their floors with finite, non-negative efforts sum to at least one path each, no negative lines, and a finite, non-negative effort |
| Metrics.MaintainabilityIndex | src/module.js:243-255 | throws exactly on zero mean cyclomatic complexity; never above 171 and never +Infinity; under newmi NaN or within 0..100; finite for non-negative finite means; NaN for negative means; for positive means equal to the capped (and rescaled) classic formula |
| Metrics.CompletedBounded | src/module.js:193-230 | reports at their floors with finite, non-negative efforts never throw; the mean complexity is at least 1 and the index finite, at most 171, and within 0..100 under newmi |
| Metrics.WithoutFunctions | src/module.js:216-220 | without functions the aggregate is the only sample: the means are its own values |
| Metrics.WithFunctions | src/module.js:203-221 | with functions the means of lines, cyclomatic complexity, parameters and effort are the function totals divided by their number, whatever the aggregate holds; an infinite or NaN effort total is the mean effort |
| Metrics.Averaged | src/module.js:215-220 | the four means over the samples, with the aggregate as the single sample when there are no functions; no contract of its own, the Metrics.WithoutFunctions and Metrics.WithFunctions rows state it |
| Metrics.Completed | src/module.js:193-230 | the finishing pass as a value; no contract of its own, Metrics.WithoutFunctions, Metrics.WithFunctions and Metrics.CompletedBounded state its means and its index |
| Metrics.CalculateMetrics | src/module.js:193-230 | the loop over the function reports returns exactly the finishing pass's result or its error |
| Analysis.Analyser.constructor | src/module.js:23-34 | the analyser starts in the initial state with a fresh report for the tree's position |
| Analysis.Analyser.PushScope | src/module.js:58-63 | the state afterwards is `ScopeEntered` of the state before |
| Analysis.Analyser.PopScope | src/module.js:65-72 | the state afterwards is `ScopeExited` of the state before |
| Analysis.Analyser.IncrementLogicalSloc | src/module.js:119-125 | lines added to the aggregate and to the current report, if any |
| Analysis.Analyser.IncrementCyclomatic | src/module.js:131-136 | paths added to the aggregate and to the current report, if any |
| Analysis.Analyser.IncrementCounter | src/module.js:110-117 | a constant amount is added as it is, a function is applied to the node, an absent field adds nothing |
| Analysis.Analyser.HalsteadItemEncountered | src/module.js:154-159 | the item is recorded in the current report, if any, and in the aggregate |
| Analysis.Analyser.ProcessHalsteadItem | src/module.js:140-149 | one more item of the list has been recorded when counted, and nothing changes otherwise |
| Analysis.Analyser.ProcessHalsteadMetric | src/module.js:138-152 | the state afterwards is every counted item of the list contributed in order |
| Analysis.Analyser.ProcessDependencies | src/module.js:181-191 | answers whether the descriptor has a dependencies function, and appends its result under the current flag |
| Analysis.Analyser.ProcessNode | src/module.js:44-56 | the state afterwards is `NodeProcessed`: lines, paths, operators, operands, dependencies, and the flag cleared when dependencies were processed |
| Analysis.Analyse | src/module.js:21-75 | a tree that is missing, a missing walker or a missing walk method fail in that order; otherwise the result is the finishing pass over the fold of the walker's events under the chosen settings |
| Analysis.AnalysedBounded | src/module.js:243-255 | a walk with non-negative amounts, whose reports all have finite, non-negative efforts, never throws; the mean complexity is at least 1 and the index finite, at most 171, within 0..100 under newmi |
| Analysis.AnalysedShape | src/module.js:58-63 | a successful analysis has one function report per scope opened and the declared dependencies in order |
| Scenarios.ImportOfUtil | src/syntax/es2015.js:24-33 | importing `./util` at line 1 yields exactly that Module dependency, one logical line, one path, no functions, and clears the flag |
| Scenarios.ShorthandProperty | src/syntax/es2015.js:112-118 | `{a}` counts operand `a` twice but distinct once, with no operator and no line |
| Scenarios.FunctionWithTwoBranches | src/module.js:119-136 | a one-parameter function with two branches has complexity 3 and two lines; the aggregate has the parameter, complexity 3 and three lines |

## Left out

- The walker (`walker.walk`) is not part of this model. Its callbacks are the
  parameter `walk`, a function from the tree and the settings to a finite
  list of events. The tree is reduced to its position, the only part the
  analyser reads.
- The Halstead calculation (`./metrics/halstead`, `calculate()`) is not part
  of this model. The effort of a record is a parameter `Halstead -> Num`. The
  other derived Halstead values are not produced.
- Floating point: numbers are exact reals with explicit infinities and NaN.
  There is no rounding and no negative zero. `Math.log` is a parameter `ln`,
  used only for positive arguments. Its zero and negative cases (minus
  infinity, NaN) are modelled explicitly.
- Metrics.MaintainabilityIndex: nothing is proved about the size of the
  uncapped value, because `ln` is uninterpreted. The bounds proved are the
  cap at 171 and the `newmi` rescaling.
- `defineSyntax` and `safeName` (`src/syntax/define-syntax.js`,
  `src/safeName.js`) are not part of this model. Descriptors are already
  normalised: a single operator string is a one-item list, and names are
  plain strings. The `safeId` field of a node stands for `safeName(node.id)`.
- The descriptor fields `methodName` and `assignableName`, and scope names
  derived from them, belong to the walker; they are not modelled.
- The base ES5 descriptor table is not part of this model. Scenarios that
  need identifiers or branches use stand-in descriptors with the same counts.
- Descriptors.Counted: filters return a boolean here. A filter returning a
  truthy value other than `true` is not modelled; the source skips such an
  item.
- A class declaration without an `id`, or an import without `loc`, throws a
  TypeError in the source. Node fields are total here, so those throws are
  not modelled.
- Only the values the engine tests are modelled: "is an object", "is a
  function", "is a number". Other JavaScript values in descriptor fields
  (strings, null) are not represented.
- Options: an options object missing a setting reads it as false, as in the
  source, since the defaults are used only when options are not an object.
- Logging (`debug`, `JSON.stringify` of the tree) has no effect on results
  and is left out.
- The module-level `report` variable is the `Analyser`'s fields. Analyses do
  not run concurrently here.
- In-place sharing of report objects is modelled by positions in the
  `functions` sequence. The `Analyser` methods reassign the affected record
  instead of mutating a shared object.
