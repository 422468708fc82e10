# OpenCB engine, modelled in Dafny

This project models the analysis core of the OpenCB engine (`opencb_engine.py`).
The engine opens one Python source file, parses it, and reports on the syntax tree in
up to four tiers:

- **basic**: the number of function and class definitions;
- **complexity**: a flat count of `if`, `while` and `for` nodes;
- **bug detection**: a visitor that flags non-alphanumeric string literals,
  expression statements whose string does not end in `;`, and non-alphanumeric
  identifiers;
- **predictive**: a visitor that reports names that are defined but never loaded.

An engine type (`opencv-1`, `opencv-2`, `opencv-3`, `opencv4-5turbo`) picks how many
tiers run. Each tier appends one text section to the report. A tier reports its own
failure as text.

Modules:

- `Ast` (Ast.dfy) holds the syntax tree. Each `Node` has a kind, a line and children
  in field order; the kinds are FunctionDef, ClassDef, If, While, For, Assign, Name,
  Expr, StrLit and Other.
  - `WalkFrom`/`Walk` give the breadth-first order of Python's `ast.walk`.
  - `Count` is the structural count that the walks are proved equal to.
- `Text` (Text.dfy):
  - Python's `isalnum`, taken as ASCII letters and digits and false on `""`;
  - the decimal rendering of a number in an f-string (`NatToString`, with its inverse
    `ParseDecimal`);
  - `Lines`, the block of bulleted lines that the report loops produce.
- `BugPatterns` (BugPatterns.dfy) holds `BugDetectionTransformer`.
  - The class has an `errorsFound` sequence field and one method per visitor handler.
  - Each method is proved against `Findings`, the pre-order specification of what the
    traversal appends.
- `UnusedVariables` (UnusedVariables.dfy) holds `PredictiveAnalysisVisitor`.
  - The class has the `variablesDefined` and `variablesUsed` set fields.
  - Its methods are proved against `Defined`, `Used` and `Unused`.
- `Engine` (Engine.dfy):
  - the four report sections;
  - the loops that build them (`CalculateComplexity`, `BugDetection`,
    `PredictiveAnalysis`) and `ComplexityAnalysisRun`, which builds the complexity
    section through `CalculateComplexity`;
  - the chained tier functions;
  - `AnalyzeCode`, the engine-type dispatch, and `AnalyzeCodeRun`, which runs the
    tier methods as `analyze_code` does and is proved to give `AnalyzeCode`'s report;
  - an explicit view of the dispatch as an ordered chain of tiers (`Chain`,
    `ChainReport`), with the monotonicity and failure lemmas.

Reading and parsing the file are inputs, not operations. Every section receives a
`ReadResult`, which is one of:

- `Ok(tree)`;
- `NotFound`, from `FileNotFoundError`;
- `ParseError(message)`, from any other exception, with `str(e)` as the message.

The predictive report lists a set in Python's set iteration order, which the model
leaves open.
- `PredictiveReport`, `AllDetectionsAnalysis`, `TierAnalysis`, `Section`,
  `ChainReport` and `AnalyzeCode` take that order as a parameter, `order`.
- Every lemma about them holds for every order, so it holds for each order the
  program can produce.
- `PredictiveAnalysis` and `AnalyzeCodeRun` return the order their set iteration
  produced as a ghost value. They prove it lists each unused name exactly once, and
  that their report is the specification function's report at that order.

Each tier method has its own `try` (opencb_engine.py:38-58, 76-93, 105-128,
131-156). So a missing file does not stop the later tiers, and every tier of the
chain adds its own failure message (`MissingFileReport`).

## Model

| member | source | states |
|---|---|---|
| Ast.WalkCount | opencb_engine.py:44-45 | Counting the nodes of the breadth-first `ast.walk` enumeration that pass a test gives the number of nodes of the whole tree that pass it |
| Ast.WalkLength | opencb_engine.py:98 | The walk yields as many nodes as the tree has |
| Ast.WalkFromOccurs | opencb_engine.py:98 | Every node the walk yields is a node of the tree it started from |
| Ast.CountAtMostSize | opencb_engine.py:44-45 | A count of nodes of some kind never exceeds the number of nodes |
| Ast.CountPositive | opencb_engine.py:44-45 | A count is positive exactly when some node of the tree passes the test |
| Text.NatToString | opencb_engine.py:50 | The f-string rendering of a count is non-empty, all digits, and starts with 0 only for zero itself |
| Text.ParseNatToString | opencb_engine.py:119 | The rendered count reads back as the count |
| Text.LinesSplit | opencb_engine.py:120-121 | In the item block, the k-th item's "- item" line stands whole between the lines of the items before and after it |
| Text.LinesLineCount | opencb_engine.py:120-121 | When neither prefix nor items hold a line break, the item block has exactly one line break per item |
| Engine.FunctionCount | opencb_engine.py:44 | The function count is the number of FunctionDef nodes anywhere in the tree, and at most the node count |
| Engine.ClassCount | opencb_engine.py:45 | The class count is the number of ClassDef nodes anywhere in the tree, and at most the node count |
| Engine.MetricsZeroIffAbsent | opencb_engine.py:44-45 | Each count is zero exactly when the tree has no node of that kind |
| Engine.MetricsExample | opencb_engine.py:44-45 | A module with two functions and one class counts 2 and 1 |
| Engine.CalculateComplexity | opencb_engine.py:95-102 | The loop over `ast.walk` returns the number of If, While and For nodes in the tree |
| Engine.ComplexityProperties | opencb_engine.py:95-102 | The complexity is at most the node count, and zero exactly when no conditional or loop occurs |
| Engine.ComplexityExamples | opencb_engine.py:95-102 | If, while and for score 3; an `if` nested in an `if` scores 2, each adding 1 |
| Engine.BasicCodeAnalysis | opencb_engine.py:37-58 | No contract; definition. The failure message, or the heading and the function and class counts |
| Engine.ComplexityAnalysis | opencb_engine.py:75-93 | No contract; definition. The failure message, or the heading and the branch count |
| Engine.ComplexityAnalysisRun | opencb_engine.py:75-93 | The section built from `CalculateComplexity`'s result is `ComplexityAnalysis` |
| Engine.BugDetectionReport | opencb_engine.py:104-128 | No contract; definition. The failure message, or the heading, the count and one line per finding (its method is `BugDetection`) |
| Engine.PredictiveReport | opencb_engine.py:130-156 | No contract; definition. The failure message, or the heading and the unused names listed in the given order (its method is `PredictiveAnalysis`) |
| Engine.BasicAndComplexityAnalysis | opencb_engine.py:60-63 | No contract; definition. The basic section followed by the complexity section |
| Engine.BasicComplexityBugDetectionAnalysis | opencb_engine.py:65-68 | No contract; definition. The previous tier followed by the bug section |
| Engine.AllDetectionsAnalysis | opencb_engine.py:70-73 | No contract; definition. The previous tier followed by the predictive section at the given order |
| Engine.AnalyzeCode | opencb_engine.py:22-35 | No contract; definition. The unsupported-type message, one tier method per supported type, and the invalid-type message otherwise |
| Engine.AnalyzeCodeRun | opencb_engine.py:22-35 | Running the tier methods in the dispatch gives `AnalyzeCode`'s report at the order the predictive tier's set iteration produced, and that order lists each unused name exactly once |
| BugPatterns.NodeFindingsSpec | opencb_engine.py:172-189 | A node yields at most one finding. It yields one exactly when it is a non-alphanumeric literal, an expression statement whose string lacks `;`, or a non-alphanumeric name. The finding is that pattern's message, and every other kind yields none |
| BugPatterns.FindingsInPreOrder | opencb_engine.py:172-189 | The findings equal the per-node findings taken along the pre-order listing of the tree |
| BugPatterns.FindingsCount | opencb_engine.py:172-189 | The number of findings is the count of flagged literals, plus flagged expression statements, plus flagged names |
| BugPatterns.NoFindingsIffClean | opencb_engine.py:172-189 | A tree has no finding exactly when none of its nodes matches a pattern |
| BugPatterns.ExprFindingPrecedesLiteral | opencb_engine.py:178-183 | For an expression statement missing its semicolon, that finding comes first and the wrapped literal's own finding comes right after it |
| BugPatterns.EmptyStringFlagged | opencb_engine.py:173-174 | The empty string literal is flagged, since `"".isalnum()` is false |
| BugPatterns.LiteralExamples | opencb_engine.py:173-174 | "abc" gives no finding and "a!b" gives one naming its line |
| BugPatterns.StatementExample | opencb_engine.py:172-183 | A file holding only the statement `"a!b"` gets two findings: the missing semicolon, then the literal's |
| BugPatterns.NodeFindings | opencb_engine.py:172-189 | No contract; definition. What each handler appends for one node (its contract is `NodeFindingsSpec`) |
| BugPatterns.Findings | opencb_engine.py:172-189 | No contract; definition. The node's own findings, then its children's, left to right |
| BugPatterns.BugDetectionTransformer.GetErrors | opencb_engine.py:169-170 | No contract; definition. The list of findings gathered so far |
| BugPatterns.NonAlphanumericStringMessageIsOneLine | opencb_engine.py:174 | The literal message has no line break when the literal's text has none |
| BugPatterns.MissingSemicolonMessageIsOneLine | opencb_engine.py:181 | The semicolon message never holds a line break |
| BugPatterns.WrongSymbolMessageIsOneLine | opencb_engine.py:187 | The name message has no line break when the identifier has none |
| BugPatterns.FindingsAreSingleLines | opencb_engine.py:172-189 | When no literal or name of the tree holds a line break, no finding does |
| BugPatterns.BugDetectionTransformer.constructor | opencb_engine.py:166-167 | The list of findings starts empty |
| BugPatterns.BugDetectionTransformer.Visit | opencb_engine.py:112 | Visiting a tree returns it unchanged and appends exactly its pre-order findings |
| BugPatterns.BugDetectionTransformer.VisitStr | opencb_engine.py:172-176 | A non-alphanumeric literal appends its message, then the children's findings; the node is returned unchanged |
| BugPatterns.BugDetectionTransformer.VisitExpr | opencb_engine.py:178-183 | An expression statement whose string lacks `;` appends the semicolon message before the children's findings; the node is returned unchanged |
| BugPatterns.BugDetectionTransformer.VisitName | opencb_engine.py:185-189 | A non-alphanumeric name appends its message, then the children's findings; the node is returned unchanged |
| BugPatterns.BugDetectionTransformer.GenericVisit | opencb_engine.py:176 | Visiting the children in order appends their findings in order, and the rebuilt node equals the original |
| UnusedVariables.Targets | opencb_engine.py:202 | An assignment's targets are a prefix of its children, of length `targetCount` whenever there are that many children |
| UnusedVariables.TargetNames | opencb_engine.py:202-204 | A name is taken from the targets exactly when some target is a plain Name with that identifier |
| UnusedVariables.CollectIff | opencb_engine.py:192-210 | A name is gathered by the traversal exactly when some node of the tree contributes it |
| UnusedVariables.DefinedIff | opencb_engine.py:197-205 | Defined names are exactly function-definition names and plain-name assignment targets anywhere in the tree |
| UnusedVariables.UsedIff | opencb_engine.py:207-210 | Used names are exactly identifiers read in Load context anywhere in the tree |
| UnusedVariables.Defined | opencb_engine.py:197-205 | No contract; definition. The names the traversal adds to the defined set (its contract is `DefinedIff`) |
| UnusedVariables.Used | opencb_engine.py:207-210 | No contract; definition. The names the traversal adds to the used set (its contract is `UsedIff`) |
| UnusedVariables.PredictiveAnalysisVisitor.GetUnusedVariables | opencb_engine.py:212-213 | No contract; definition. The defined set minus the used set |
| UnusedVariables.Unused | opencb_engine.py:212-213 | The result is a subset of the defined names, is disjoint from the used names, and together with them covers every defined name |
| UnusedVariables.UnusedIff | opencb_engine.py:197-213 | A name is reported exactly when some node defines it and no node loads it |
| UnusedVariables.NonNameTargetsDefineNothing | opencb_engine.py:201-205 | An assignment with no plain-name target defines nothing |
| UnusedVariables.AssignExamples | opencb_engine.py:197-213 | `x = 1` alone reports `x`; followed by `print(x)` it does not |
| UnusedVariables.PredictiveAnalysisVisitor.constructor | opencb_engine.py:193-195 | Both sets start empty |
| UnusedVariables.PredictiveAnalysisVisitor.Visit | opencb_engine.py:192-210 | Visiting a tree adds exactly its defined names and its used names to the two sets |
| UnusedVariables.PredictiveAnalysisVisitor.VisitFunctionDef | opencb_engine.py:197-199 | Adds the function's name, then everything below it |
| UnusedVariables.PredictiveAnalysisVisitor.VisitAssign | opencb_engine.py:201-205 | Adds the plain-name targets, then everything below the assignment |
| UnusedVariables.PredictiveAnalysisVisitor.DefineTargets | opencb_engine.py:202-204 | The loop over the targets adds exactly their plain-name identifiers and leaves the used set alone |
| UnusedVariables.PredictiveAnalysisVisitor.VisitName | opencb_engine.py:207-210 | A Load-context name is added to the used set, a name in another context is not |
| UnusedVariables.PredictiveAnalysisVisitor.GenericVisit | opencb_engine.py:199 | Visiting the children adds exactly what each child's subtree defines and uses |
| Engine.BugDetection | opencb_engine.py:104-128 | The bug section is the failure message, or the heading, the count of findings, and one "- " line per finding in traversal order |
| Engine.ItemLines | opencb_engine.py:120-121 | The loop produces one prefixed line per item, in order |
| Engine.BugReportHeaderCountsItems | opencb_engine.py:118-121 | The count in the header reads back as the number of findings. With no line break in any finding, the item block has that many lines |
| Engine.BugReportOneLinePerFinding | opencb_engine.py:104-128 | For a tree whose literals and names hold no line break, the report's header number equals the number of "- " lines that follow |
| Engine.Enumeration | opencb_engine.py:146 | Every set has an order listing each element exactly once (`AnalyzeCodeRun` uses it when the predictive tier does not run) |
| Engine.UnusedLines | opencb_engine.py:146-147 | The loop over the set lists each unused name exactly once, one "- Unused variable: " line each |
| Engine.PredictiveAnalysis | opencb_engine.py:130-156 | The section is `PredictiveReport` at the order the set iteration yields, and that order lists each unused name exactly once: the failure message, or the heading followed by one line per unused name |
| Engine.PredictiveTextShape | opencb_engine.py:143-149 | An empty result gives exactly "No potential issues detected." after the heading. Otherwise "Potential issues detected:" follows, then the item lines |
| Engine.PredictiveOneLinePerName | opencb_engine.py:146-147 | With no line break in any name, there is one item line per unused name |
| Engine.EnumerationLength | opencb_engine.py:146 | An enumeration of a set is as long as the set is large |
| Engine.SectionShape | opencb_engine.py:37-156 | For each of the four section methods (lines 37-58, 75-93, 104-128, 130-156): a missing file is reported as "<Title> failed. File not found: <path>" and another error as "<Title> failed. Error: <message>". A success starts with its heading |
| Engine.AnalyzeDispatch | opencb_engine.py:22-35 | Each supported engine type is in the supported list and runs its tier's method |
| Engine.EngineTiersEntries | opencb_engine.py:26-33 | The dispatch map pairs the four engine types with the basic, complexity, bug and predictive tiers |
| Engine.DispatchBasic | opencb_engine.py:26-27 | `opencv-1` runs the basic analysis |
| Engine.DispatchComplexity | opencb_engine.py:28-29 | `opencv-2` runs basic plus complexity |
| Engine.DispatchBugs | opencb_engine.py:30-31 | `opencv-3` runs basic, complexity and bug detection |
| Engine.DispatchPredictive | opencb_engine.py:32-33 | `opencv4-5turbo` runs all four analyses |
| Engine.TierAnalysisIsChain | opencb_engine.py:60-73 | Each tier's report is exactly the sections of every tier up to it, in tier order |
| Engine.AnalyzeRunsChain | opencb_engine.py:22-73 | A supported engine type's report is the concatenation of its chain of sections |
| Engine.TierAddsOneSection | opencb_engine.py:60-73 | Each tier's report is the previous tier's report followed by one new section |
| Engine.ChainReportPrefix | opencb_engine.py:60-73 | A chain's report extends the report of every shorter chain |
| Engine.TierIsPrefix | opencb_engine.py:60-73 | A lower tier's report is a prefix of a higher tier's, for every order of the predictive section |
| Engine.ChainTierPrefix | opencb_engine.py:60-73 | A lower tier's chain of sections is a prefix of a higher tier's |
| Engine.LowerTierIsPrefix | opencb_engine.py:22-73 | For two supported engine types, the lower one's report is a prefix of the higher one's, for every order of the predictive section |
| Engine.ChainReportNotFound | opencb_engine.py:55-56 | With a missing file, a chain's report is the sequence of its tiers' own "failed. File not found" messages |
| Engine.MissingFileReport | opencb_engine.py:60-73 | A missing file does not stop the chain: every tier adds its own "File not found" message, in tier order |
| Engine.MissingFileAllTiers | opencb_engine.py:32-33 | For `opencv4-5turbo` and a missing file, the report is the four tiers' "File not found" messages in order |
| Engine.UnsupportedEngineType | opencb_engine.py:23-24 | An engine type outside the supported list yields exactly "Error: Engine type '<t>' is not supported.", whatever the file holds |
| Engine.SupportedAreMapped | opencb_engine.py:20-33 | The supported list and the dispatch map hold the same engine types |
| Engine.InvalidBranchUnreachable | opencb_engine.py:34-35 | A supported engine type's report starts with the basic section and is never "Error: Invalid engine type." |
| Engine.BasicSectionStart | opencb_engine.py:49-58 | The basic section is non-empty. A success opens with a line break followed by "Basic", a failure with "Basic" |

## Left out

- The ASCII banner printed at import time is cosmetic output.
- `tqdm` progress bars and `process_with_progress_bar`, with its `time.sleep`, affect
  timing and display only.
- Opening and reading the file and `ast.parse` are I/O and a foreign parser. They are
  the `ReadResult` input. The generic `except Exception` arm appears only as
  `ParseError(message)`, with the message taken as given.
- Each tier method of the source reads and parses the file again. The model gives all
  tiers of one call the same `ReadResult`, so it does not cover a file that changes
  between two reads.
- Each tier method of the source parses and traverses the file on its own, so a
  failure inside one tier's traversal shows in that tier only. For example, a
  statement `x = 1+1+...+1` with hundreds of terms can exceed Python's recursion
  limit in the recursive visitors: the bug and predictive tiers then report "failed.
  Error: ...", while the tiers that use the iterative `ast.walk` succeed. The shared
  `ReadResult` cannot express such a failure, and the model's traversals have no
  depth limit.
- A Name's context (`Load`, `Store`, `Del`) is a node of its own in Python, and
  `ast.walk` yields it. The model folds it into the Name's kind, so `Size` counts
  fewer nodes than `ast.walk` yields. The counts of FunctionDef, ClassDef, If, While
  and For nodes are not affected.
- The syntax tree is reduced to a closed set of node kinds. Every other kind is
  `Other`, and the children are the node's fields in Python's field order. For the
  string literal kind, the `ast.Str`/`ast.Constant` difference between Python
  versions is not modelled.
- BugPatterns.BugDetectionTransformer.VisitExpr: the `isinstance(node.value,
  ast.Expr)` alternative in the source's test is left out, because an expression
  statement never wraps another one in a parsed tree. Only a string-literal value is
  checked.
- BugPatterns.NodeFindingsSpec: `str.isalnum` is ASCII letters and digits here, not
  Unicode's categories, with `isalnum("") == false` as in Python.
- Engine.PredictiveAnalysis: the order in which Python iterates a set is not
  modelled. The method returns that order as a ghost value and proves only that it
  lists each unused name once. The report functions take the order as a parameter,
  and their lemmas hold for every order.
- Engine.BugReportOneLinePerFinding: "one line per finding" is proved only for trees
  whose literals and names hold no line break. A literal with a line break makes its
  finding span several lines in the source's report too.
- `main.py` is only wiring: a hard-coded example path and a `print` call.
