/** The analysis orchestrator (`OpenCBEngine` in opencb_engine.py): the four
    per-tier report sections, the chained tier reports and the engine-type
    dispatch of `analyze_code`.

    Reading the file and parsing it are not modelled: each section receives the
    outcome of that step as a `ReadResult`. */
module Engine {
  import opened Ast
  import opened Text
  import opened BugPatterns
  import opened UnusedVariables

  /** What opening, reading and parsing `code_path` produced. */
  datatype ReadResult = Ok(tree: Node) | NotFound | ParseError(message: string)

  /** The tiers, in chaining order. */
  datatype Tier = Basic | Complexity | Bugs | Predictive

  /** The name each tier's section carries in its heading and its failure messages. */
  function Title(t: Tier): string
  {
    match t
    case Basic => "Basic code analysis"
    case Complexity => "Complexity analysis"
    case Bugs => "Bug detection analysis"
    case Predictive => "Predictive analysis"
  }

  /** `f"\n<Title> for {code_path}:\n"`, the first line of a successful section. */
  function Heading(t: Tier, codePath: string): string
  {
    "\n" + Title(t) + " for " + codePath + ":\n"
  }

  /** The section's text when the file cannot be opened (`FileNotFoundError`). */
  function FileNotFoundMessage(t: Tier, codePath: string): string
  {
    Title(t) + " failed. File not found: " + codePath
  }

  /** The section's text for any other exception, such as a syntax error. */
  function ErrorMessage(t: Tier, message: string): string
  {
    Title(t) + " failed. Error: " + message
  }

  const SupportedEngineTypes: seq<string> := ["opencv-1", "opencv-2", "opencv-3", "opencv4-5turbo"]

  /** The static map from engine type to the most advanced tier it runs. */
  const EngineTiers: map<string, Tier> :=
    map["opencv-1" := Basic, "opencv-2" := Complexity, "opencv-3" := Bugs, "opencv4-5turbo" := Predictive]

  const InvalidEngineMessage: string := "Error: Invalid engine type."

  function UnsupportedMessage(engineType: string): string
  {
    "Error: Engine type '" + engineType + "' is not supported."
  }

  // ---------------------------------------------------------------------------
  // Metrics and complexity

  predicate IsFunctionDef(n: Node) { n.kind.FunctionDef? }

  predicate IsClassDef(n: Node) { n.kind.ClassDef? }

  /** The kinds `calculate_complexity` counts. */
  predicate IsBranch(n: Node) { n.kind.If? || n.kind.While? || n.kind.For? }

  /** `sum(1 for node in ast.walk(tree) if isinstance(node, ast.FunctionDef))`. */
  function FunctionCount(tree: Node): (r: nat)
    ensures r == Count(tree, IsFunctionDef)
    ensures r <= Size(tree)
  {
    WalkCount(tree, IsFunctionDef);
    CountAtMostSize(tree, IsFunctionDef);
    CountIn(Walk(tree), IsFunctionDef)
  }

  /** `sum(1 for node in ast.walk(tree) if isinstance(node, ast.ClassDef))`. */
  function ClassCount(tree: Node): (r: nat)
    ensures r == Count(tree, IsClassDef)
    ensures r <= Size(tree)
  {
    WalkCount(tree, IsClassDef);
    CountAtMostSize(tree, IsClassDef);
    CountIn(Walk(tree), IsClassDef)
  }

  /** A function count and a class count are zero exactly when the tree holds no
      node of that kind. */
  lemma MetricsZeroIffAbsent(tree: Node)
    ensures FunctionCount(tree) == 0 <==> forall n :: Occurs(n, tree) ==> !n.kind.FunctionDef?
    ensures ClassCount(tree) == 0 <==> forall n :: Occurs(n, tree) ==> !n.kind.ClassDef?
  {
    CountPositive(tree, IsFunctionDef);
    CountPositive(tree, IsClassDef);
  }

  /** A module with two top-level functions and one class: two functions, one class. */
  lemma MetricsExample()
    ensures var tree := Node(Other, 0, [Node(FunctionDef("f"), 1, []), Node(FunctionDef("g"), 2, []), Node(ClassDef, 3, [])]);
            FunctionCount(tree) == 2 && ClassCount(tree) == 1
  {
    var f := Node(FunctionDef("f"), 1, []);
    var g := Node(FunctionDef("g"), 2, []);
    var c := Node(ClassDef, 3, []);
    var tree := Node(Other, 0, [f, g, c]);
    assert [f, g, c][1..] == [g, c] && [g, c][1..] == [c] && [c][1..] == [];
    assert Count(f, IsFunctionDef) == 1 && Count(g, IsFunctionDef) == 1 && Count(c, IsFunctionDef) == 0;
    assert Count(f, IsClassDef) == 0 && Count(g, IsClassDef) == 0 && Count(c, IsClassDef) == 1;
    assert CountForest([c], IsFunctionDef) == 0 && CountForest([c], IsClassDef) == 1;
    assert CountForest([g, c], IsFunctionDef) == 1 && CountForest([g, c], IsClassDef) == 1;
    assert CountForest([f, g, c], IsFunctionDef) == 2 && CountForest([f, g, c], IsClassDef) == 1;
  }

  /** `calculate_complexity`: one pass over `ast.walk(node)` adding 1 for each
      conditional, while loop and for loop. */
  method CalculateComplexity(node: Node) returns (complexity: nat)
    ensures complexity == Count(node, IsBranch)
  {
    var items := Walk(node);
    complexity := 0;
    var i := 0;
    while i < |items|
      invariant 0 <= i <= |items|
      invariant complexity == CountIn(items[..i], IsBranch)
    {
      CountInAppend(items[..i], [items[i]], IsBranch);
      assert items[..i + 1] == items[..i] + [items[i]];
      if IsBranch(items[i]) {
        complexity := complexity + 1;
      }
      i := i + 1;
    }
    assert items[..i] == items;
    WalkCount(node, IsBranch);
  }

  /** The score is a flat count: at most the number of nodes, zero exactly when no
      conditional or loop occurs, and a conditional nested in another adds 1 like
      any other. */
  lemma ComplexityProperties(tree: Node)
    ensures Count(tree, IsBranch) <= Size(tree)
    ensures Count(tree, IsBranch) == 0 <==> forall n :: Occurs(n, tree) ==> !IsBranch(n)
  {
    CountAtMostSize(tree, IsBranch);
    CountPositive(tree, IsBranch);
  }

  lemma ComplexityExamples()
    ensures Count(Node(Other, 0, [Node(If, 1, []), Node(While, 2, []), Node(For, 3, [])]), IsBranch) == 3
    ensures Count(Node(Other, 0, [Node(If, 1, [Node(If, 2, [])])]), IsBranch) == 2
  {
    var i := Node(If, 1, []);
    var w := Node(While, 2, []);
    var f := Node(For, 3, []);
    assert [i, w, f][1..] == [w, f] && [w, f][1..] == [f] && [f][1..] == [];
    assert Count(i, IsBranch) == 1 && Count(w, IsBranch) == 1 && Count(f, IsBranch) == 1;
    assert CountForest([f], IsBranch) == 1 && CountForest([w, f], IsBranch) == 2;
    assert CountForest([i, w, f], IsBranch) == 3;
    var inner := Node(If, 2, []);
    var outer := Node(If, 1, [inner]);
    assert [inner][1..] == [] && [outer][1..] == [];
    assert Count(inner, IsBranch) == 1 && CountForest([inner], IsBranch) == 1;
    assert Count(outer, IsBranch) == 2 && CountForest([outer], IsBranch) == 2;
  }

  // ---------------------------------------------------------------------------
  // Report sections, one per tier

  /** `basic_code_analysis`. */
  function BasicCodeAnalysis(codePath: string, src: ReadResult): string
  {
    match src
    case NotFound => FileNotFoundMessage(Basic, codePath)
    case ParseError(message) => ErrorMessage(Basic, message)
    case Ok(tree) => Heading(Basic, codePath) + MetricsLines(tree)
  }

  function MetricsLines(tree: Node): string
  {
    "Number of functions: " + NatToString(FunctionCount(tree)) + "\n"
    + "Number of classes: " + NatToString(ClassCount(tree)) + "\n"
  }

  /** `complexity_analysis`. */
  function ComplexityAnalysis(codePath: string, src: ReadResult): string
  {
    match src
    case NotFound => FileNotFoundMessage(Complexity, codePath)
    case ParseError(message) => ErrorMessage(Complexity, message)
    case Ok(tree) => Heading(Complexity, codePath) + ComplexityLine(tree)
  }

  /** The metric line; the count it prints is the value `CalculateComplexity` is
      proved to return, and `ComplexityAnalysisRun` builds the section through it. */
  function ComplexityLine(tree: Node): string
  {
    "Custom complexity metric: " + NatToString(Count(tree, IsBranch)) + "\n"
  }

  /** `complexity_analysis` as the program runs it: the metric comes from
      `calculate_complexity`. */
  method ComplexityAnalysisRun(codePath: string, src: ReadResult) returns (report: string)
    ensures report == ComplexityAnalysis(codePath, src)
  {
    match src
    case NotFound =>
      report := FileNotFoundMessage(Complexity, codePath);
    case ParseError(message) =>
      report := ErrorMessage(Complexity, message);
    case Ok(tree) =>
      var complexity := CalculateComplexity(tree);
      report := Heading(Complexity, codePath) + ("Custom complexity metric: " + NatToString(complexity) + "\n");
  }

  /** The text `bug_detection` builds from a list of findings. */
  function BugReportText(codePath: string, errors: seq<string>): string
  {
    Heading(Bugs, codePath) + BugSummary(errors)
  }

  function BugSummary(errors: seq<string>): string
  {
    NatToString(|errors|) + " errors found.\n" + Lines("- ", errors)
  }

  /** What `bug_detection` returns. */
  function BugDetectionReport(codePath: string, src: ReadResult): string
  {
    match src
    case NotFound => FileNotFoundMessage(Bugs, codePath)
    case ParseError(message) => ErrorMessage(Bugs, message)
    case Ok(tree) => BugReportText(codePath, Findings(tree))
  }

  /** `bug_detection`: run the transformer over the tree, then list its findings. */
  method BugDetection(codePath: string, src: ReadResult) returns (report: string)
    ensures report == BugDetectionReport(codePath, src)
  {
    match src
    case NotFound =>
      report := FileNotFoundMessage(Bugs, codePath);
    case ParseError(message) =>
      report := ErrorMessage(Bugs, message);
    case Ok(tree) =>
      var transformer := new BugDetectionTransformer();
      var transformedTree := transformer.Visit(tree);
      var errorsFound := transformer.GetErrors();
      assert errorsFound == [] + Findings(tree) == Findings(tree);
      var items := ItemLines("- ", errorsFound);
      report := Heading(Bugs, codePath) + (NatToString(|errorsFound|) + " errors found.\n" + items);
  }

  /** The loop of `bug_detection` that adds one "- <error>" line per finding. */
  method ItemLines(prefix: string, errors: seq<string>) returns (items: string)
    ensures items == Lines(prefix, errors)
  {
    items := "";
    var i := 0;
    while i < |errors|
      invariant 0 <= i <= |errors|
      invariant items == Lines(prefix, errors[..i])
    {
      LinesSnoc(prefix, errors[..i], errors[i]);
      assert errors[..i + 1] == errors[..i] + [errors[i]];
      items := items + prefix + errors[i] + "\n";
      i := i + 1;
    }
    assert errors[..i] == errors;
  }

  /** The count in the header reads back as the number of findings, and when no
      finding holds a line break the item block holds exactly that many lines
      (`Text.LinesSplit` gives the k-th of them). */
  lemma BugReportHeaderCountsItems(errors: seq<string>)
    requires forall j :: 0 <= j < |errors| ==> '\n' !in errors[j]
    ensures ParseDecimal(NatToString(|errors|)) == |errors|
    ensures CountChar(Lines("- ", errors), '\n') == |errors|
  {
    ParseNatToString(|errors|);
    LinesLineCount("- ", errors);
  }

  /** For a tree whose literals and names hold no line break, the bug report has
      one item line per finding, as many as its header announces. */
  lemma BugReportOneLinePerFinding(codePath: string, tree: Node)
    requires forall n :: Occurs(n, tree) ==> HasNoLineBreak(n)
    ensures var errors := Findings(tree);
            BugDetectionReport(codePath, Ok(tree))
              == Heading(Bugs, codePath) + NatToString(|errors|) + " errors found.\n" + Lines("- ", errors)
            && ParseDecimal(NatToString(|errors|)) == |errors|
            && CountChar(Lines("- ", errors), '\n') == |errors|
  {
    FindingsAreSingleLines(tree);
    BugReportHeaderCountsItems(Findings(tree));
  }

  /** Pairwise distinct elements. */
  predicate Distinct(s: seq<string>)
  {
    forall i, j :: 0 <= i < j < |s| ==> s[i] != s[j]
  }

  /** `order` lists every element of `s` exactly once. */
  ghost predicate IsEnumeration(order: seq<string>, s: set<string>)
  {
    Distinct(order) && forall x :: x in order <==> x in s
  }

  /** Some order in which iterating over the set `s` can produce its elements;
      which one Python's set iteration gives is left open. */
  ghost function Enumeration(s: set<string>): (r: seq<string>)
    ensures IsEnumeration(r, s)
    decreases |s|
  {
    if s == {} then []
    else
      var x :| x in s;
      var rest := Enumeration(s - {x});
      assert forall i :: 0 < i < |[x] + rest| ==> ([x] + rest)[i] == rest[i - 1];
      [x] + rest
  }

  /** The text `predictive_analysis` builds from the unused set, listed in `order`. */
  function PredictiveText(codePath: string, unused: set<string>, order: seq<string>): string
  {
    Heading(Predictive, codePath) + PredictiveBody(unused, order)
  }

  function PredictiveBody(unused: set<string>, order: seq<string>): string
  {
    if unused != {} then "Potential issues detected:\n" + Lines("- Unused variable: ", order)
    else "No potential issues detected."
  }

  /** What `predictive_analysis` returns when iterating over the unused set yields
      its names in `order`. Only an enumeration of that set is an order the program
      can produce (`PredictiveAnalysis`); every result about the report below holds
      for every order. */
  function PredictiveReport(codePath: string, src: ReadResult, order: seq<string>): string
  {
    match src
    case NotFound => FileNotFoundMessage(Predictive, codePath)
    case ParseError(message) => ErrorMessage(Predictive, message)
    case Ok(tree) => PredictiveText(codePath, Unused(tree), order)
  }

  /** The loop of `predictive_analysis` that adds one "- Unused variable: <name>"
      line per unused name, in the order the set yields them; `order` records it. */
  method UnusedLines(unused: set<string>) returns (items: string, ghost order: seq<string>)
    ensures IsEnumeration(order, unused)
    ensures items == Lines("- Unused variable: ", order)
  {
    items := "";
    order := [];
    var rest := unused;
    while rest != {}
      invariant rest <= unused
      invariant Distinct(order)
      invariant forall x :: x in order <==> x in unused && x !in rest
      invariant items == Lines("- Unused variable: ", order)
      decreases |rest|
    {
      var variable :| variable in rest;
      LinesSnoc("- Unused variable: ", order, variable);
      items := items + "- Unused variable: " + variable + "\n";
      order := order + [variable];
      rest := rest - {variable};
    }
  }

  /** `predictive_analysis`: run the visitor, then list `defined - used` in whatever
      order the set yields its elements; `order` records that order. */
  method PredictiveAnalysis(codePath: string, src: ReadResult) returns (report: string, ghost order: seq<string>)
    ensures src.NotFound? ==> report == FileNotFoundMessage(Predictive, codePath)
    ensures src.ParseError? ==> report == ErrorMessage(Predictive, src.message)
    ensures src.Ok? ==> IsEnumeration(order, Unused(src.tree))
    ensures report == PredictiveReport(codePath, src, order)
  {
    order := [];
    match src
    case NotFound =>
      report := FileNotFoundMessage(Predictive, codePath);
    case ParseError(message) =>
      report := ErrorMessage(Predictive, message);
    case Ok(tree) =>
      var visitor := new PredictiveAnalysisVisitor();
      visitor.Visit(tree);
      var unusedVariables := visitor.GetUnusedVariables();
      if unusedVariables != {} {
        var items;
        items, order := UnusedLines(unusedVariables);
        report := Heading(Predictive, codePath) + ("Potential issues detected:\n" + items);
      } else {
        report := Heading(Predictive, codePath) + "No potential issues detected.";
      }
  }

  /** An empty result gives exactly "No potential issues detected." after the
      heading; otherwise the "Potential issues detected:" line and one
      "- Unused variable: " line per name, in the enumeration's order. */
  lemma PredictiveTextShape(codePath: string, unused: set<string>, order: seq<string>)
    requires IsEnumeration(order, unused)
    ensures unused == {} ==>
              order == [] &&
              PredictiveText(codePath, unused, order)
                == Heading(Predictive, codePath) + "No potential issues detected."
    ensures unused != {} ==>
              order != [] &&
              PredictiveText(codePath, unused, order)
                == Heading(Predictive, codePath) + "Potential issues detected:\n"
                   + Lines("- Unused variable: ", order)
  {
    EnumerationLength(order, unused);
  }

  /** When no unused name holds a line break, the item block has one line per name. */
  lemma PredictiveOneLinePerName(unused: set<string>, order: seq<string>)
    requires IsEnumeration(order, unused)
    requires forall v :: v in unused ==> '\n' !in v
    ensures CountChar(Lines("- Unused variable: ", order), '\n') == |unused|
  {
    EnumerationLength(order, unused);
    LinesLineCount("- Unused variable: ", order);
  }

  /** An enumeration of a set is as long as the set is large. */
  lemma {:induction false} EnumerationLength(order: seq<string>, s: set<string>)
    requires IsEnumeration(order, s)
    ensures |order| == |s|
    decreases |order|
  {
    if order != [] {
      var x := order[|order| - 1];
      var init := order[..|order| - 1];
      assert forall i :: 0 <= i < |init| ==> init[i] == order[i] && init[i] != x;
      assert forall y :: y in init <==> y in order && y != x;
      EnumerationLength(init, s - {x});
    }
  }

  // ---------------------------------------------------------------------------
  // Tier chaining and dispatch

  /** `basic_and_complexity_analysis`. */
  function BasicAndComplexityAnalysis(codePath: string, src: ReadResult): string
  {
    BasicCodeAnalysis(codePath, src) + ComplexityAnalysis(codePath, src)
  }

  /** `basic_complexity_bug_detection_analysis`. */
  function BasicComplexityBugDetectionAnalysis(codePath: string, src: ReadResult): string
  {
    BasicAndComplexityAnalysis(codePath, src) + BugDetectionReport(codePath, src)
  }

  /** `all_detections_analysis`. */
  function AllDetectionsAnalysis(codePath: string, src: ReadResult, order: seq<string>): string
  {
    BasicComplexityBugDetectionAnalysis(codePath, src) + PredictiveReport(codePath, src, order)
  }

  /** `analyze_code`. */
  function AnalyzeCode(engineType: string, codePath: string, src: ReadResult, order: seq<string>): string
  {
    if engineType !in SupportedEngineTypes then UnsupportedMessage(engineType)
    else if engineType == "opencv-1" then BasicCodeAnalysis(codePath, src)
    else if engineType == "opencv-2" then BasicAndComplexityAnalysis(codePath, src)
    else if engineType == "opencv-3" then BasicComplexityBugDetectionAnalysis(codePath, src)
    else if engineType == "opencv4-5turbo" then AllDetectionsAnalysis(codePath, src, order)
    else InvalidEngineMessage
  }

  /** `analyze_code` as the program runs it: each tier's section comes from its own
      method, and `order` is the order in which the predictive tier's set iteration
      (when it runs) listed the unused names, or some enumeration of them otherwise. */
  method AnalyzeCodeRun(engineType: string, codePath: string, src: ReadResult) returns (report: string, ghost order: seq<string>)
    ensures src.Ok? ==> IsEnumeration(order, Unused(src.tree))
    ensures report == AnalyzeCode(engineType, codePath, src, order)
  {
    order := if src.Ok? then Enumeration(Unused(src.tree)) else [];
    if engineType !in SupportedEngineTypes {
      report := UnsupportedMessage(engineType);
    } else if engineType == "opencv-1" {
      report := BasicCodeAnalysis(codePath, src);
    } else if engineType == "opencv-2" {
      var complexity := ComplexityAnalysisRun(codePath, src);
      report := BasicCodeAnalysis(codePath, src) + complexity;
    } else if engineType == "opencv-3" {
      var complexity := ComplexityAnalysisRun(codePath, src);
      var bugs := BugDetection(codePath, src);
      report := BasicCodeAnalysis(codePath, src) + complexity + bugs;
    } else if engineType == "opencv4-5turbo" {
      var complexity := ComplexityAnalysisRun(codePath, src);
      var bugs := BugDetection(codePath, src);
      var predictive;
      predictive, order := PredictiveAnalysis(codePath, src);
      report := BasicCodeAnalysis(codePath, src) + complexity + bugs + predictive;
    } else {
      report := InvalidEngineMessage;
    }
  }

  /** The report of the tier an engine type names, as the chained tier methods build it. */
  function TierAnalysis(t: Tier, codePath: string, src: ReadResult, order: seq<string>): string
  {
    match t
    case Basic => BasicCodeAnalysis(codePath, src)
    case Complexity => BasicAndComplexityAnalysis(codePath, src)
    case Bugs => BasicComplexityBugDetectionAnalysis(codePath, src)
    case Predictive => AllDetectionsAnalysis(codePath, src, order)
  }

  /** `analyze_code` dispatches each supported engine type to its tier's method. */
  lemma AnalyzeDispatch(engineType: string, codePath: string, src: ReadResult, order: seq<string>)
    requires engineType in EngineTiers
    ensures engineType in SupportedEngineTypes
    ensures AnalyzeCode(engineType, codePath, src, order) == TierAnalysis(EngineTiers[engineType], codePath, src, order)
  {
    EngineTiersEntries(engineType);
    if engineType == "opencv-1" {
      DispatchBasic(codePath, src, order);
    } else if engineType == "opencv-2" {
      DispatchComplexity(codePath, src, order);
    } else if engineType == "opencv-3" {
      DispatchBugs(codePath, src, order);
    } else {
      DispatchPredictive(codePath, src, order);
    }
  }

  /** The four entries of the dispatch map. */
  lemma EngineTiersEntries(engineType: string)
    requires engineType in EngineTiers
    ensures || (engineType == "opencv-1" && EngineTiers[engineType] == Basic)
            || (engineType == "opencv-2" && EngineTiers[engineType] == Complexity)
            || (engineType == "opencv-3" && EngineTiers[engineType] == Bugs)
            || (engineType == "opencv4-5turbo" && EngineTiers[engineType] == Predictive)
  {
  }

  // The four supported engine types, one lemma each: the type is in the list, differs
  // from the types compared before it, and reaches its tier's method.

  lemma FirstEngineType()
    ensures "opencv-1" in SupportedEngineTypes
  {
    assert SupportedEngineTypes[0] == "opencv-1";
  }

  lemma DispatchBasic(codePath: string, src: ReadResult, order: seq<string>)
    ensures "opencv-1" in SupportedEngineTypes
    ensures AnalyzeCode("opencv-1", codePath, src, order) == BasicCodeAnalysis(codePath, src)
  {
    FirstEngineType();
  }

  lemma SecondEngineType()
    ensures "opencv-2" in SupportedEngineTypes && "opencv-2" != "opencv-1"
  {
    assert SupportedEngineTypes[1] == "opencv-2";
    assert "opencv-1"[7] == '1' && "opencv-2"[7] == '2';
  }

  lemma DispatchComplexity(codePath: string, src: ReadResult, order: seq<string>)
    ensures "opencv-2" in SupportedEngineTypes
    ensures AnalyzeCode("opencv-2", codePath, src, order) == BasicAndComplexityAnalysis(codePath, src)
  {
    SecondEngineType();
  }

  lemma ThirdEngineType()
    ensures "opencv-3" in SupportedEngineTypes && "opencv-3" != "opencv-1" && "opencv-3" != "opencv-2"
  {
    assert SupportedEngineTypes[2] == "opencv-3";
    assert "opencv-1"[7] == '1' && "opencv-2"[7] == '2' && "opencv-3"[7] == '3';
  }

  lemma DispatchBugs(codePath: string, src: ReadResult, order: seq<string>)
    ensures "opencv-3" in SupportedEngineTypes
    ensures AnalyzeCode("opencv-3", codePath, src, order) == BasicComplexityBugDetectionAnalysis(codePath, src)
  {
    ThirdEngineType();
  }

  lemma FourthEngineType()
    ensures "opencv4-5turbo" in SupportedEngineTypes
    ensures "opencv4-5turbo" != "opencv-1" && "opencv4-5turbo" != "opencv-2" && "opencv4-5turbo" != "opencv-3"
  {
    assert SupportedEngineTypes[3] == "opencv4-5turbo";
    assert |"opencv4-5turbo"| == 14 && |"opencv-1"| == 8;
  }

  lemma DispatchPredictive(codePath: string, src: ReadResult, order: seq<string>)
    ensures "opencv4-5turbo" in SupportedEngineTypes
    ensures AnalyzeCode("opencv4-5turbo", codePath, src, order) == AllDetectionsAnalysis(codePath, src, order)
  {
    FourthEngineType();
  }

  /** The orchestrator's explicit view: the ordered list of tiers an engine type runs. */
  function Rank(t: Tier): nat
  {
    match t
    case Basic => 0
    case Complexity => 1
    case Bugs => 2
    case Predictive => 3
  }

  const AllTiers: seq<Tier> := [Basic, Complexity, Bugs, Predictive]

  function Chain(t: Tier): (ts: seq<Tier>)
    ensures |ts| == Rank(t) + 1
  {
    AllTiers[..Rank(t) + 1]
  }

  function Section(t: Tier, codePath: string, src: ReadResult, order: seq<string>): string
  {
    match t
    case Basic => BasicCodeAnalysis(codePath, src)
    case Complexity => ComplexityAnalysis(codePath, src)
    case Bugs => BugDetectionReport(codePath, src)
    case Predictive => PredictiveReport(codePath, src, order)
  }

  function ChainReport(ts: seq<Tier>, codePath: string, src: ReadResult, order: seq<string>): string
    decreases |ts|
  {
    if ts == [] then "" else ChainReport(ts[..|ts| - 1], codePath, src, order) + Section(ts[|ts| - 1], codePath, src, order)
  }

  /** Every section reports a failure as text of one uniform shape, and a success
      under its own heading. */
  lemma SectionShape(t: Tier, codePath: string, src: ReadResult, order: seq<string>)
    ensures src.NotFound? ==> Section(t, codePath, src, order) == Title(t) + " failed. File not found: " + codePath
    ensures src.ParseError? ==> Section(t, codePath, src, order) == Title(t) + " failed. Error: " + src.message
    ensures src.Ok? ==> Heading(t, codePath) <= Section(t, codePath, src, order)
  {
  }

  lemma ChainReportSnoc(ts: seq<Tier>, t: Tier, codePath: string, src: ReadResult, order: seq<string>)
    ensures ChainReport(ts + [t], codePath, src, order) == ChainReport(ts, codePath, src, order) + Section(t, codePath, src, order)
  {
    assert (ts + [t])[..|ts|] == ts;
  }

  /** How the chains of consecutive tiers extend one another. */
  lemma ChainsGrow()
    ensures AllTiers[..1] == [] + [Basic]
    ensures AllTiers[..2] == AllTiers[..1] + [Complexity]
    ensures AllTiers[..3] == AllTiers[..2] + [Bugs]
    ensures AllTiers[..4] == AllTiers[..3] + [Predictive]
  {
  }

  lemma ChainUpToBasic(codePath: string, src: ReadResult, order: seq<string>)
    ensures ChainReport(AllTiers[..1], codePath, src, order) == BasicCodeAnalysis(codePath, src)
  {
    ChainsGrow();
    ChainReportSnoc([], Basic, codePath, src, order);
  }

  lemma ChainUpToComplexity(codePath: string, src: ReadResult, order: seq<string>)
    ensures ChainReport(AllTiers[..2], codePath, src, order) == BasicAndComplexityAnalysis(codePath, src)
  {
    ChainsGrow();
    ChainUpToBasic(codePath, src, order);
    ChainReportSnoc(AllTiers[..1], Complexity, codePath, src, order);
  }

  lemma ChainUpToBugs(codePath: string, src: ReadResult, order: seq<string>)
    ensures ChainReport(AllTiers[..3], codePath, src, order) == BasicComplexityBugDetectionAnalysis(codePath, src)
  {
    ChainsGrow();
    ChainUpToComplexity(codePath, src, order);
    ChainReportSnoc(AllTiers[..2], Bugs, codePath, src, order);
  }

  lemma ChainUpToPredictive(codePath: string, src: ReadResult, order: seq<string>)
    ensures ChainReport(AllTiers[..4], codePath, src, order) == AllDetectionsAnalysis(codePath, src, order)
  {
    ChainsGrow();
    ChainUpToBugs(codePath, src, order);
    ChainReportSnoc(AllTiers[..3], Predictive, codePath, src, order);
  }

  /** Each tier's chained method runs exactly the sections of every tier up to it, in
      tier order. */
  lemma TierAnalysisIsChain(t: Tier, codePath: string, src: ReadResult, order: seq<string>)
    ensures TierAnalysis(t, codePath, src, order) == ChainReport(Chain(t), codePath, src, order)
  {
    match t
    case Basic => ChainUpToBasic(codePath, src, order);
    case Complexity => ChainUpToComplexity(codePath, src, order);
    case Bugs => ChainUpToBugs(codePath, src, order);
    case Predictive => ChainUpToPredictive(codePath, src, order);
  }

  /** A supported engine type runs exactly its tier's chain. */
  lemma AnalyzeRunsChain(engineType: string, codePath: string, src: ReadResult, order: seq<string>)
    requires engineType in EngineTiers
    ensures AnalyzeCode(engineType, codePath, src, order) == ChainReport(Chain(EngineTiers[engineType]), codePath, src, order)
  {
    AnalyzeDispatch(engineType, codePath, src, order);
    TierAnalysisIsChain(EngineTiers[engineType], codePath, src, order);
  }

  /** A chain's report extends the report of every shorter chain. */
  lemma {:induction false} ChainReportPrefix(ts: seq<Tier>, k: nat, codePath: string, src: ReadResult, order: seq<string>)
    requires k <= |ts|
    ensures ChainReport(ts[..k], codePath, src, order) <= ChainReport(ts, codePath, src, order)
    decreases |ts|
  {
    if k < |ts| {
      ChainReportPrefix(ts[..|ts| - 1], k, codePath, src, order);
      assert ts[..|ts| - 1][..k] == ts[..k];
    } else {
      assert ts[..k] == ts;
    }
  }

  /** Tier monotonicity on tiers: a lower tier's report is a prefix of a higher tier's. */
  lemma TierIsPrefix(lower: Tier, higher: Tier, codePath: string, src: ReadResult, order: seq<string>)
    requires Rank(lower) <= Rank(higher)
    ensures TierAnalysis(lower, codePath, src, order) <= TierAnalysis(higher, codePath, src, order)
  {
    TierAnalysisIsChain(lower, codePath, src, order);
    TierAnalysisIsChain(higher, codePath, src, order);
    ChainTierPrefix(lower, higher, codePath, src, order);
  }

  lemma ChainTierPrefix(lower: Tier, higher: Tier, codePath: string, src: ReadResult, order: seq<string>)
    requires Rank(lower) <= Rank(higher)
    ensures ChainReport(Chain(lower), codePath, src, order) <= ChainReport(Chain(higher), codePath, src, order)
  {
    ChainIsPrefix(lower, higher);
    ChainReportPrefix(Chain(higher), Rank(lower) + 1, codePath, src, order);
  }

  lemma ChainIsPrefix(lower: Tier, higher: Tier)
    requires Rank(lower) <= Rank(higher)
    ensures Chain(higher)[..Rank(lower) + 1] == Chain(lower)
  {
  }

  /** Tier monotonicity on engine types, as `analyze_code` sees them. */
  lemma LowerTierIsPrefix(lower: string, higher: string, codePath: string, src: ReadResult, order: seq<string>)
    requires lower in EngineTiers && higher in EngineTiers
    requires Rank(EngineTiers[lower]) <= Rank(EngineTiers[higher])
    ensures AnalyzeCode(lower, codePath, src, order) <= AnalyzeCode(higher, codePath, src, order)
  {
    AnalyzeDispatch(lower, codePath, src, order);
    AnalyzeDispatch(higher, codePath, src, order);
    TierIsPrefix(EngineTiers[lower], EngineTiers[higher], codePath, src, order);
  }

  /** Each tier's report is the previous tier's followed by one new section. */
  lemma TierAddsOneSection(codePath: string, src: ReadResult, order: seq<string>)
    ensures TierAnalysis(Basic, codePath, src, order) == Section(Basic, codePath, src, order)
    ensures TierAnalysis(Complexity, codePath, src, order) == TierAnalysis(Basic, codePath, src, order) + Section(Complexity, codePath, src, order)
    ensures TierAnalysis(Bugs, codePath, src, order) == TierAnalysis(Complexity, codePath, src, order) + Section(Bugs, codePath, src, order)
    ensures TierAnalysis(Predictive, codePath, src, order) == TierAnalysis(Bugs, codePath, src, order) + Section(Predictive, codePath, src, order)
  {
  }

  /** The concatenated failure messages of a chain when the file cannot be found. */
  function NotFoundReport(ts: seq<Tier>, codePath: string): string
    decreases |ts|
  {
    if ts == [] then "" else NotFoundReport(ts[..|ts| - 1], codePath) + FileNotFoundMessage(ts[|ts| - 1], codePath)
  }

  lemma {:induction false} ChainReportNotFound(ts: seq<Tier>, codePath: string, order: seq<string>)
    ensures ChainReport(ts, codePath, NotFound, order) == NotFoundReport(ts, codePath)
    decreases |ts|
  {
    if ts != [] {
      ChainReportNotFound(ts[..|ts| - 1], codePath, order);
      SectionShape(ts[|ts| - 1], codePath, NotFound, order);
    }
  }

  /** A missing file: every tier of the chain still runs, and the report is each
      tier's own "failed. File not found" message in tier order. */
  lemma MissingFileReport(engineType: string, codePath: string, order: seq<string>)
    requires engineType in EngineTiers
    ensures AnalyzeCode(engineType, codePath, NotFound, order) == NotFoundReport(Chain(EngineTiers[engineType]), codePath)
  {
    AnalyzeRunsChain(engineType, codePath, NotFound, order);
    ChainReportNotFound(Chain(EngineTiers[engineType]), codePath, order);
  }

  /** Spelled out for the fullest engine type. */
  lemma MissingFileAllTiers(codePath: string, order: seq<string>)
    ensures AnalyzeCode("opencv4-5turbo", codePath, NotFound, order)
            == FileNotFoundMessage(Basic, codePath) + FileNotFoundMessage(Complexity, codePath)
               + FileNotFoundMessage(Bugs, codePath) + FileNotFoundMessage(Predictive, codePath)
  {
    DispatchPredictive(codePath, NotFound, order);
  }

  /** An unsupported engine type yields only the error text, whatever the file holds. */
  lemma UnsupportedEngineType(engineType: string, codePath: string, src: ReadResult, order: seq<string>)
    requires engineType !in SupportedEngineTypes
    ensures AnalyzeCode(engineType, codePath, src, order) == "Error: Engine type '" + engineType + "' is not supported."
  {
  }

  /** The supported engine types are exactly the keys of the dispatch map. */
  lemma SupportedAreMapped(engineType: string)
    ensures engineType in SupportedEngineTypes <==> engineType in EngineTiers
  {
  }

  /** The "Invalid engine type" branch of `analyze_code` is unreachable: every
      supported engine type is one of the four it dispatches, so its report begins with
      the basic section. */
  lemma InvalidBranchUnreachable(engineType: string, codePath: string, src: ReadResult, order: seq<string>)
    requires engineType in SupportedEngineTypes
    ensures BasicCodeAnalysis(codePath, src) <= AnalyzeCode(engineType, codePath, src, order)
    ensures AnalyzeCode(engineType, codePath, src, order) != InvalidEngineMessage
  {
    AnalyzeDispatch(engineType, codePath, src, order);
    TierIsPrefix(Basic, EngineTiers[engineType], codePath, src, order);
    BasicSectionStart(codePath, src);
    assert InvalidEngineMessage[0] == 'E';
  }

  /** The basic section opens with its heading's line break and the word "Basic" on
      success, and with the word "Basic" on failure. */
  lemma BasicSectionStart(codePath: string, src: ReadResult)
    ensures |BasicCodeAnalysis(codePath, src)| > 0
    ensures BasicCodeAnalysis(codePath, src)[0] == '\n' || BasicCodeAnalysis(codePath, src)[0] == 'B'
    ensures src.Ok? ==> "\nBasic" <= BasicCodeAnalysis(codePath, src)
    ensures !src.Ok? ==> "Basic" <= BasicCodeAnalysis(codePath, src)
  {
    var title := Title(Basic);
    assert title[0] == 'B';
  }
}
