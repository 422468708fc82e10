/** The unused-variable visitor (`PredictiveAnalysisVisitor` in opencb_engine.py):
    one traversal grows a set of defined names and a set of loaded names; the
    unused variables are the first minus the second. */
module UnusedVariables {
  import opened Ast

  /** The assignment targets of an `Assign` node: its first `targetCount` children. */
  function Targets(n: Node): (ts: seq<Node>)
    requires n.kind.Assign?
    ensures |ts| <= |n.children| && ts == n.children[..|ts|]
    ensures n.kind.targetCount <= |n.children| ==> |ts| == n.kind.targetCount
  {
    if n.kind.targetCount <= |n.children| then n.children[..n.kind.targetCount] else n.children
  }

  /** The identifiers of the targets that are plain names; any other target
      (attribute, subscript, tuple, ...) contributes nothing. */
  function TargetNames(ts: seq<Node>): (r: set<string>)
    ensures forall v :: v in r <==> exists i :: 0 <= i < |ts| && ts[i].kind.Name? && ts[i].kind.id == v
    decreases |ts|
  {
    if ts == [] then {}
    else
      var last := ts[|ts| - 1];
      var rest := TargetNames(ts[..|ts| - 1]);
      assert forall i :: 0 <= i < |ts| - 1 ==> ts[..|ts| - 1][i] == ts[i];
      rest + (if last.kind.Name? then {last.kind.id} else {})
  }

  /** Names a node adds to `defined`: a function definition's name, an
      assignment's plain-name targets. */
  function NodeDefines(n: Node): set<string>
  {
    match n.kind
    case FunctionDef(name) => {name}
    case Assign(_) => TargetNames(Targets(n))
    case _ => {}
  }

  /** Names a node adds to `used`: the identifier of a name read in load context. */
  function NodeUses(n: Node): set<string>
  {
    match n.kind
    case Name(id, Load) => {id}
    case _ => {}
  }

  /** The union of `f` over all nodes of a tree, and of a forest. */
  function Collect(t: Node, f: Node -> set<string>): set<string>
    decreases t
  {
    f(t) + CollectForest(t.children, f)
  }

  function CollectForest(ts: seq<Node>, f: Node -> set<string>): set<string>
    decreases ts
  {
    if ts == [] then {} else Collect(ts[0], f) + CollectForest(ts[1..], f)
  }

  lemma {:induction false} CollectForestSnoc(ts: seq<Node>, t: Node, f: Node -> set<string>)
    ensures CollectForest(ts + [t], f) == CollectForest(ts, f) + Collect(t, f)
    decreases ts
  {
    if ts == [] {
      assert ts + [t] == [t];
      assert [t][1..] == [];
    } else {
      assert (ts + [t])[0] == ts[0] && (ts + [t])[1..] == ts[1..] + [t];
      CollectForestSnoc(ts[1..], t, f);
    }
  }

  /** A name is collected exactly when some node of the tree contributes it. */
  lemma {:induction false} CollectIff(t: Node, f: Node -> set<string>, v: string)
    ensures v in Collect(t, f) <==> exists n :: Occurs(n, t) && v in f(n)
    decreases t, 1
  {
    CollectForestIff(t.children, f, v);
    if v in Collect(t, f) && v !in f(t) {
      var n :| OccursIn(n, t.children) && v in f(n);
      assert Occurs(n, t);
    }
    if exists n :: Occurs(n, t) && v in f(n) {
      var n :| Occurs(n, t) && v in f(n);
      if n != t {
        assert OccursIn(n, t.children);
      }
    }
  }

  lemma {:induction false} CollectForestIff(ts: seq<Node>, f: Node -> set<string>, v: string)
    ensures v in CollectForest(ts, f) <==> exists n :: OccursIn(n, ts) && v in f(n)
    decreases ts, 0
  {
    if ts != [] {
      CollectIff(ts[0], f, v);
      CollectForestIff(ts[1..], f, v);
      if v in CollectForest(ts, f) {
        if v in Collect(ts[0], f) {
          var n :| Occurs(n, ts[0]) && v in f(n);
          assert OccursIn(n, ts);
        } else {
          var n :| OccursIn(n, ts[1..]) && v in f(n);
          var i :| 0 <= i < |ts[1..]| && Occurs(n, ts[1..][i]);
          assert Occurs(n, ts[i + 1]);
        }
      }
      if exists n :: OccursIn(n, ts) && v in f(n) {
        var n :| OccursIn(n, ts) && v in f(n);
        var i :| 0 <= i < |ts| && Occurs(n, ts[i]);
        if i > 0 {
          assert Occurs(n, ts[1..][i - 1]);
          assert OccursIn(n, ts[1..]);
        }
      }
    }
  }

  function Defined(t: Node): set<string>
  {
    Collect(t, NodeDefines)
  }

  function Used(t: Node): set<string>
  {
    Collect(t, NodeUses)
  }

  /** `get_unused_variables` after visiting `t`. */
  function Unused(t: Node): (r: set<string>)
    ensures r <= Defined(t) && r !! Used(t)
    ensures Defined(t) <= r + Used(t)
  {
    Defined(t) - Used(t)
  }

  /** Which names are defined: exactly the names of function definitions and the
      plain-name targets of assignments, anywhere in the tree. */
  lemma DefinedIff(t: Node, v: string)
    ensures v in Defined(t) <==>
            exists n :: Occurs(n, t) &&
              (n.kind == FunctionDef(v) ||
               (n.kind.Assign? && exists i :: 0 <= i < |Targets(n)| && Targets(n)[i].kind.Name? && Targets(n)[i].kind.id == v))
  {
    CollectIff(t, NodeDefines, v);
  }

  /** Which names are used: exactly the identifiers read in load context. */
  lemma UsedIff(t: Node, v: string)
    ensures v in Used(t) <==> exists n :: Occurs(n, t) && n.kind == Name(v, Load)
  {
    CollectIff(t, NodeUses, v);
  }

  /** A name is reported exactly when something defines it and nothing loads it. */
  lemma UnusedIff(t: Node, v: string)
    ensures v in Unused(t) <==>
            (exists n :: Occurs(n, t) && v in NodeDefines(n))
            && !(exists n :: Occurs(n, t) && n.kind == Name(v, Load))
  {
    CollectIff(t, NodeDefines, v);
    UsedIff(t, v);
  }

  /** An assignment none of whose targets is a plain name defines nothing. */
  lemma NonNameTargetsDefineNothing(n: Node)
    requires n.kind.Assign?
    requires forall i :: 0 <= i < |Targets(n)| ==> !Targets(n)[i].kind.Name?
    ensures NodeDefines(n) == {}
  {
  }

  /** `x = 1` alone reports `x`; `x = 1` followed by `print(x)` does not. */
  lemma AssignExamples()
    ensures "x" in Unused(Node(Other, 0, [Node(Assign(1), 1, [Node(Name("x", Store), 1, []), Node(Other, 1, [])])]))
    ensures "x" !in Unused(Node(Other, 0, [
              Node(Assign(1), 1, [Node(Name("x", Store), 1, []), Node(Other, 1, [])]),
              Node(Expr, 2, [Node(Other, 2, [Node(Name("print", Load), 2, []), Node(Name("x", Load), 2, [])])])]))
  {
    var target := Node(Name("x", Store), 1, []);
    var assign := Node(Assign(1), 1, [target, Node(Other, 1, [])]);
    var one := Node(Other, 0, [assign]);
    assert Targets(assign) == [target];
    assert "x" in NodeDefines(assign);
    assert Occurs(assign, one) by { assert one.children[0] == assign; }
    CollectIff(one, NodeDefines, "x");
    UsedIff(one, "x");
    forall n | Occurs(n, one) ensures !(n.kind == Name("x", Load)) {
      OccursInExample(n, one, assign, target);
    }

    var load := Node(Name("x", Load), 2, []);
    var call := Node(Other, 2, [Node(Name("print", Load), 2, []), load]);
    var stmt := Node(Expr, 2, [call]);
    var two := Node(Other, 0, [assign, stmt]);
    assert Occurs(load, call) by { assert call.children[1] == load; }
    assert Occurs(load, stmt) by { assert stmt.children[0] == call; }
    assert Occurs(load, two) by { assert two.children[1] == stmt; }
    UsedIff(two, "x");
  }

  /** The only nodes of the one-statement example are its four constructors. */
  lemma OccursInExample(n: Node, one: Node, assign: Node, target: Node)
    requires target == Node(Name("x", Store), 1, [])
    requires assign == Node(Assign(1), 1, [target, Node(Other, 1, [])])
    requires one == Node(Other, 0, [assign])
    requires Occurs(n, one)
    ensures n.kind != Name("x", Load)
  {
    if n != one {
      var i :| 0 <= i < |one.children| && Occurs(n, one.children[i]);
      assert one.children[i] == assign;
      if n != assign {
        var j :| 0 <= j < |assign.children| && Occurs(n, assign.children[j]);
        assert Occurs(n, assign.children[j]);
        assert n == assign.children[j] by {
          var c := assign.children[j];
          assert c.children == [];
        }
      }
    }
  }

  /** The visitor: `variablesDefined` and `variablesUsed` only ever grow. */
  class PredictiveAnalysisVisitor {
    var variablesDefined: set<string>
    var variablesUsed: set<string>

    constructor ()
      ensures variablesDefined == {} && variablesUsed == {}
    {
      variablesDefined := {};
      variablesUsed := {};
    }

    function GetUnusedVariables(): set<string>
      reads this
    {
      variablesDefined - variablesUsed
    }

    /** `visit`: dispatch on the node's kind to its handler, or to the generic visit. */
    method Visit(node: Node)
      modifies this
      ensures variablesDefined == old(variablesDefined) + Defined(node)
      ensures variablesUsed == old(variablesUsed) + Used(node)
      decreases node, 2
    {
      match node.kind
      case FunctionDef(_) => VisitFunctionDef(node);
      case Assign(_) => VisitAssign(node);
      case Name(_, _) => VisitName(node);
      case _ => GenericVisit(node);
    }

    method VisitFunctionDef(node: Node)
      requires node.kind.FunctionDef?
      modifies this
      ensures variablesDefined == old(variablesDefined) + Defined(node)
      ensures variablesUsed == old(variablesUsed) + Used(node)
      decreases node, 1
    {
      variablesDefined := variablesDefined + {node.kind.name};
      GenericVisit(node);
    }

    method VisitAssign(node: Node)
      requires node.kind.Assign?
      modifies this
      ensures variablesDefined == old(variablesDefined) + Defined(node)
      ensures variablesUsed == old(variablesUsed) + Used(node)
      decreases node, 1
    {
      DefineTargets(Targets(node));
      assert variablesDefined == old(variablesDefined) + NodeDefines(node);
      GenericVisit(node);
    }

    /** The loop of `visit_Assign`: add the identifier of every target that is a
        plain name. */
    method DefineTargets(targets: seq<Node>)
      modifies this
      ensures variablesDefined == old(variablesDefined) + TargetNames(targets)
      ensures variablesUsed == old(variablesUsed)
    {
      var i := 0;
      while i < |targets|
        invariant 0 <= i <= |targets|
        invariant variablesDefined == old(variablesDefined) + TargetNames(targets[..i])
        invariant variablesUsed == old(variablesUsed)
      {
        var target := targets[i];
        assert targets[..i + 1][..i] == targets[..i] && targets[..i + 1][i] == target;
        assert TargetNames(targets[..i + 1])
               == TargetNames(targets[..i]) + (if target.kind.Name? then {target.kind.id} else {});
        if target.kind.Name? {
          variablesDefined := variablesDefined + {target.kind.id};
        }
        i := i + 1;
      }
      assert targets[..i] == targets;
    }

    method VisitName(node: Node)
      requires node.kind.Name?
      modifies this
      ensures variablesDefined == old(variablesDefined) + Defined(node)
      ensures variablesUsed == old(variablesUsed) + Used(node)
      decreases node, 1
    {
      if node.kind.ctx.Load? {
        variablesUsed := variablesUsed + {node.kind.id};
      }
      GenericVisit(node);
    }

    /** `generic_visit`: visit every child in order. */
    method GenericVisit(node: Node)
      modifies this
      ensures variablesDefined == old(variablesDefined) + CollectForest(node.children, NodeDefines)
      ensures variablesUsed == old(variablesUsed) + CollectForest(node.children, NodeUses)
      decreases node, 0
    {
      var i := 0;
      while i < |node.children|
        invariant 0 <= i <= |node.children|
        invariant variablesDefined == old(variablesDefined) + CollectForest(node.children[..i], NodeDefines)
        invariant variablesUsed == old(variablesUsed) + CollectForest(node.children[..i], NodeUses)
      {
        Visit(node.children[i]);
        CollectForestSnoc(node.children[..i], node.children[i], NodeDefines);
        CollectForestSnoc(node.children[..i], node.children[i], NodeUses);
        assert node.children[..i + 1] == node.children[..i] + [node.children[i]];
        i := i + 1;
      }
      assert node.children[..i] == node.children;
    }
  }
}
