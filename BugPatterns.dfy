/** The bug-pattern visitor (`BugDetectionTransformer` in opencb_engine.py): a
    pre-order traversal that appends one textual finding per offending node to a
    list and hands every node back unchanged. */
module BugPatterns {
  import opened Ast
  import opened Text

  function NonAlphanumericStringMessage(line: nat, s: string): string
  {
    "Non-alphanumeric string detected in line " + NatToString(line) + ": " + s
  }

  function MissingSemicolonMessage(line: nat): string
  {
    "Missing semicolon at the end of statement in line " + NatToString(line)
  }

  function WrongSymbolMessage(line: nat, id: string): string
  {
    "Wrong symbol detected in variable name '" + id + "' in line " + NatToString(line)
  }

  /** A string literal whose text is not entirely alphanumeric (the empty text included). */
  predicate IsFlaggedString(n: Node)
  {
    n.kind.StrLit? && !IsAlnum(n.kind.s)
  }

  /** An expression statement whose value is a string literal not ending in ';'. */
  predicate IsMissingSemicolon(n: Node)
  {
    n.kind.Expr? && |n.children| > 0 && n.children[0].kind.StrLit?
    && !EndsWith(n.children[0].kind.s, ';')
  }

  /** A name reference, in any context, whose identifier is not entirely alphanumeric. */
  predicate IsFlaggedName(n: Node)
  {
    n.kind.Name? && !IsAlnum(n.kind.id)
  }

  /** What the handler for `n`'s kind appends before it visits the children. */
  function NodeFindings(n: Node): seq<string>
  {
    match n.kind
    case StrLit(s) => if IsFlaggedString(n) then [NonAlphanumericStringMessage(n.line, s)] else []
    case Expr => if IsMissingSemicolon(n) then [MissingSemicolonMessage(n.line)] else []
    case Name(id, _) => if IsFlaggedName(n) then [WrongSymbolMessage(n.line, id)] else []
    case _ => []
  }

  /** A node yields at most one finding, exactly when it is a flagged literal, an
      expression statement missing its semicolon or a flagged name, and the finding
      is that pattern's message. */
  lemma NodeFindingsSpec(n: Node)
    ensures |NodeFindings(n)| <= 1
    ensures NodeFindings(n) != [] <==> IsFlaggedString(n) || IsMissingSemicolon(n) || IsFlaggedName(n)
    ensures IsFlaggedString(n) ==> NodeFindings(n) == [NonAlphanumericStringMessage(n.line, n.kind.s)]
    ensures IsMissingSemicolon(n) ==> NodeFindings(n) == [MissingSemicolonMessage(n.line)]
    ensures IsFlaggedName(n) ==> NodeFindings(n) == [WrongSymbolMessage(n.line, n.kind.id)]
  {
  }

  /** All findings of a tree, in the order a pre-order traversal appends them. */
  function Findings(t: Node): seq<string>
    decreases t
  {
    NodeFindings(t) + ForestFindings(t.children)
  }

  function ForestFindings(ts: seq<Node>): seq<string>
    decreases ts
  {
    if ts == [] then [] else Findings(ts[0]) + ForestFindings(ts[1..])
  }

  lemma {:induction false} ForestFindingsSnoc(ts: seq<Node>, t: Node)
    ensures ForestFindings(ts + [t]) == ForestFindings(ts) + Findings(t)
    decreases ts
  {
    if ts == [] {
      assert ts + [t] == [t];
      assert [t][1..] == [];
    } else {
      assert (ts + [t])[0] == ts[0] && (ts + [t])[1..] == ts[1..] + [t];
      ForestFindingsSnoc(ts[1..], t);
    }
  }

  /** Extending a prefix of a forest by its next tree extends its findings by that tree's. */
  lemma ForestFindingsStep(ts: seq<Node>, i: nat)
    requires i < |ts|
    ensures ForestFindings(ts[..i + 1]) == ForestFindings(ts[..i]) + Findings(ts[i])
  {
    assert ts[..i + 1] == ts[..i] + [ts[i]];
    ForestFindingsSnoc(ts[..i], ts[i]);
  }

  /** The pre-order listing of a tree's nodes: a node before its children, children
      left to right. */
  function PreOrder(t: Node): seq<Node>
    decreases t
  {
    [t] + ForestPreOrder(t.children)
  }

  function ForestPreOrder(ts: seq<Node>): seq<Node>
    decreases ts
  {
    if ts == [] then [] else PreOrder(ts[0]) + ForestPreOrder(ts[1..])
  }

  /** The per-node findings of a node sequence, concatenated in sequence order. */
  function FindingsAlong(s: seq<Node>): seq<string>
    decreases s
  {
    if s == [] then [] else NodeFindings(s[0]) + FindingsAlong(s[1..])
  }

  lemma {:induction false} FindingsAlongAppend(a: seq<Node>, b: seq<Node>)
    ensures FindingsAlong(a + b) == FindingsAlong(a) + FindingsAlong(b)
    decreases a
  {
    if a == [] {
      assert a + b == b;
    } else {
      assert (a + b)[0] == a[0] && (a + b)[1..] == a[1..] + b;
      FindingsAlongAppend(a[1..], b);
    }
  }

  /** Findings appear in pre-order: the visitor's list is the concatenation of the
      per-node findings taken in the pre-order listing of the tree. */
  lemma {:induction false} FindingsInPreOrder(t: Node)
    ensures Findings(t) == FindingsAlong(PreOrder(t))
    decreases t, 1
  {
    ForestFindingsInPreOrder(t.children);
    FindingsAlongAppend([t], ForestPreOrder(t.children));
    assert [t][1..] == [];
  }

  lemma {:induction false} ForestFindingsInPreOrder(ts: seq<Node>)
    ensures ForestFindings(ts) == FindingsAlong(ForestPreOrder(ts))
    decreases ts, 0
  {
    if ts != [] {
      FindingsInPreOrder(ts[0]);
      ForestFindingsInPreOrder(ts[1..]);
      FindingsAlongAppend(PreOrder(ts[0]), ForestPreOrder(ts[1..]));
    }
  }

  /** The number of findings is the number of offending literals, plus the number
      of expression statements missing their semicolon, plus the number of
      offending names. */
  lemma {:induction false} FindingsCount(t: Node)
    ensures |Findings(t)| ==
            Count(t, IsFlaggedString) + Count(t, IsMissingSemicolon) + Count(t, IsFlaggedName)
    decreases t, 1
  {
    ForestFindingsCount(t.children);
  }

  lemma {:induction false} ForestFindingsCount(ts: seq<Node>)
    ensures |ForestFindings(ts)| ==
            CountForest(ts, IsFlaggedString) + CountForest(ts, IsMissingSemicolon)
            + CountForest(ts, IsFlaggedName)
    decreases ts, 0
  {
    if ts != [] {
      FindingsCount(ts[0]);
      ForestFindingsCount(ts[1..]);
    }
  }

  /** A tree yields no finding exactly when none of its nodes offends. */
  lemma NoFindingsIffClean(t: Node)
    ensures Findings(t) == [] <==>
            forall n :: Occurs(n, t) ==> !IsFlaggedString(n) && !IsMissingSemicolon(n) && !IsFlaggedName(n)
  {
    FindingsCount(t);
    CountPositive(t, IsFlaggedString);
    CountPositive(t, IsMissingSemicolon);
    CountPositive(t, IsFlaggedName);
  }

  /** In an expression statement that wraps a string literal without a trailing ';',
      the missing-semicolon finding comes first, and the wrapped literal's own
      finding, if it has one, comes right after it. */
  lemma ExprFindingPrecedesLiteral(n: Node)
    requires IsMissingSemicolon(n)
    ensures Findings(n) == [MissingSemicolonMessage(n.line)] + Findings(n.children[0])
                           + ForestFindings(n.children[1..])
    ensures Findings(n)[0] == MissingSemicolonMessage(n.line)
    ensures IsFlaggedString(n.children[0]) ==>
              |Findings(n)| >= 2
              && Findings(n)[1] == NonAlphanumericStringMessage(n.children[0].line, n.children[0].kind.s)
  {
    var lit := n.children[0];
    assert Findings(lit) == NodeFindings(lit) + ForestFindings(lit.children);
  }

  /** Python's `"".isalnum()` is false, so an empty string literal is flagged. */
  lemma EmptyStringFlagged(line: nat, children: seq<Node>)
    ensures NodeFindings(Node(StrLit(""), line, children)) == [NonAlphanumericStringMessage(line, "")]
  {
  }

  /** The literals "abc" and "a!b": no finding for the first, one finding naming its
      line for the second. */
  lemma LiteralExamples(line: nat)
    ensures Findings(Node(StrLit("abc"), line, [])) == []
    ensures Findings(Node(StrLit("a!b"), line, [])) == [NonAlphanumericStringMessage(line, "a!b")]
  {
    assert IsAlnumChar('a') && IsAlnumChar('b') && IsAlnumChar('c');
    assert !IsAlnumChar('!');
    assert "a!b"[1] == '!';
  }

  /** A file holding only the statement `"a!b"`: the statement's missing-semicolon
      finding comes first, then the literal's own. */
  lemma StatementExample(line: nat)
    ensures Findings(Node(Expr, line, [Node(StrLit("a!b"), line, [])]))
            == [MissingSemicolonMessage(line), NonAlphanumericStringMessage(line, "a!b")]
  {
    var lit := Node(StrLit("a!b"), line, []);
    LiteralExamples(line);
    assert "a!b"[2] == 'b';
    assert [lit][1..] == [];
    assert ForestFindings([lit]) == Findings(lit);
  }

  /** Neither a literal's text nor a name's identifier holds a line break. */
  predicate HasNoLineBreak(n: Node)
  {
    (n.kind.StrLit? ==> '\n' !in n.kind.s) && (n.kind.Name? ==> '\n' !in n.kind.id)
  }

  lemma NonAlphanumericStringMessageIsOneLine(line: nat, s: string)
    requires '\n' !in s
    ensures '\n' !in NonAlphanumericStringMessage(line, s)
  {
    assert '\n' !in NatToString(line);
    assert '\n' !in "Non-alphanumeric string detected in line ";
  }

  lemma MissingSemicolonMessageIsOneLine(line: nat)
    ensures '\n' !in MissingSemicolonMessage(line)
  {
    assert '\n' !in NatToString(line);
    assert "Missing semicolon at the end of statement in line "
        == "Missing semicolon at the end " + "of statement in line ";
    assert '\n' !in "Missing semicolon at the end " && '\n' !in "of statement in line ";
  }

  lemma WrongSymbolMessageIsOneLine(line: nat, id: string)
    requires '\n' !in id
    ensures '\n' !in WrongSymbolMessage(line, id)
  {
    assert '\n' !in NatToString(line);
    assert '\n' !in "Wrong symbol detected in variable name '" && '\n' !in "' in line ";
  }

  lemma NodeFindingsAreSingleLines(n: Node)
    requires HasNoLineBreak(n)
    ensures forall k :: 0 <= k < |NodeFindings(n)| ==> '\n' !in NodeFindings(n)[k]
  {
    if IsFlaggedString(n) {
      NonAlphanumericStringMessageIsOneLine(n.line, n.kind.s);
    } else if IsMissingSemicolon(n) {
      MissingSemicolonMessageIsOneLine(n.line);
    } else if IsFlaggedName(n) {
      WrongSymbolMessageIsOneLine(n.line, n.kind.id);
    }
  }

  /** Every finding is a single line when no literal or name of the tree holds a
      line break. */
  lemma {:induction false} FindingsAreSingleLines(t: Node)
    requires forall n :: Occurs(n, t) ==> HasNoLineBreak(n)
    ensures forall k :: 0 <= k < |Findings(t)| ==> '\n' !in Findings(t)[k]
    decreases t, 1
  {
    assert Occurs(t, t);
    NodeFindingsAreSingleLines(t);
    forall n | OccursIn(n, t.children) ensures HasNoLineBreak(n) {
      assert Occurs(n, t);
    }
    ForestFindingsAreSingleLines(t.children);
  }

  lemma {:induction false} ForestFindingsAreSingleLines(ts: seq<Node>)
    requires forall n :: OccursIn(n, ts) ==> HasNoLineBreak(n)
    ensures forall k :: 0 <= k < |ForestFindings(ts)| ==> '\n' !in ForestFindings(ts)[k]
    decreases ts, 0
  {
    if ts != [] {
      forall n | Occurs(n, ts[0]) ensures HasNoLineBreak(n) {
        assert OccursIn(n, ts);
      }
      forall n | OccursIn(n, ts[1..]) ensures HasNoLineBreak(n) {
        var i :| 0 <= i < |ts[1..]| && Occurs(n, ts[1..][i]);
        assert Occurs(n, ts[i + 1]);
      }
      FindingsAreSingleLines(ts[0]);
      ForestFindingsAreSingleLines(ts[1..]);
    }
  }

  /** The visitor: findings accumulate in `errorsFound`, in traversal order. */
  class BugDetectionTransformer {
    var errorsFound: seq<string>

    constructor ()
      ensures errorsFound == []
    {
      errorsFound := [];
    }

    function GetErrors(): seq<string>
      reads this
    {
      errorsFound
    }

    /** `visit`: dispatch on the node's kind to its handler, or to the generic visit. */
    method Visit(node: Node) returns (r: Node)
      modifies this
      ensures r == node
      ensures errorsFound == old(errorsFound) + Findings(node)
      decreases node, 2
    {
      if node.kind.StrLit? {
        r := VisitStr(node);
      } else if node.kind.Expr? {
        r := VisitExpr(node);
      } else if node.kind.Name? {
        r := VisitName(node);
      } else {
        r := GenericVisit(node);
        assert NodeFindings(node) == [];
      }
    }

    method VisitStr(node: Node) returns (r: Node)
      requires node.kind.StrLit?
      modifies this
      ensures r == node
      ensures errorsFound == old(errorsFound) + Findings(node)
      decreases node, 1
    {
      if IsFlaggedString(node) {
        errorsFound := errorsFound + [NonAlphanumericStringMessage(node.line, node.kind.s)];
      }
      r := GenericVisit(node);
    }

    method VisitExpr(node: Node) returns (r: Node)
      requires node.kind.Expr?
      modifies this
      ensures r == node
      ensures errorsFound == old(errorsFound) + Findings(node)
      decreases node, 1
    {
      if IsMissingSemicolon(node) {
        errorsFound := errorsFound + [MissingSemicolonMessage(node.line)];
      }
      r := GenericVisit(node);
    }

    method VisitName(node: Node) returns (r: Node)
      requires node.kind.Name?
      modifies this
      ensures r == node
      ensures errorsFound == old(errorsFound) + Findings(node)
      decreases node, 1
    {
      if IsFlaggedName(node) {
        errorsFound := errorsFound + [WrongSymbolMessage(node.line, node.kind.id)];
      }
      r := GenericVisit(node);
    }

    /** `generic_visit`: visit every child in order and rebuild the node from what
        the visits return. */
    method GenericVisit(node: Node) returns (r: Node)
      modifies this
      ensures r == node
      ensures errorsFound == old(errorsFound) + ForestFindings(node.children)
      decreases node, 0
    {
      var newChildren: seq<Node> := [];
      var i := 0;
      while i < |node.children|
        invariant 0 <= i <= |node.children|
        invariant newChildren == node.children[..i]
        invariant errorsFound == old(errorsFound) + ForestFindings(node.children[..i])
      {
        var child := Visit(node.children[i]);
        ForestFindingsStep(node.children, i);
        newChildren := newChildren + [child];
        i := i + 1;
      }
      assert node.children[..i] == node.children;
      r := node.(children := newChildren);
    }
  }
}
