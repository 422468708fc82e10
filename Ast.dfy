/** The syntax tree the analyses run over, with the two ways the source walks it:
    the breadth-first enumeration of Python's `ast.walk` and the structural
    (pre-order) recursion of the visitor classes. */
module Ast {

  /** The context a name reference appears in (Python's `ast.Load`, `ast.Store`, `ast.Del`). */
  datatype NameContext = Load | Store | Del

  /** The closed set of node kinds the analyses distinguish.
      For `Assign(targetCount)` the first `targetCount` children are the assignment
      targets and the rest is the assigned value (Python lists `targets` before `value`).
      For `Expr` the first child is the wrapped value. */
  datatype Kind =
    | FunctionDef(name: string)
    | ClassDef
    | If
    | While
    | For
    | Assign(targetCount: nat)
    | Name(id: string, ctx: NameContext)
    | Expr
    | StrLit(s: string)
    | Other

  /** A node: its kind, its source line and its children in field order. */
  datatype Node = Node(kind: Kind, line: nat, children: seq<Node>)

  /** Number of nodes in a tree and in a forest. */
  function Size(t: Node): nat
    decreases t
  {
    1 + ForestSize(t.children)
  }

  function ForestSize(ts: seq<Node>): nat
    decreases ts
  {
    if ts == [] then 0 else Size(ts[0]) + ForestSize(ts[1..])
  }

  lemma {:induction false} ForestSizeAppend(a: seq<Node>, b: seq<Node>)
    ensures ForestSize(a + b) == ForestSize(a) + ForestSize(b)
    decreases a
  {
    if a != [] {
      assert (a + b)[0] == a[0] && (a + b)[1..] == a[1..] + b;
      ForestSizeAppend(a[1..], b);
    } else {
      assert a + b == b;
    }
  }

  /** `n` is `t` or a node somewhere below it. */
  predicate Occurs(n: Node, t: Node)
    decreases t
  {
    n == t || exists i :: 0 <= i < |t.children| && Occurs(n, t.children[i])
  }

  predicate OccursIn(n: Node, ts: seq<Node>)
  {
    exists i :: 0 <= i < |ts| && Occurs(n, ts[i])
  }

  /** Number of nodes of `t` (resp. of a forest) that satisfy `p`: the independent,
      structural definition the walks are measured against. */
  function Count(t: Node, p: Node -> bool): nat
    decreases t
  {
    (if p(t) then 1 else 0) + CountForest(t.children, p)
  }

  function CountForest(ts: seq<Node>, p: Node -> bool): nat
    decreases ts
  {
    if ts == [] then 0 else Count(ts[0], p) + CountForest(ts[1..], p)
  }

  lemma {:induction false} CountForestAppend(a: seq<Node>, b: seq<Node>, p: Node -> bool)
    ensures CountForest(a + b, p) == CountForest(a, p) + CountForest(b, p)
    decreases a
  {
    if a != [] {
      assert (a + b)[0] == a[0] && (a + b)[1..] == a[1..] + b;
      CountForestAppend(a[1..], b, p);
    } else {
      assert a + b == b;
    }
  }

  /** Number of elements of a sequence of nodes that satisfy `p` (what a
      `sum(1 for node in ... if ...)` over an enumeration computes). */
  function CountIn(s: seq<Node>, p: Node -> bool): nat
    decreases s
  {
    if s == [] then 0 else (if p(s[0]) then 1 else 0) + CountIn(s[1..], p)
  }

  lemma {:induction false} CountInAppend(a: seq<Node>, b: seq<Node>, p: Node -> bool)
    ensures CountIn(a + b, p) == CountIn(a, p) + CountIn(b, p)
    decreases a
  {
    if a != [] {
      assert (a + b)[0] == a[0] && (a + b)[1..] == a[1..] + b;
      CountInAppend(a[1..], b, p);
    } else {
      assert a + b == b;
    }
  }

  /** `ast.walk`: breadth-first, starting from a queue of nodes; each step pops the
      front node, yields it and appends its children to the back of the queue. */
  function WalkFrom(queue: seq<Node>): seq<Node>
    decreases ForestSize(queue)
  {
    if queue == [] then []
    else
      ForestSizeAppend(queue[1..], queue[0].children);
      assert Size(queue[0]) == 1 + ForestSize(queue[0].children);
      [queue[0]] + WalkFrom(queue[1..] + queue[0].children)
  }

  function Walk(t: Node): seq<Node>
  {
    WalkFrom([t])
  }

  /** The walk yields as many nodes as the queue's trees hold. */
  lemma {:induction false} WalkFromLength(queue: seq<Node>)
    ensures |WalkFrom(queue)| == ForestSize(queue)
    decreases ForestSize(queue)
  {
    if queue != [] {
      ForestSizeAppend(queue[1..], queue[0].children);
      assert Size(queue[0]) == 1 + ForestSize(queue[0].children);
      WalkFromLength(queue[1..] + queue[0].children);
    }
  }

  /** Counting the walk's nodes that satisfy `p` gives the structural count. */
  lemma {:induction false} WalkFromCount(queue: seq<Node>, p: Node -> bool)
    ensures CountIn(WalkFrom(queue), p) == CountForest(queue, p)
    decreases ForestSize(queue)
  {
    if queue != [] {
      var rest := queue[1..] + queue[0].children;
      ForestSizeAppend(queue[1..], queue[0].children);
      assert Size(queue[0]) == 1 + ForestSize(queue[0].children);
      WalkFromCount(rest, p);
      assert ([queue[0]] + WalkFrom(rest))[1..] == WalkFrom(rest);
      CountForestAppend(queue[1..], queue[0].children, p);
    }
  }

  lemma WalkCount(t: Node, p: Node -> bool)
    ensures CountIn(Walk(t), p) == Count(t, p)
  {
    WalkFromCount([t], p);
    assert [t][1..] == [];
  }

  lemma WalkLength(t: Node)
    ensures |Walk(t)| == Size(t)
  {
    WalkFromLength([t]);
    assert [t][1..] == [];
  }

  /** Every node the walk yields lies in the tree it started from. */
  lemma {:induction false} WalkFromOccurs(queue: seq<Node>, k: nat)
    requires k < |WalkFrom(queue)|
    ensures OccursIn(WalkFrom(queue)[k], queue)
    decreases ForestSize(queue)
  {
    var rest := queue[1..] + queue[0].children;
    ForestSizeAppend(queue[1..], queue[0].children);
    assert Size(queue[0]) == 1 + ForestSize(queue[0].children);
    if k == 0 {
      assert Occurs(queue[0], queue[0]);
    } else {
      WalkFromOccurs(rest, k - 1);
      var n := WalkFrom(queue)[k];
      assert n == WalkFrom(rest)[k - 1];
      var i :| 0 <= i < |rest| && Occurs(n, rest[i]);
      if i < |queue| - 1 {
        assert rest[i] == queue[i + 1];
      } else {
        var j := i - (|queue| - 1);
        assert rest[i] == queue[0].children[j];
        assert Occurs(n, queue[0]);
      }
    }
  }

  /** A count is bounded by the number of nodes. */
  lemma {:induction false} CountAtMostSize(t: Node, p: Node -> bool)
    ensures Count(t, p) <= Size(t)
    decreases t, 1
  {
    CountForestAtMostSize(t.children, p);
  }

  lemma {:induction false} CountForestAtMostSize(ts: seq<Node>, p: Node -> bool)
    ensures CountForest(ts, p) <= ForestSize(ts)
    decreases ts, 0
  {
    if ts != [] {
      CountAtMostSize(ts[0], p);
      CountForestAtMostSize(ts[1..], p);
    }
  }

  /** A count is positive exactly when some node of the tree satisfies `p`. */
  lemma {:induction false} CountPositive(t: Node, p: Node -> bool)
    ensures Count(t, p) > 0 <==> exists n :: Occurs(n, t) && p(n)
    decreases t, 1
  {
    CountForestPositive(t.children, p);
    if Count(t, p) > 0 && !p(t) {
      var n :| OccursIn(n, t.children) && p(n);
      assert Occurs(n, t);
    }
    if exists n :: Occurs(n, t) && p(n) {
      var n :| Occurs(n, t) && p(n);
      if n != t {
        assert OccursIn(n, t.children);
      }
    }
  }

  lemma {:induction false} CountForestPositive(ts: seq<Node>, p: Node -> bool)
    ensures CountForest(ts, p) > 0 <==> exists n :: OccursIn(n, ts) && p(n)
    decreases ts, 0
  {
    if ts != [] {
      CountPositive(ts[0], p);
      CountForestPositive(ts[1..], p);
      if CountForest(ts, p) > 0 {
        if Count(ts[0], p) > 0 {
          var n :| Occurs(n, ts[0]) && p(n);
          assert OccursIn(n, ts);
        } else {
          var n :| OccursIn(n, ts[1..]) && p(n);
          var i :| 0 <= i < |ts[1..]| && Occurs(n, ts[1..][i]);
          assert Occurs(n, ts[i + 1]);
        }
      }
      if exists n :: OccursIn(n, ts) && p(n) {
        var n :| OccursIn(n, ts) && p(n);
        var i :| 0 <= i < |ts| && Occurs(n, ts[i]);
        if i > 0 {
          assert Occurs(n, ts[1..][i - 1]);
          assert OccursIn(n, ts[1..]);
        }
      }
    }
  }
}
