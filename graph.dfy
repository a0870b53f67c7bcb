/**
 * The workflow graph as the engine sees it: nodes in document order and
 * connections in document order, with the two traversals of
 * backend/src/workflow/engine.js — the execution order (a depth-first walk
 * from the start nodes) and the set of nodes downstream of a node.
 */
module Graph {
  import opened JsValue

  /** A workflow node; `name` is "" when the document gives none. */
  datatype Node = Node(id: string, kind: string, name: string, config: Value, continueOnError: bool)
  {
    /** `node.name || node.type` */
    function DisplayName(): string {
      if name != "" then name else kind
    }
  }

  /** A connection between two node ids (they need not name existing nodes). */
  datatype Connection = Connection(source: string, target: string)

  function Ids(nodes: seq<Node>): (ids: seq<string>)
    ensures |ids| == |nodes| && forall i :: 0 <= i < |nodes| ==> ids[i] == nodes[i].id
  {
    seq(|nodes|, i requires 0 <= i < |nodes| => nodes[i].id)
  }

  function Elems(s: seq<string>): set<string> {
    set x | x in s
  }

  predicate NoDup(s: seq<string>) {
    forall i, j :: 0 <= i < j < |s| ==> s[i] != s[j]
  }

  predicate Edge(conns: seq<Connection>, a: string, b: string) {
    Connection(a, b) in conns
  }

  function Targets(conns: seq<Connection>): set<string> {
    set c | c in conns :: c.target
  }

  /** Ids of the nodes without an incoming connection, in node order. */
  function StartIds(nodes: seq<Node>, conns: seq<Connection>): (s: seq<string>)
    ensures forall x :: x in s <==> x in Ids(nodes) && forall c :: c in conns ==> c.target != x
  {
    if nodes == [] then []
    else
      var rest := StartIds(nodes[1..], conns);
      assert Ids(nodes) == [nodes[0].id] + Ids(nodes[1..]);
      if exists c :: c in conns && c.target == nodes[0].id then rest else [nodes[0].id] + rest
  }

  /** `connections.filter(c => c.source === a).map(c => c.target)` */
  function Succs(conns: seq<Connection>, a: string): (r: seq<string>)
    ensures forall b :: b in r <==> Edge(conns, a, b)
  {
    if conns == [] then []
    else
      var rest := Succs(conns[1..], a);
      assert forall c :: c in conns <==> c == conns[0] || c in conns[1..];
      if conns[0].source == a then [conns[0].target] + rest else rest
  }

  /** `connections.filter(c => c.target === b).map(c => c.source)` */
  function Preds(conns: seq<Connection>, b: string): (r: seq<string>)
    ensures forall a :: a in r <==> Edge(conns, a, b)
  {
    if conns == [] then []
    else
      var rest := Preds(conns[1..], b);
      assert forall c :: c in conns <==> c == conns[0] || c in conns[1..];
      if conns[0].target == b then [conns[0].source] + rest else rest
  }

  /** `new Map(nodes.map(n => [n.id, n]))`: a later node with the same id wins. */
  function NodeMap(nodes: seq<Node>): (m: map<string, Node>)
    ensures forall x :: x in m <==> x in Ids(nodes)
    ensures forall x :: x in m ==> m[x].id == x && m[x] in nodes
  {
    if nodes == [] then map[]
    else
      var init := nodes[..|nodes| - 1];
      assert Ids(nodes) == Ids(init) + [nodes[|nodes| - 1].id];
      NodeMap(init)[nodes[|nodes| - 1].id := nodes[|nodes| - 1]]
  }

  /** With unique ids the map sends every id to its own node. */
  lemma {:induction false} NodeMapUnique(nodes: seq<Node>, i: nat)
    requires NoDup(Ids(nodes)) && i < |nodes|
    ensures nodes[i].id in NodeMap(nodes) && NodeMap(nodes)[nodes[i].id] == nodes[i]
  {
    var last := |nodes| - 1;
    if i < last {
      var init := nodes[..last];
      assert Ids(init) == Ids(nodes)[..last];
      NodeMapUnique(init, i);
      assert Ids(nodes)[i] != Ids(nodes)[last];
    }
  }

  // ---------------------------------------------------------------------------
  // Reachability

  ghost predicate IsPath(conns: seq<Connection>, p: seq<string>) {
    |p| >= 2 && forall i :: 0 <= i < |p| - 1 ==> Edge(conns, p[i], p[i + 1])
  }

  /** `b` is reachable from `a` along one or more connections. */
  ghost predicate Reach1(conns: seq<Connection>, a: string, b: string) {
    exists p :: IsPath(conns, p) && p[0] == a && p[|p| - 1] == b
  }

  lemma ReachStep(conns: seq<Connection>, a: string, b: string, c: string)
    requires a == b || Reach1(conns, a, b)
    requires Edge(conns, b, c)
    ensures Reach1(conns, a, c)
  {
    if a == b {
      assert IsPath(conns, [a, c]);
    } else {
      var p :| IsPath(conns, p) && p[0] == a && p[|p| - 1] == b;
      var q := p + [c];
      forall i | 0 <= i < |q| - 1 ensures Edge(conns, q[i], q[i + 1]) {
        if i + 1 < |p| {
          assert q[i] == p[i] && q[i + 1] == p[i + 1];
        }
      }
      assert IsPath(conns, q);
    }
  }

  /** The reached node ends a connection. */
  lemma ReachTarget(conns: seq<Connection>, a: string, b: string)
    requires Reach1(conns, a, b)
    ensures b in Targets(conns)
  {
    var p :| IsPath(conns, p) && p[0] == a && p[|p| - 1] == b;
    assert Edge(conns, p[|p| - 2], p[|p| - 1]);
  }

  /** Every successor of a member of V is in V. */
  ghost predicate Closed(conns: seq<Connection>, V: set<string>) {
    forall y, b :: y in V && Edge(conns, y, b) ==> b in V
  }

  /** A path that starts in a set stays in it while its nodes' successors do. */
  lemma {:induction false} PathStaysIn(conns: seq<Connection>, V: set<string>, p: seq<string>, k: nat)
    requires IsPath(conns, p) && p[0] in V && k < |p|
    requires forall i :: 0 <= i < |p| - 1 && p[i] in V ==> p[i + 1] in V
    ensures p[k] in V
  {
    if k > 0 {
      PathStaysIn(conns, V, p, k - 1);
    }
  }

  lemma ClosedReach(conns: seq<Connection>, V: set<string>, a: string, b: string)
    requires Closed(conns, V) && a in V && Reach1(conns, a, b)
    ensures b in V
  {
    var p :| IsPath(conns, p) && p[0] == a && p[|p| - 1] == b;
    PathStaysIn(conns, V, p, |p| - 1);
  }

  // ---------------------------------------------------------------------------
  // Execution order

  /** Every id the order can mention: node ids and connection targets. */
  function Universe(nodes: seq<Node>, conns: seq<Connection>): set<string> {
    Elems(Ids(nodes)) + Targets(conns)
  }

  /** `v` is a start node or reachable from one. */
  ghost predicate ReachedFrom(conns: seq<Connection>, starts: seq<string>, v: string) {
    v in starts || exists s :: s in starts && Reach1(conns, s, v)
  }

  /** The ids the depth-first part of the order covers. */
  ghost function Reached(nodes: seq<Node>, conns: seq<Connection>): set<string> {
    set v | v in Universe(nodes, conns) && ReachedFrom(conns, StartIds(nodes, conns), v)
  }

  /** Ids of `ids`, in order, that are not in `V`. */
  function Unvisited(ids: seq<string>, V: set<string>): (r: seq<string>)
    ensures forall x :: x in r <==> x in ids && x !in V
  {
    if ids == [] then []
    else (if ids[0] in V then [] else [ids[0]]) + Unvisited(ids[1..], V)
  }

  /** Every element after the first is a start node or has a connection from an earlier element. */
  ghost predicate PreOrder(conns: seq<Connection>, starts: seq<string>, s: seq<string>) {
    forall k :: 0 <= k < |s| ==> s[k] in starts || HasParentIn(conns, s, 0, k)
  }

  lemma {:induction false} PreOrderReached(conns: seq<Connection>, starts: seq<string>, s: seq<string>, k: nat)
    requires PreOrder(conns, starts, s) && k < |s|
    ensures ReachedFrom(conns, starts, s[k])
    decreases k
  {
    if s[k] !in starts {
      var j :| 0 <= j < k && Edge(conns, s[j], s[k]);
      PreOrderReached(conns, starts, s, j);
      if s[j] in starts {
        ReachStep(conns, s[j], s[j], s[k]);
      } else {
        var st :| st in starts && Reach1(conns, st, s[j]);
        ReachStep(conns, st, s[j], s[k]);
      }
    }
  }

  lemma ElemsSnoc(s: seq<string>, x: string)
    ensures Elems(s + [x]) == Elems(s) + {x}
  {
    assert forall y :: y in s + [x] <==> y in s || y == x;
  }

  /** Every element of `s` from index `lo + 1` on has a connection from an earlier one at or after `lo`. */
  ghost predicate ChainFrom(conns: seq<Connection>, s: seq<string>, lo: nat) {
    forall k :: lo < k < |s| ==> HasParentIn(conns, s, lo, k)
  }

  /** Some element of s at an index in [lo, k) connects to s[k]. */
  ghost predicate HasParentIn(conns: seq<Connection>, s: seq<string>, lo: nat, k: nat)
    requires k < |s|
  {
    exists j :: lo <= j < k && Edge(conns, s[j], s[k])
  }

  /** Every successor of a member of D is in V. */
  ghost predicate ClosedOver(conns: seq<Connection>, D: set<string>, V: set<string>) {
    forall y, b :: y in D && Edge(conns, y, b) ==> b in V
  }

  lemma NoDupSnoc(s: seq<string>, x: string)
    requires NoDup(s) && x !in s
    ensures NoDup(s + [x])
  {
  }

  /** Appending a chain that starts at a successor of s[lo] keeps the chain from lo. */
  lemma ChainExtend(conns: seq<Connection>, mid: seq<string>, s: seq<string>, lo: nat)
    requires lo < |mid| <= |s| && s[..|mid|] == mid
    requires ChainFrom(conns, mid, lo) && ChainFrom(conns, s, |mid|)
    requires |s| > |mid| ==> Edge(conns, mid[lo], s[|mid|])
    ensures ChainFrom(conns, s, lo)
  {
    forall k | lo < k < |s|
      ensures HasParentIn(conns, s, lo, k)
    {
      if k < |mid| {
        assert HasParentIn(conns, mid, lo, k);
        var j :| lo <= j < k && Edge(conns, mid[j], mid[k]);
        assert s[j] == s[..|mid|][j] && s[k] == s[..|mid|][k];
        assert Edge(conns, s[j], s[k]);
      } else if k == |mid| {
        assert s[lo] == s[..|mid|][lo] == mid[lo];
        assert lo <= lo < k && Edge(conns, s[lo], s[k]);
      } else {
        assert HasParentIn(conns, s, |mid|, k);
        var j :| |mid| <= j < k && Edge(conns, s[j], s[k]);
        assert lo <= j;
      }
    }
  }

  /** Every successor of `x` ends a connection. */
  lemma SuccsInTargets(conns: seq<Connection>, x: string)
    ensures Elems(Succs(conns, x)) <= Targets(conns)
  {
    forall b | b in Succs(conns, x) ensures b in Targets(conns) {
      assert Connection(x, b) in conns;
    }
  }

  /**
   * The depth-first walk of `visit(x)` as a value: from the ids marked so far
   * and the order so far, the marks and the order after visiting `x`. An id
   * already marked adds nothing; otherwise `x` is marked and appended, then
   * its successors are visited in connection order. `U` holds every id the
   * walk can meet, which bounds it.
   */
  ghost function Dfs(conns: seq<Connection>, U: set<string>, x: string, visited: set<string>, order: seq<string>)
    : (r: (set<string>, seq<string>))
    requires x in U && Targets(conns) <= U && visited <= U
    ensures visited <= r.0 <= U
    decreases U - visited, 0
  {
    if x in visited then (visited, order)
    else
      SuccsInTargets(conns, x);
      DfsAll(conns, U, Succs(conns, x), visited + {x}, order + [x])
  }

  /** `xs.forEach(visit)`: visit each id of `xs` in turn, threading the marks and the order. */
  ghost function DfsAll(conns: seq<Connection>, U: set<string>, xs: seq<string>, visited: set<string>, order: seq<string>)
    : (r: (set<string>, seq<string>))
    requires Elems(xs) <= U && Targets(conns) <= U && visited <= U
    ensures visited <= r.0 <= U
    decreases U - visited, 1, |xs|
  {
    if xs == [] then (visited, order)
    else
      assert xs[0] in Elems(xs);
      var r1 := Dfs(conns, U, xs[0], visited, order);
      DfsAll(conns, U, xs[1..], r1.0, r1.1)
  }

  /**
   * What one `visit(x)` does to the order: it keeps the old order as a
   * prefix and appends only newly marked ids, x first, each later one behind
   * an id that connects to it; every newly marked id has all its successors
   * marked.
   */
  lemma {:induction false} DfsShape(conns: seq<Connection>, U: set<string>, x: string, visited: set<string>, order: seq<string>)
    requires x in U && Targets(conns) <= U && visited <= U
    requires NoDup(order) && Elems(order) == visited
    ensures var r := Dfs(conns, U, x, visited, order);
      x in r.0 && |r.1| >= |order| && r.1[..|order|] == order
      && NoDup(r.1) && Elems(r.1) == r.0
      && (x in visited ==> r.1 == order)
      && (x !in visited ==> |r.1| > |order| && r.1[|order|] == x)
      && ClosedOver(conns, r.0 - visited, r.0)
      && ChainFrom(conns, r.1, |order|)
    decreases U - visited, 0
  {
    if x !in visited {
      NoDupSnoc(order, x);
      ElemsSnoc(order, x);
      var next := Succs(conns, x);
      SuccsInTargets(conns, x);
      var r := DfsAll(conns, U, next, visited + {x}, order + [x]);
      DfsAllShape(conns, U, next, visited + {x}, order + [x], |order|);
      assert r.1[..|order|] == r.1[..|order| + 1][..|order|];
      assert ClosedOver(conns, r.0 - visited, r.0) by {
        forall y, b | y in r.0 - visited && Edge(conns, y, b) ensures b in r.0 {
          if y == x {
            assert b in next;
          } else {
            assert y in r.0 - (visited + {x});
          }
        }
      }
    }
  }

  /** Visiting the successors of `order[lo]` in turn marks them all and keeps the chain from `lo`. */
  lemma {:induction false} DfsAllShape(conns: seq<Connection>, U: set<string>, xs: seq<string>, visited: set<string>, order: seq<string>, lo: nat)
    requires Elems(xs) <= U && Targets(conns) <= U && visited <= U
    requires NoDup(order) && Elems(order) == visited
    requires lo < |order| && ChainFrom(conns, order, lo)
    requires forall y :: y in xs ==> Edge(conns, order[lo], y)
    ensures var r := DfsAll(conns, U, xs, visited, order);
      |r.1| >= |order| && r.1[..|order|] == order
      && NoDup(r.1) && Elems(r.1) == r.0
      && (forall y :: y in xs ==> y in r.0)
      && ClosedOver(conns, r.0 - visited, r.0)
      && ChainFrom(conns, r.1, lo)
    decreases U - visited, 1, |xs|
  {
    if xs != [] {
      assert xs[0] in Elems(xs);
      var r1 := Dfs(conns, U, xs[0], visited, order);
      DfsShape(conns, U, xs[0], visited, order);
      ChainExtend(conns, order, r1.1, lo);
      assert r1.1[lo] == r1.1[..|order|][lo];
      forall y | y in xs[1..] ensures Edge(conns, r1.1[lo], y) {
        assert y in xs;
      }
      assert Elems(xs[1..]) <= Elems(xs);
      var r := DfsAll(conns, U, xs[1..], r1.0, r1.1);
      DfsAllShape(conns, U, xs[1..], r1.0, r1.1, lo);
      assert r.1[..|order|] == r.1[..|r1.1|][..|order|];
      forall y | y in xs ensures y in r.0 {
        if y != xs[0] {
          assert y in xs[1..];
        }
      }
      assert ClosedOver(conns, r.0 - visited, r.0) by {
        forall y, b | y in r.0 - visited && Edge(conns, y, b) ensures b in r.0 {
          if y in r1.0 {
            assert b in r1.0;
          } else {
            assert y in r.0 - r1.0;
          }
        }
      }
    }
  }

  /**
   * Visiting start nodes in turn keeps the order a duplicate-free pre-order
   * whose ids are exactly the marks, closed under successors.
   */
  lemma {:induction false} WalkShape(conns: seq<Connection>, U: set<string>, starts: seq<string>, xs: seq<string>,
                                     visited: set<string>, order: seq<string>)
    requires Elems(xs) <= U && Targets(conns) <= U && visited <= U
    requires NoDup(order) && Elems(order) == visited
    requires Closed(conns, visited) && PreOrder(conns, starts, order)
    requires forall y :: y in xs ==> y in starts
    ensures var r := DfsAll(conns, U, xs, visited, order);
      |r.1| >= |order| && r.1[..|order|] == order
      && NoDup(r.1) && Elems(r.1) == r.0
      && (forall y :: y in xs ==> y in r.0)
      && (xs != [] && xs[0] !in visited ==> |r.1| > |order| && r.1[|order|] == xs[0])
      && Closed(conns, r.0) && PreOrder(conns, starts, r.1)
    decreases |xs|
  {
    if xs != [] {
      assert xs[0] in Elems(xs) && xs[0] in starts;
      var r1 := Dfs(conns, U, xs[0], visited, order);
      DfsShape(conns, U, xs[0], visited, order);
      forall k | 0 <= k < |r1.1|
        ensures r1.1[k] in starts || HasParentIn(conns, r1.1, 0, k)
      {
        if k < |order| {
          assert r1.1[k] == order[k];
          if r1.1[k] !in starts {
            var j :| 0 <= j < k && Edge(conns, order[j], order[k]);
            assert r1.1[j] == order[j];
          }
        } else if k > |order| {
          assert HasParentIn(conns, r1.1, |order|, k);
          var j :| |order| <= j < k && Edge(conns, r1.1[j], r1.1[k]);
        }
      }
      assert Closed(conns, r1.0) by {
        forall y, b | y in r1.0 && Edge(conns, y, b) ensures b in r1.0 {
          if y in visited {
            assert b in visited;
          } else {
            assert y in r1.0 - visited;
          }
        }
      }
      assert Elems(xs[1..]) <= Elems(xs);
      forall y | y in xs[1..] ensures y in starts {
        assert y in xs;
      }
      var r := DfsAll(conns, U, xs[1..], r1.0, r1.1);
      WalkShape(conns, U, starts, xs[1..], r1.0, r1.1);
      assert r.1[..|order|] == r.1[..|r1.1|][..|order|];
      if xs[0] !in visited {
        assert r.1[|order|] == r.1[..|r1.1|][|order|];
      }
      forall y | y in xs ensures y in r.0 {
        if y != xs[0] {
          assert y in xs[1..];
        }
      }
    }
  }

  /** `visit(x)`, with its marks and order passed in and returned. */
  method Visit(conns: seq<Connection>, x: string, visited: set<string>, order: seq<string>, ghost U: set<string>)
    returns (visited': set<string>, order': seq<string>)
    requires x in U && Targets(conns) <= U && visited <= U
    ensures (visited', order') == Dfs(conns, U, x, visited, order)
    decreases U - visited
  {
    if x in visited {
      return visited, order;
    }
    visited' := visited + {x};
    order' := order + [x];
    var next := Succs(conns, x);
    SuccsInTargets(conns, x);
    var i := 0;
    while i < |next|
      invariant 0 <= i <= |next|
      invariant visited + {x} <= visited' <= U
      invariant Elems(next[i..]) <= U
      invariant DfsAll(conns, U, next[i..], visited', order') == DfsAll(conns, U, next, visited + {x}, order + [x])
    {
      assert next[i] in Elems(next[i..]);
      assert next[i..][1..] == next[i + 1..];
      visited', order' := Visit(conns, next[i], visited', order', U);
      i := i + 1;
    }
  }

  /** The loop `startNodes.forEach(node => visit(node.id))`, from no marks and an empty order. */
  method WalkFromStarts(conns: seq<Connection>, starts: seq<string>, ghost U: set<string>)
    returns (visited: set<string>, walk: seq<string>)
    requires Elems(starts) <= U && Targets(conns) <= U
    ensures (visited, walk) == DfsAll(conns, U, starts, {}, [])
  {
    visited := {};
    walk := [];
    var i := 0;
    while i < |starts|
      invariant 0 <= i <= |starts|
      invariant visited <= U
      invariant Elems(starts[i..]) <= U
      invariant DfsAll(conns, U, starts[i..], visited, walk) == DfsAll(conns, U, starts, {}, [])
    {
      assert starts[i] in Elems(starts[i..]);
      assert starts[i..][1..] == starts[i + 1..];
      visited, walk := Visit(conns, starts[i], visited, walk, U);
      i := i + 1;
    }
  }

  /** The walk visits exactly the ids reached from the start nodes. */
  lemma WalkCoversReached(nodes: seq<Node>, conns: seq<Connection>, visited: set<string>, walk: seq<string>)
    requires Elems(walk) == visited && visited <= Universe(nodes, conns)
    requires Closed(conns, visited) && Elems(StartIds(nodes, conns)) <= visited
    requires PreOrder(conns, StartIds(nodes, conns), walk)
    ensures visited == Reached(nodes, conns)
  {
    var starts := StartIds(nodes, conns);
    forall v | v in visited ensures v in Reached(nodes, conns) {
      var k :| 0 <= k < |walk| && walk[k] == v;
      PreOrderReached(conns, starts, walk, k);
    }
    forall v | v in Reached(nodes, conns) ensures v in visited {
      if v !in starts {
        var s :| s in starts && Reach1(conns, s, v);
        assert s in Elems(starts);
        ClosedReach(conns, visited, s, v);
      } else {
        assert v in Elems(starts);
      }
    }
  }

  /** The loop `nodes.forEach(node => { if (!visited.has(node.id)) order.push(node.id) })`. */
  method AppendUnvisited(walk: seq<string>, nodes: seq<Node>, visited: set<string>) returns (order: seq<string>)
    ensures order == walk + Unvisited(Ids(nodes), visited)
  {
    order := walk;
    var j := 0;
    while j < |nodes|
      invariant 0 <= j <= |nodes|
      invariant order == walk + Unvisited(Ids(nodes)[..j], visited)
    {
      UnvisitedSnoc(Ids(nodes)[..j], nodes[j].id, visited);
      assert Ids(nodes)[..j + 1] == Ids(nodes)[..j] + [nodes[j].id];
      if nodes[j].id !in visited {
        order := order + [nodes[j].id];
      }
      j := j + 1;
    }
    assert Ids(nodes)[..|nodes|] == Ids(nodes);
  }

  /**
   * What `buildExecutionOrder` returns: the node ids as given when no node
   * is a start node; otherwise a pre-order walk from the first start node
   * over exactly the ids reachable from a start node, followed by the
   * unreached node ids in node order.
   */
  ghost predicate ExecutionOrder(nodes: seq<Node>, conns: seq<Connection>, order: seq<string>) {
    if |StartIds(nodes, conns)| == 0 then order == Ids(nodes)
    else
      var tail := Unvisited(Ids(nodes), Reached(nodes, conns));
      |order| > |tail| && order[|order| - |tail|..] == tail
      && var walk := order[..|order| - |tail|];
      Elems(walk) == Reached(nodes, conns) && NoDup(walk)
      && PreOrder(conns, StartIds(nodes, conns), walk)
      && walk[0] == StartIds(nodes, conns)[0]
  }

  /** The start ids are node ids, so the walk over them stays in the universe. */
  lemma StartsInUniverse(nodes: seq<Node>, conns: seq<Connection>)
    ensures Elems(StartIds(nodes, conns)) <= Universe(nodes, conns)
  {
  }

  /**
   * The order `buildExecutionOrder` computes: the node ids as given when no
   * node is a start node; otherwise the depth-first walk over the start ids
   * in node order, then the ids of the nodes it did not mark, in node order.
   */
  ghost function DepthFirstOrder(nodes: seq<Node>, conns: seq<Connection>): seq<string> {
    var starts := StartIds(nodes, conns);
    if |starts| == 0 then Ids(nodes)
    else
      StartsInUniverse(nodes, conns);
      var r := DfsAll(conns, Universe(nodes, conns), starts, {}, []);
      r.1 + Unvisited(Ids(nodes), r.0)
  }

  /**
   * The depth-first order is a pre-order walk from the first start node over
   * exactly the ids reachable from a start node, then the unreached node ids;
   * it names every node id, only ids of the universe, and no id twice when
   * the node ids are distinct.
   */
  lemma DepthFirstOrderShape(nodes: seq<Node>, conns: seq<Connection>)
    ensures var order := DepthFirstOrder(nodes, conns);
      ExecutionOrder(nodes, conns, order)
      && (forall x :: x in Ids(nodes) ==> x in order)
      && (forall x :: x in order ==> x in Universe(nodes, conns))
      && (NoDup(Ids(nodes)) ==> NoDup(order))
  {
    var starts := StartIds(nodes, conns);
    if |starts| > 0 {
      var U := Universe(nodes, conns);
      StartsInUniverse(nodes, conns);
      var r := DfsAll(conns, U, starts, {}, []);
      WalkShape(conns, U, starts, starts, {}, []);
      var visited, walk := r.0, r.1;
      assert starts[0] in Elems(starts);
      WalkCoversReached(nodes, conns, visited, walk);
      var order := walk + Unvisited(Ids(nodes), visited);
      var tail := Unvisited(Ids(nodes), visited);
      assert order[..|order| - |tail|] == walk;
      assert order[|order| - |tail|..] == tail;
      forall x | x in Ids(nodes) ensures x in order {
        if x !in visited {
          assert x in tail;
        } else {
          assert x in walk;
        }
      }
      forall x | x in order ensures x in U {
        if x !in walk {
          assert x in tail;
        }
      }
      if NoDup(Ids(nodes)) {
        UnvisitedNoDup(Ids(nodes), visited);
        forall a, b | 0 <= a < b < |order| ensures order[a] != order[b] {
          if b >= |walk| && a < |walk| {
            assert order[b] in tail && order[a] in walk;
          } else if a >= |walk| {
            assert order[a] == tail[a - |walk|] && order[b] == tail[b - |walk|];
          }
        }
      }
    }
  }

  /**
   * `buildExecutionOrder(nodes, connections)`: the depth-first order, hence
   * (`DepthFirstOrderShape`) a pre-order walk over exactly the ids reachable
   * from the start nodes followed by the remaining node ids in node order.
   */
  method BuildExecutionOrder(nodes: seq<Node>, conns: seq<Connection>) returns (order: seq<string>)
    ensures order == DepthFirstOrder(nodes, conns)
    ensures ExecutionOrder(nodes, conns, order)
    ensures forall x :: x in Ids(nodes) ==> x in order
    ensures forall x :: x in order ==> x in Universe(nodes, conns)
    ensures NoDup(Ids(nodes)) ==> NoDup(order)
  {
    DepthFirstOrderShape(nodes, conns);
    var starts := StartIds(nodes, conns);
    if |starts| == 0 {
      return Ids(nodes);
    }
    ghost var U := Universe(nodes, conns);
    StartsInUniverse(nodes, conns);
    var visited, walk := WalkFromStarts(conns, starts, U);
    order := AppendUnvisited(walk, nodes, visited);
  }

  lemma {:induction false} UnvisitedSnoc(ids: seq<string>, x: string, V: set<string>)
    ensures Unvisited(ids + [x], V) == Unvisited(ids, V) + (if x in V then [] else [x])
  {
    if ids != [] {
      assert (ids + [x])[1..] == ids[1..] + [x];
      UnvisitedSnoc(ids[1..], x, V);
    }
  }

  lemma {:induction false} UnvisitedNoDup(ids: seq<string>, V: set<string>)
    requires NoDup(ids)
    ensures NoDup(Unvisited(ids, V))
  {
    if ids != [] {
      UnvisitedNoDup(ids[1..], V);
      assert ids[0] !in ids[1..];
    }
  }

  // ---------------------------------------------------------------------------
  // Downstream nodes

  /** The ids reachable from `n` along one or more connections. */
  ghost function Downstream(conns: seq<Connection>, n: string): set<string> {
    set v | v in Targets(conns) && Reach1(conns, n, v)
  }

  /**
   * `findDownstreamNodes(n, connections)`: a stack walk that returns each id
   * reachable from n through at least one connection, once; n itself is in
   * the result exactly when it lies on a cycle.
   */
  method FindDownstreamNodes(conns: seq<Connection>, n: string) returns (result: seq<string>)
    ensures NoDup(result)
    ensures Elems(result) == Downstream(conns, n)
    ensures n in result <==> Reach1(conns, n, n)
  {
    var downstream: set<string> := {};
    result := [];
    var toVisit := [n];
    ghost var processed: set<string> := {};
    ghost var T := Targets(conns);
    while |toVisit| > 0
      invariant NoDup(result) && Elems(result) == downstream
      invariant downstream <= T
      invariant forall v :: v in downstream ==> Reach1(conns, n, v)
      invariant forall v :: v in toVisit ==> v == n || v in downstream
      invariant forall v :: v == n || v in downstream ==> v in processed || v in toVisit
      invariant forall y, b :: y in processed && Edge(conns, y, b) ==> b in downstream
      invariant forall y :: y in processed ==> y == n || y in downstream
      decreases T - downstream, |toVisit|
    {
      var current := toVisit[|toVisit| - 1];
      toVisit := toVisit[..|toVisit| - 1];
      ghost var ds0 := downstream;
      ghost var rest := toVisit;
      var direct := Succs(conns, current);
      var k := 0;
      while k < |direct|
        invariant 0 <= k <= |direct|
        invariant ds0 <= downstream <= T
        invariant downstream == ds0 ==> toVisit == rest
        invariant NoDup(result) && Elems(result) == downstream
        invariant forall v :: v in downstream ==> Reach1(conns, n, v)
        invariant forall v :: v in toVisit ==> v == n || v in downstream
        invariant forall v :: v == n || v in downstream ==> v in processed || v in toVisit || v == current
        invariant forall y, b :: y in processed && Edge(conns, y, b) ==> b in downstream
        invariant forall j :: 0 <= j < k ==> direct[j] in downstream
      {
        var d := direct[k];
        if d !in downstream {
          assert d in direct;
          assert Connection(current, d) in conns;
          ReachStep(conns, n, current, d);
          ElemsSnoc(result, d);
          downstream := downstream + {d};
          result := result + [d];
          toVisit := toVisit + [d];
        }
        k := k + 1;
      }
      processed := processed + {current};
    }
    DownstreamExactly(conns, n, downstream);
    if Reach1(conns, n, n) {
      ReachTarget(conns, n, n);
      assert n in Downstream(conns, n);
    }
    assert n in result <==> n in Elems(result);
  }

  /**
   * A set of targets reachable from n that is closed under the connections
   * leaving n and its own members is exactly the downstream set of n.
   */
  lemma DownstreamExactly(conns: seq<Connection>, n: string, D: set<string>)
    requires D <= Targets(conns)
    requires forall v :: v in D ==> Reach1(conns, n, v)
    requires forall y, b :: (y == n || y in D) && Edge(conns, y, b) ==> b in D
    ensures D == Downstream(conns, n)
  {
    forall v | v in Downstream(conns, n) ensures v in D {
      var p :| IsPath(conns, p) && p[0] == n && p[|p| - 1] == v;
      var V := D + {n};
      forall i | 0 <= i < |p| - 1 && p[i] in V ensures p[i + 1] in V {
        assert Edge(conns, p[i], p[i + 1]);
      }
      PathStaysIn(conns, V, p, |p| - 2);
      assert Edge(conns, p[|p| - 2], v);
    }
  }
}
