/** The static graph checks: choice cycles, initialization cycles and reachability of states. */
module Graphs {
  import opened Wrappers

  type Node = string

  type Graph = map<Node, seq<Node>>

  function Successors(g: Graph, n: Node): seq<Node> {
    if n in g then g[n] else []
  }

  ghost function Nodes(g: Graph): set<Node> {
    g.Keys + set n, i | n in g && 0 <= i < |g[n]| :: g[n][i]
  }

  ghost predicate IsPath(g: Graph, p: seq<Node>) {
    forall i :: 0 <= i < |p| - 1 ==> p[i + 1] in Successors(g, p[i])
  }

  ghost predicate IsCycle(g: Graph, p: seq<Node>) {
    |p| >= 2 && IsPath(g, p) && p[0] == p[|p| - 1]
  }

  ghost predicate Cyclic(g: Graph) {
    exists p :: IsCycle(g, p)
  }

  /** Every node comes after all of its successors. */
  ghost predicate Ranked(g: Graph, order: seq<Node>) {
    forall i :: 0 <= i < |order| ==> forall s :: s in Successors(g, order[i]) ==> s in order[..i]
  }

  lemma RankedMore(g: Graph, order: seq<Node>, n: Node)
    requires Ranked(g, order) && forall s :: s in Successors(g, n) ==> s in order
    ensures Ranked(g, order + [n])
  {
    var more := order + [n];
    forall i | 0 <= i < |more| ensures forall s :: s in Successors(g, more[i]) ==> s in more[..i] {
      if i < |order| {
        assert more[..i] == order[..i];
      } else {
        assert more[..i] == order;
      }
    }
  }

  /** Along a path that stays within an order, positions decrease. */
  lemma {:induction false} PathDescends(g: Graph, order: seq<Node>, p: seq<Node>, i: nat)
    requires Ranked(g, order) && IsPath(g, p) && p != [] && i < |order| && p[0] == order[i]
    ensures exists j :: 0 <= j <= i && order[j] == p[|p| - 1] && (|p| > 1 ==> j < i)
    decreases p
  {
    if |p| > 1 {
      assert p[1] in Successors(g, p[0]);
      assert p[1] in order[..i];
      var j :| 0 <= j < i && order[j] == p[1];
      var rest := p[1..];
      assert forall k :: 0 <= k < |rest| ==> rest[k] == p[k + 1];
      PathDescends(g, order, rest, j);
    }
  }

  /** An order that holds every node with successors rules out cycles. */
  lemma {:induction false} RankedIsAcyclic(g: Graph, order: seq<Node>, p: seq<Node>, i: nat)
    requires Ranked(g, order) && IsPath(g, p) && i < |order|
    ensures |p| >= 2 && p[0] == p[|p| - 1] ==> p[0] != order[i]
    decreases i
  {
    if |p| >= 2 && p[0] == p[|p| - 1] && p[0] == order[i] {
      PathDescends(g, order, p, i);
      var j :| 0 <= j < i && order[j] == p[0];
      RankedIsAcyclic(g, order, p, j);
    }
  }

  lemma OrderExcludesCycles(g: Graph, order: seq<Node>)
    requires Ranked(g, order) && forall n :: n in g ==> n in order
    ensures !Cyclic(g)
  {
    if Cyclic(g) {
      var p :| IsCycle(g, p);
      assert IsCycle(g, p);
      assert p[1] in Successors(g, p[0]);
      var i :| 0 <= i < |order| && order[i] == p[0];
      RankedIsAcyclic(g, order, p, i);
    }
  }

  /** Meeting a node of the stack again closes a cycle. */
  lemma StackCycle(g: Graph, stack: seq<Node>, n: Node)
    requires IsPath(g, stack) && stack != [] && n in stack && n in Successors(g, stack[|stack| - 1])
    ensures Cyclic(g)
  {
    var i :| 0 <= i < |stack| && stack[i] == n;
    var p := stack[i..] + [n];
    forall k | 0 <= k < |p| - 1 ensures p[k + 1] in Successors(g, p[k]) {
      assert p[k] == stack[i + k];
      if k < |p| - 2 {
        assert p[k + 1] == stack[i + k + 1];
      }
    }
    assert IsCycle(g, p);
  }

  lemma PathMore(g: Graph, stack: seq<Node>, n: Node)
    requires IsPath(g, stack) && (stack != [] ==> n in Successors(g, stack[|stack| - 1]))
    ensures IsPath(g, stack + [n])
  {
  }

  lemma SuccessorIsNode(g: Graph, n: Node, s: Node)
    requires s in Successors(g, n)
    ensures s in Nodes(g)
  {
    var i :| 0 <= i < |g[n]| && g[n][i] == s;
    assert g[n][i] in Nodes(g);
  }

  lemma Shrinks(all: set<Node>, active: set<Node>, n: Node)
    requires n in all && n !in active
    ensures |all - (active + {n})| < |all - active|
  {
    assert all - active == (all - (active + {n})) + {n};
  }

  // ------------------------------------------------------------------------------------------
  // Initialization cycles
  // ------------------------------------------------------------------------------------------

  /** Depth-first search that marks nodes active on the way down and done on the way up. */
  class InitializationSearch {
    var active: set<Node>
    var done: set<Node>
    ghost var stack: seq<Node>
    ghost var order: seq<Node>

    ghost predicate Valid(g: Graph)
      reads this
    {
      && active <= Nodes(g)
      && (forall n :: n in active <==> n in stack)
      && (forall n :: n in done <==> n in order)
      && IsPath(g, stack)
      && Ranked(g, order)
    }

    constructor (ghost g: Graph)
      ensures Valid(g) && stack == [] && order == [] && done == {} && active == {}
    {
      active, done, stack, order := {}, {}, [], [];
    }

    method Push(g: Graph, node: Node)
      requires Valid(g) && node in Nodes(g) && node !in active && (stack != [] ==> node in Successors(g, stack[|stack| - 1]))
      modifies this
      ensures Valid(g) && stack == old(stack) + [node] && active == old(active) + {node} && done == old(done) && order == old(order)
    {
      PathMore(g, stack, node);
      active := active + {node};
      stack := stack + [node];
    }

    method Pop(g: Graph, node: Node, ghost path: seq<Node>)
      requires Valid(g) && stack == path + [node] && node !in path && forall s :: s in Successors(g, node) ==> s in done
      modifies this
      ensures Valid(g) && stack == path && active == old(active) - {node} && done == old(done) + {node}
    {
      RankedMore(g, order, node);
      assert IsPath(g, path) by {
        assert forall i :: 0 <= i < |path| ==> path[i] == stack[i];
      }
      active := active - {node};
      done := done + {node};
      stack := path;
      order := order + [node];
    }

    /** A cycle below `node`, or `node` is done with everything below it. */
    method Cycle(g: Graph, node: Node) returns (found: bool)
      requires Valid(g) && node in Nodes(g) && (stack != [] ==> node in Successors(g, stack[|stack| - 1]))
      modifies this
      ensures found ==> Cyclic(g)
      ensures !found ==> Valid(g) && stack == old(stack) && active == old(active) && old(done) <= done && node in done
      decreases |Nodes(g) - active|, 1
    {
      if node in active {
        StackCycle(g, stack, node);
        return true;
      }
      if node in done {
        return false;
      }
      Shrinks(Nodes(g), active, node);
      ghost var path := stack;
      Push(g, node);
      found := Below(g, node, path);
      if !found {
        Pop(g, node, path);
      }
    }

    /** Searches below the dependencies of the node on top of the stack. */
    method Below(g: Graph, node: Node, ghost path: seq<Node>) returns (found: bool)
      requires Valid(g) && stack == path + [node]
      modifies this
      ensures found ==> Cyclic(g)
      ensures !found ==> Valid(g) && stack == old(stack) && active == old(active) && old(done) <= done
      ensures !found ==> forall s :: s in Successors(g, node) ==> s in done
      decreases |Nodes(g) - active|, 2
    {
      hide Valid, Cyclic, Nodes, Successors;
      var dependencies := Successors(g, node);
      for i := 0 to |dependencies|
        invariant Valid(g) && stack == old(stack) && active == old(active) && old(done) <= done
        invariant forall j :: 0 <= j < i ==> dependencies[j] in done
      {
        SuccessorIsNode(g, node, dependencies[i]);
        var below := Cycle(g, dependencies[i]);
        if below {
          return true;
        }
      }
      return false;
    }
  }

  /** The check accepts exactly the acyclic graphs, and yields an order that decreases along every edge. */
  method InitializationCycles(g: Graph, machines: seq<Node>) returns (cyclic: bool, ghost order: seq<Node>)
    requires forall n :: n in g <==> n in machines
    ensures cyclic <==> Cyclic(g)
    ensures !cyclic ==> Ranked(g, order) && forall n :: n in g ==> n in order
  {
    var search := new InitializationSearch(g);
    for i := 0 to |machines|
      invariant fresh(search) && search.Valid(g) && search.stack == []
      invariant forall j :: 0 <= j < i ==> machines[j] in search.done
    {
      var found := search.Cycle(g, machines[i]);
      if found {
        return true, [];
      }
    }
    order := search.order;
    OrderExcludesCycles(g, order);
    return false, order;
  }

  // ------------------------------------------------------------------------------------------
  // Choice cycles
  // ------------------------------------------------------------------------------------------

  /** A state of a machine; only choice states have branches. */
  datatype State = State(
    initial: Option<Node>, targets: seq<Node>, choice: bool, branches: seq<Node>, parent: Option<Node>)

  type Machine = map<Node, State>

  /** The branch targets that are choice states themselves. */
  function ChoiceTargets(m: Machine, branches: seq<Node>): (r: seq<Node>)
    ensures forall n :: n in r <==> n in branches && n in m && m[n].choice
  {
    if branches == [] then []
    else
      var rest := ChoiceTargets(m, branches[1..]);
      if branches[0] in m && m[branches[0]].choice then [branches[0]] + rest else rest
  }

  /** Choice states and the edges between them. */
  function ChoiceGraph(m: Machine): Graph {
    map n | n in m && m[n].choice :: ChoiceTargets(m, m[n].branches)
  }

  lemma ChoiceEdges(m: Machine, node: Node)
    requires node in ChoiceGraph(m)
    ensures node in m && m[node].choice
    ensures forall t :: t in Successors(ChoiceGraph(m), node) <==> t in m[node].branches && t in m && m[t].choice
    ensures forall t :: t in m && m[t].choice ==> t in ChoiceGraph(m)
  {
  }

  /** Depth-first search that marks nodes visited on the way down. */
  class ChoiceSearch {
    var visiting: set<Node>
    var visited: set<Node>
    ghost var stack: seq<Node>
    ghost var order: seq<Node>

    ghost predicate Valid(g: Graph)
      reads this
    {
      && visiting <= Nodes(g)
      && (forall n :: n in visiting <==> n in stack)
      && (forall n :: n in visited <==> n in stack || n in order)
      && (forall n :: n in order ==> n !in stack)
      && IsPath(g, stack)
      && Ranked(g, order)
    }

    constructor (ghost g: Graph)
      ensures Valid(g) && stack == [] && order == []
    {
      visiting, visited, stack, order := {}, {}, [], [];
    }

    method Push(ghost g: Graph, node: Node)
      requires Valid(g) && node in Nodes(g) && node !in visited && (stack != [] ==> node in Successors(g, stack[|stack| - 1]))
      modifies this
      ensures Valid(g) && stack == old(stack) + [node] && visiting == old(visiting) + {node} && order == old(order)
    {
      PathMore(g, stack, node);
      visiting := visiting + {node};
      visited := visited + {node};
      stack := stack + [node];
    }

    method Pop(ghost g: Graph, node: Node, ghost path: seq<Node>)
      requires Valid(g) && stack == path + [node] && node !in path && forall s :: s in Successors(g, node) ==> s in order
      modifies this
      ensures Valid(g) && stack == path && visiting == old(visiting) - {node} && order == old(order) + [node]
    {
      RankedMore(g, order, node);
      assert IsPath(g, path) by {
        assert forall i :: 0 <= i < |path| ==> path[i] == stack[i];
      }
      visiting := visiting - {node};
      stack := path;
      order := order + [node];
    }

    /** A cycle through choice states below `node`, or everything below it is in order. */
    method Visit(m: Machine, node: Node) returns (found: bool)
      requires Valid(ChoiceGraph(m)) && node in ChoiceGraph(m)
      requires stack != [] ==> node in Successors(ChoiceGraph(m), stack[|stack| - 1])
      modifies this
      ensures found ==> Cyclic(ChoiceGraph(m))
      ensures !found ==> Valid(ChoiceGraph(m)) && stack == old(stack) && visiting == old(visiting)
      ensures !found ==> node in order && forall n :: n in old(order) ==> n in order
      decreases |Nodes(ChoiceGraph(m)) - visiting|, 1
    {
      ghost var g, path := ChoiceGraph(m), stack;
      if node in visiting {
        StackCycle(g, stack, node);
        return true;
      }
      if node in visited {
        return false;
      }
      Shrinks(Nodes(g), visiting, node);
      Push(g, node);
      found := Below(m, node, path);
      if !found {
        Pop(g, node, path);
      }
    }

    method Below(m: Machine, node: Node, ghost path: seq<Node>) returns (found: bool)
      requires Valid(ChoiceGraph(m)) && node in ChoiceGraph(m) && stack == path + [node]
      modifies this
      ensures found ==> Cyclic(ChoiceGraph(m))
      ensures !found ==> Valid(ChoiceGraph(m)) && stack == old(stack) && visiting == old(visiting)
      ensures !found ==> forall n :: n in old(order) ==> n in order
      ensures !found ==> forall s :: s in Successors(ChoiceGraph(m), node) ==> s in order
      decreases |Nodes(ChoiceGraph(m)) - visiting|, 2
    {
      hide ChoiceGraph, Cyclic;
      ghost var g := ChoiceGraph(m);
      ChoiceEdges(m, node);
      var branches := m[node].branches;
      for i := 0 to |branches|
        invariant Valid(g) && stack == old(stack) && visiting == old(visiting)
        invariant forall n :: n in old(order) ==> n in order
        invariant forall j :: 0 <= j < i && branches[j] in m && m[branches[j]].choice ==> branches[j] in order
      {
        var target := branches[i];
        if target in m && m[target].choice {
          assert target in Successors(g, node);
          var below := Visit(m, target);
          if below {
            return true;
          }
        }
      }
      return false;
    }
  }

  /** The choice check accepts exactly the machines whose choice graph is acyclic. */
  method ChoiceCycles(m: Machine, paths: seq<Node>) returns (cyclic: bool, ghost order: seq<Node>)
    requires forall n :: n in m <==> n in paths
    ensures cyclic <==> Cyclic(ChoiceGraph(m))
    ensures !cyclic ==> Ranked(ChoiceGraph(m), order) && forall n :: n in ChoiceGraph(m) ==> n in order
  {
    ghost var g := ChoiceGraph(m);
    var search := new ChoiceSearch(g);
    for i := 0 to |paths|
      invariant fresh(search) && search.Valid(g) && search.stack == []
      invariant forall j :: 0 <= j < i && m[paths[j]].choice ==> paths[j] in search.order
    {
      if m[paths[i]].choice {
        var found := search.Visit(m, paths[i]);
        if found {
          return true, [];
        }
      }
    }
    order := search.order;
    OrderExcludesCycles(g, order);
    return false, order;
  }

  // ------------------------------------------------------------------------------------------
  // Reachability
  // ------------------------------------------------------------------------------------------

  /** What a reachable state makes reachable, besides its ancestors. */
  function Steps(s: State): seq<Node> {
    (if s.initial.Some? then [s.initial.value] else []) + s.targets + s.branches
  }

  /** Every step and every parent is a state, and parents have smaller depth. */
  ghost predicate WellFormed(m: Machine, depth: Node -> nat) {
    forall n :: n in m ==>
      && (forall t :: t in Steps(m[n]) ==> t in m)
      && (m[n].parent.Some? ==> m[n].parent.value in m && depth(m[n].parent.value) < depth(n))
  }

  /** Closed under steps and parents. */
  ghost predicate Closed(m: Machine, s: set<Node>) {
    forall n :: n in s && n in m ==> (forall t :: t in Steps(m[n]) ==> t in s) && (m[n].parent.Some? ==> m[n].parent.value in s)
  }

  /** `n` is a step or the parent of a state, or a chain of these away from the root. */
  ghost predicate Follows(m: Machine, a: Node, b: Node) {
    a in m && (b in Steps(m[a]) || m[a].parent == Some(b))
  }

  ghost predicate ReachedBy(m: Machine, root: Node, n: Node, p: seq<Node>) {
    p != [] && p[0] == root && p[|p| - 1] == n && forall i :: 0 <= i < |p| - 1 ==> Follows(m, p[i], p[i + 1])
  }

  ghost predicate Reachable(m: Machine, root: Node, n: Node) {
    exists p :: ReachedBy(m, root, n, p)
  }

  lemma ReachMore(m: Machine, root: Node, a: Node, b: Node)
    requires Reachable(m, root, a) && Follows(m, a, b)
    ensures Reachable(m, root, b)
  {
    var p :| ReachedBy(m, root, a, p);
    assert ReachedBy(m, root, a, p);
    var q := p + [b];
    forall i | 0 <= i < |q| - 1 ensures Follows(m, q[i], q[i + 1]) {
      if i < |p| - 1 {
        assert q[i] == p[i] && q[i + 1] == p[i + 1];
      }
    }
    assert ReachedBy(m, root, b, q);
  }

  /** A closed set that holds the root holds everything reachable. */
  lemma {:induction false} ClosedHolds(m: Machine, root: Node, s: set<Node>, p: seq<Node>, i: nat)
    requires Closed(m, s) && root in s && p != [] && p[0] == root && i < |p|
    requires forall k :: 0 <= k < |p| - 1 ==> Follows(m, p[k], p[k + 1])
    ensures p[i] in s
  {
    if i > 0 {
      ClosedHolds(m, root, s, p, i - 1);
      assert Follows(m, p[i - 1], p[i - 1 + 1]);
    }
  }

  /** Reached states and the worklist: whatever is reached and not waiting has been expanded. */
  ghost predicate Expanded(m: Machine, reachable: set<Node>, work: seq<Node>) {
    forall n :: n in reachable && n in m && n !in work ==>
      (forall t :: t in Steps(m[n]) ==> t in reachable) && (m[n].parent.Some? ==> m[n].parent.value in reachable)
  }

  /** Adds new nodes to the reached set and to the worklist. */
  method Enlist(m: Machine, root: Node, from: Node, found: seq<Node>, reachable: set<Node>, work: seq<Node>)
    returns (reachable': set<Node>, work': seq<Node>)
    requires from in m && Reachable(m, root, from) && reachable <= m.Keys
    requires forall t :: t in found ==> t in m && Follows(m, from, t)
    requires forall n :: n in reachable ==> Reachable(m, root, n)
    requires forall n :: n in work ==> n in reachable
    ensures reachable <= reachable' <= m.Keys
    ensures forall n :: n in reachable' ==> Reachable(m, root, n)
    ensures forall n :: n in work' <==> n in work || (n in reachable' && n !in reachable)
    ensures forall t :: t in found ==> t in reachable'
    ensures |work'| - |work| == |reachable'| - |reachable|
  {
    reachable', work' := reachable, work;
    for i := 0 to |found|
      invariant reachable <= reachable' <= m.Keys
      invariant forall n :: n in reachable' ==> Reachable(m, root, n)
      invariant forall n :: n in work' <==> n in work || (n in reachable' && n !in reachable)
      invariant forall j :: 0 <= j < i ==> found[j] in reachable'
      invariant |work'| - |work| == |reachable'| - |reachable|
    {
      var t := found[i];
      if t !in reachable' {
        ReachMore(m, root, from, t);
        reachable' := reachable' + {t};
        work' := work' + [t];
      }
    }
  }

  /** The ancestors of a state, nearest first, one by one. */
  method EnlistParents(m: Machine, depth: Node -> nat, root: Node, from: Node, reachable: set<Node>, work: seq<Node>)
    returns (reachable': set<Node>, work': seq<Node>)
    requires WellFormed(m, depth) && from in m && Reachable(m, root, from) && reachable <= m.Keys
    requires forall n :: n in reachable ==> Reachable(m, root, n)
    requires forall n :: n in work ==> n in reachable
    ensures reachable <= reachable' <= m.Keys
    ensures forall n :: n in reachable' ==> Reachable(m, root, n)
    ensures forall n :: n in work' <==> n in work || (n in reachable' && n !in reachable)
    ensures m[from].parent.Some? ==> m[from].parent.value in reachable'
    ensures |work'| - |work| == |reachable'| - |reachable|
  {
    reachable', work' := reachable, work;
    var parent := m[from].parent;
    ghost var child := from;
    while parent.Some?
      invariant child in m && Reachable(m, root, child) && parent == m[child].parent
      invariant reachable <= reachable' <= m.Keys
      invariant forall n :: n in reachable' ==> Reachable(m, root, n)
      invariant forall n :: n in work' <==> n in work || (n in reachable' && n !in reachable)
      invariant child == from || (m[from].parent.Some? && m[from].parent.value in reachable')
      invariant |work'| - |work| == |reachable'| - |reachable|
      decreases if parent.Some? then 1 + depth(parent.value) else 0
    {
      var path := parent.value;
      ReachMore(m, root, child, path);
      if path !in reachable' {
        reachable' := reachable' + {path};
        work' := work' + [path];
      }
      child := path;
      parent := m[path].parent;
    }
  }

  lemma Measure(m: Machine, reachable: set<Node>, reachable': set<Node>)
    requires reachable <= reachable' <= m.Keys
    ensures |m.Keys - reachable'| == |m.Keys - reachable| - (|reachable'| - |reachable|)
  {
    assert m.Keys == (m.Keys - reachable) + reachable && m.Keys == (m.Keys - reachable') + reachable';
  }

  /** Everything reached so far is reachable, and what is not waiting has been expanded. */
  ghost predicate Progress(m: Machine, root: Node, reachable: set<Node>, work: seq<Node>) {
    && root in reachable && reachable <= m.Keys
    && (forall n :: n in work ==> n in reachable)
    && (forall n :: n in reachable ==> Reachable(m, root, n))
    && Expanded(m, reachable, work)
  }

  /** Expands the last waiting state. */
  method Expand(m: Machine, depth: Node -> nat, root: Node, reachable: set<Node>, work: seq<Node>)
    returns (reachable': set<Node>, work': seq<Node>)
    requires WellFormed(m, depth) && Progress(m, root, reachable, work) && work != []
    ensures Progress(m, root, reachable', work')
    ensures |m.Keys - reachable'| + |work'| < |m.Keys - reachable| + |work|
  {
    hide Reachable;
    var path := work[|work| - 1];
    var rest := work[..|work| - 1];
    assert work == rest + [path];
    var more, waiting := Enlist(m, root, path, Steps(m[path]), reachable, rest);
    reachable', work' := EnlistParents(m, depth, root, path, more, waiting);
    Measure(m, reachable, reachable');
    ExpandedNow(m, path, reachable, work, reachable', work');
  }

  lemma ExpandedNow(m: Machine, path: Node, reachable: set<Node>, work: seq<Node>, reachable': set<Node>, work': seq<Node>)
    requires Expanded(m, reachable, work) && work != [] && path == work[|work| - 1] && reachable <= reachable' && path in m
    requires forall n :: n in work[..|work| - 1] ==> n in work'
    requires forall n :: n in reachable' && n !in reachable ==> n in work'
    requires forall t :: t in Steps(m[path]) ==> t in reachable'
    requires m[path].parent.Some? ==> m[path].parent.value in reachable'
    ensures Expanded(m, reachable', work')
  {
    hide Steps;
    forall n | n in reachable' && n in m && n !in work'
      ensures (forall t :: t in Steps(m[n]) ==> t in reachable') && (m[n].parent.Some? ==> m[n].parent.value in reachable')
    {
      assert work == work[..|work| - 1] + [path];
      assert n in reachable && (n == path || n !in work);
    }
  }

  lemma ProgressEnds(m: Machine, root: Node, reachable: set<Node>)
    requires Progress(m, root, reachable, [])
    ensures forall n :: n in reachable <==> Reachable(m, root, n)
    ensures root in reachable && Closed(m, reachable)
    ensures forall s: set<Node> :: root in s && Closed(m, s) ==> reachable <= s
  {
    forall s: set<Node>, n | root in s && Closed(m, s) && Reachable(m, root, n) ensures n in s {
      var p :| ReachedBy(m, root, n, p);
      assert ReachedBy(m, root, n, p);
      ClosedHolds(m, root, s, p, |p| - 1);
    }
  }

  /** The worklist computes exactly the states reachable from the root, the least closed set. */
  method FindReachable(m: Machine, depth: Node -> nat, root: Node) returns (reachable: set<Node>)
    requires root in m && WellFormed(m, depth)
    ensures forall n :: n in reachable <==> Reachable(m, root, n)
    ensures root in reachable && Closed(m, reachable)
    ensures forall s: set<Node> :: root in s && Closed(m, s) ==> reachable <= s
  {
    reachable := {root};
    var work := [root];
    assert ReachedBy(m, root, root, [root]);
    while work != []
      invariant Progress(m, root, reachable, work)
      decreases |m.Keys - reachable| + |work|
    {
      reachable, work := Expand(m, depth, root, reachable, work);
    }
    ProgressEnds(m, root, reachable);
  }
}
