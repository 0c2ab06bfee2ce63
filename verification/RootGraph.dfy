/** Acyclicity of the proof-root graph by three-colour depth-first search. */
module RootGraph {

  datatype Root = Root(id: string, dependencies: seq<string>)

  type Graph = seq<seq<nat>>

  // ---- edges ----

  /** What follows the last dot. */
  function LastComponent(name: string): (r: string)
    ensures '.' !in r && |r| <= |name| && name[|name| - |r|..] == r
    ensures |r| < |name| ==> name[|name| - |r| - 1] == '.'
  {
    if name == "" then ""
    else
      var n := |name| - 1;
      if name[n] == '.' then "" else LastComponent(name[..n]) + [name[n]]
  }

  predicate Matches(dependency: string, id: string) {
    dependency == id || LastComponent(dependency) == id
  }

  /** Indices of the roots a dependency names, in order. */
  function Named(dependency: string, roots: seq<Root>): (r: seq<nat>)
    ensures forall i :: i in r <==> 0 <= i < |roots| && Matches(dependency, roots[i].id)
  {
    if roots == [] then []
    else
      var n := |roots| - 1;
      var rest := Named(dependency, roots[..n]);
      if Matches(dependency, roots[n].id) then rest + [n] else rest
  }

  function Successors(dependencies: seq<string>, roots: seq<Root>): (r: seq<nat>)
    ensures forall i :: i in r <==>
              0 <= i < |roots| && exists k :: 0 <= k < |dependencies| && Matches(dependencies[k], roots[i].id)
  {
    if dependencies == [] then []
    else
      var rest := Successors(dependencies[1..], roots);
      assert forall k :: 1 <= k < |dependencies| ==> dependencies[k] == dependencies[1..][k - 1];
      Named(dependencies[0], roots) + rest
  }

  function Adjacency(roots: seq<Root>): (g: Graph)
    ensures |g| == |roots|
    ensures forall u :: 0 <= u < |roots| ==> g[u] == Successors(roots[u].dependencies, roots)
  {
    seq(|roots|, i requires 0 <= i < |roots| => Successors(roots[i].dependencies, roots))
  }

  lemma AdjacencyValid(roots: seq<Root>)
    ensures ValidGraph(Adjacency(roots))
  {
    var g := Adjacency(roots);
    forall u, k | 0 <= u < |g| && 0 <= k < |g[u]|
      ensures g[u][k] < |g|
    {
      assert g[u][k] in Successors(roots[u].dependencies, roots);
    }
  }

  predicate ValidGraph(g: Graph) {
    forall u, k :: 0 <= u < |g| && 0 <= k < |g[u]| ==> g[u][k] < |g|
  }

  // ---- walks and cycles ----

  predicate Edge(g: Graph, u: nat, v: nat) {
    u < |g| && v < |g| && v in g[u]
  }

  predicate Linked(g: Graph, p: seq<nat>) {
    && (forall i :: 0 <= i < |p| ==> p[i] < |g|)
    && (forall i :: 0 <= i < |p| - 1 ==> Edge(g, p[i], p[i + 1]))
  }

  predicate Cycle(g: Graph, p: seq<nat>) {
    |p| >= 2 && Linked(g, p) && p[0] == p[|p| - 1]
  }

  ghost predicate Acyclic(g: Graph) {
    forall p :: !Cycle(g, p)
  }

  // ---- what the colours mean ----

  datatype Colour = White | Grey | Black

  predicate Distinct(p: seq<nat>) {
    forall i, k :: 0 <= i < k < |p| ==> p[i] != p[k]
  }

  /** Finished nodes in finishing order: every successor finished earlier. */
  predicate Ordered(g: Graph, order: seq<nat>) {
    && Distinct(order)
    && (forall i :: 0 <= i < |order| ==> order[i] < |g|)
    && (forall i, v :: 0 <= i < |order| && v in g[order[i]] ==> v in order[..i])
  }

  /** Grey nodes are the recursion path, black ones the finished order. */
  ghost predicate Coloured(g: Graph, states: seq<Colour>, path: seq<nat>, order: seq<nat>) {
    && ValidGraph(g) && |states| == |g|
    && Linked(g, path) && Ordered(g, order)
    && (forall u :: 0 <= u < |g| ==> (states[u].Grey? <==> u in path) && (states[u].Black? <==> u in order))
  }

  function Whites(states: seq<Colour>): set<nat> {
    set u | 0 <= u < |states| && states[u].White?
  }

  lemma LinkedSlice(g: Graph, p: seq<nat>, lo: nat, hi: nat)
    requires Linked(g, p) && lo <= hi <= |p|
    ensures Linked(g, p[lo..hi])
  {
    var q := p[lo..hi];
    forall i | 0 <= i < |q| - 1
      ensures Edge(g, q[i], q[i + 1])
    {
      assert q[i] == p[lo + i] && q[i + 1] == p[lo + i + 1];
      assert Edge(g, p[lo + i], p[(lo + i) + 1]);
    }
  }

  /** Along a walk, finishing positions only go down. */
  lemma {:induction false} Descend(g: Graph, order: seq<nat>, p: seq<nat>, i: nat) returns (j: nat)
    requires Ordered(g, order) && Linked(g, p) && p != [] && i < |order| && order[i] == p[0]
    ensures j < |order| && order[j] == p[|p| - 1]
    ensures j <= i && (|p| > 1 ==> j < i)
    decreases |p|
  {
    j := i;
    if |p| > 1 {
      assert Edge(g, p[0], p[0 + 1]);
      assert p[1] in order[..i];
      var k :| 0 <= k < i && order[k] == p[1];
      LinkedSlice(g, p, 1, |p|);
      j := Descend(g, order, p[1..], k);
    }
  }

  /** A cycle can start nowhere among the finished nodes. */
  lemma FinishedOffCycles(g: Graph, order: seq<nat>, p: seq<nat>)
    requires Ordered(g, order) && Cycle(g, p)
    ensures p[0] !in order
  {
    if p[0] in order {
      var i :| 0 <= i < |order| && order[i] == p[0];
      var j := Descend(g, order, p, i);
      assert false;
    }
  }

  /** An edge from the end of the path back onto it closes a cycle. */
  lemma BackEdge(g: Graph, path: seq<nat>, node: nat) returns (cycle: seq<nat>)
    requires Linked(g, path) && path != [] && Edge(g, path[|path| - 1], node) && node in path
    ensures Cycle(g, cycle)
  {
    var i :| 0 <= i < |path| && path[i] == node;
    cycle := path[i..] + [node];
    forall k | 0 <= k < |cycle| - 1
      ensures Edge(g, cycle[k], cycle[k + 1])
    {
      if k + 1 < |path| - i {
        assert Edge(g, path[i + k], path[i + k + 1]);
      }
    }
  }

  // ---- the search ----

  lemma Enter(g: Graph, states: seq<Colour>, path: seq<nat>, order: seq<nat>, node: nat)
    requires Coloured(g, states, path, order) && node < |g| && states[node].White?
    requires path != [] ==> Edge(g, path[|path| - 1], node)
    ensures Coloured(g, states[node := Grey], path + [node], order)
    ensures Whites(states[node := Grey]) < Whites(states)
  {
    var longer := path + [node];
    forall k | 0 <= k < |longer| - 1
      ensures Edge(g, longer[k], longer[k + 1])
    {
      if k + 1 < |path| {
        assert Edge(g, path[k], path[k + 1]);
      }
    }
    assert node in Whites(states) && node !in Whites(states[node := Grey]);
  }

  lemma Leave(g: Graph, states: seq<Colour>, path: seq<nat>, order: seq<nat>, node: nat)
    requires node < |g| && Coloured(g, states, path + [node], order) && node !in path && node !in order
    requires forall k :: 0 <= k < |g[node]| ==> g[node][k] in order
    ensures Coloured(g, states[node := Black], path, order + [node])
  {
    var longer := path + [node];
    LinkedSlice(g, longer, 0, |path|);
    assert longer[0..|path|] == path;
    var grown := order + [node];
    assert Ordered(g, grown) by {
      forall i, v | 0 <= i < |grown| && v in g[grown[i]]
        ensures v in grown[..i]
      {
        assert grown[..i] == order[..i];
        if i == |order| {
          assert order[..i] == order;
        }
      }
    }
  }

  /** True leaves the node finished and the path as it was; false exhibits a cycle. */
  method IsAcyclicFrom(g: Graph, node: nat, states: array<Colour>, ghost path: seq<nat>, ghost order: seq<nat>)
    returns (ok: bool, ghost order': seq<nat>, ghost cycle: seq<nat>)
    requires node < |g| && states.Length == |g| && Coloured(g, states[..], path, order)
    requires path != [] ==> Edge(g, path[|path| - 1], node)
    modifies states
    ensures ok ==> Coloured(g, states[..], path, order') && order <= order' && node in order'
    ensures ok ==> Whites(states[..]) <= Whites(old(states[..]))
    ensures !ok ==> Cycle(g, cycle)
    decreases Whites(states[..])
  {
    order', cycle := order, [];
    if states[node].Grey? {
      cycle := BackEdge(g, path, node);
      return false, order', cycle;
    }
    if states[node].Black? {
      return true, order', cycle;
    }
    Enter(g, states[..], path, order, node);
    states[node] := Grey;
    assert states[..] == old(states[..])[node := Grey];
    ghost var deeper := path + [node];
    var k := 0;
    while k < |g[node]|
      invariant k <= |g[node]|
      invariant Coloured(g, states[..], deeper, order') && order <= order'
      invariant Whites(states[..]) < Whites(old(states[..]))
      invariant forall i :: 0 <= i < k ==> g[node][i] in order'
    {
      ok, order', cycle := IsAcyclicFrom(g, g[node][k], states, deeper, order');
      if !ok {
        return false, order', cycle;
      }
      k := k + 1;
    }
    assert deeper[|path|] == node && states[node].Grey?;
    Leave(g, states[..], path, order', node);
    ghost var before := states[..];
    states[node] := Black;
    assert states[..] == before[node := Black];
    order' := order' + [node];
    ok := true;
  }

  /** The report is acyclic exactly when no chain of dependencies returns to its start. */
  method Check(roots: seq<Root>) returns (acyclic: bool)
    ensures acyclic <==> Acyclic(Adjacency(roots))
  {
    var g := Adjacency(roots);
    AdjacencyValid(roots);
    var states := new Colour[|roots|](i => White);
    ghost var order: seq<nat> := [];
    for node := 0 to |roots|
      invariant Coloured(g, states[..], [], order)
      invariant forall u :: 0 <= u < node ==> u in order
    {
      ghost var cycle;
      acyclic, order, cycle := IsAcyclicFrom(g, node, states, [], order);
      if !acyclic {
        assert Cycle(g, cycle);
        return;
      }
    }
    forall p
      ensures !Cycle(g, p)
    {
      if Cycle(g, p) {
        FinishedOffCycles(g, order, p);
      }
    }
    acyclic := true;
  }

  /** Cycles of the root graph, in terms of the roots: each names the next among its
      dependencies, fully or by last component. */
  lemma AdjacencyMeaning(roots: seq<Root>, u: nat, v: nat)
    requires u < |roots| && v < |roots|
    ensures Edge(Adjacency(roots), u, v) <==>
      exists k :: 0 <= k < |roots[u].dependencies|
        && (roots[u].dependencies[k] == roots[v].id || LastComponent(roots[u].dependencies[k]) == roots[v].id)
  {
    var deps := roots[u].dependencies;
    assert Adjacency(roots)[u] == Successors(deps, roots);
    assert forall k :: 0 <= k < |deps| ==>
      (Matches(deps[k], roots[v].id) <==> deps[k] == roots[v].id || LastComponent(deps[k]) == roots[v].id);
  }

  /** The component is the dot-free suffix that a dot, or nothing, precedes. */
  lemma LastComponentUnique(name: string, r: string)
    requires '.' !in r && |r| <= |name| && name[|name| - |r|..] == r
    requires |r| < |name| ==> name[|name| - |r| - 1] == '.'
    ensures LastComponent(name) == r
  {
    var s := LastComponent(name);
    if |s| < |r| {
      DotInside(name, s, r);
    } else if |r| < |s| {
      DotInside(name, r, s);
    }
  }

  /** Of two suffixes, the longer one holds the dot before the shorter one. */
  lemma DotInside(name: string, short: string, long: string)
    requires |short| < |long| <= |name| && name[|name| - |long|..] == long
    requires name[|name| - |short| - 1] == '.'
    ensures '.' in long
  {
    assert long[|long| - |short| - 1] == '.';
  }
}
