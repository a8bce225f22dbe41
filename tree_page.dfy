/** The forest-to-graph walker of src/pages/TreePage.tsx (`toReactFlow`): nodes are
    placed by depth (x) and by a counter bumped once per `walk` call (y), edges join a
    parent to each child, and a final check reports edges whose ends are missing. */
module TreePage {
  import opened Common

  /** QueryNodeData: the fields the walker reads. */
  datatype DataNode = DataNode(id: string, children: seq<DataNode>)

  datatype RFNode = RFNode(id: string, x: real, y: real, data: DataNode)

  datatype RFEdge = RFEdge(id: string, source: string, sourceHandle: string, target: string, targetHandle: string)

  /** The variables the `walk` closure captures: rfNodes, rfEdges and the counter i. */
  datatype WalkState = WalkState(nodes: seq<RFNode>, edges: seq<RFEdge>, counter: nat)

  const COLUMN: real := 320.0
  const ROW: real := 180.0

  /** `if (parentId)`: absent and empty parent ids are both falsy. */
  predicate IsParent(parent: Option<string>) {
    parent.Some? && parent.value != ""
  }

  function LinkEdge(pid: string, cid: string): RFEdge {
    RFEdge(pid + "-" + cid, pid, "out", cid, "in")
  }

  // ---------------------------------------------------------------------------
  // The walk as a specification

  /** One node of the list handed to a walk call: push it, push its incoming edge when
      the parent id is truthy, then walk each child in its own call. */
  function Visit(m: DataNode, depth: nat, parent: Option<string>, y: real, st: WalkState): WalkState
    decreases m, 1
  {
    var nodes := st.nodes + [RFNode(m.id, depth as real * COLUMN, y, m)];
    var edges := if IsParent(parent) then st.edges + [LinkEdge(parent.value, m.id)] else st.edges;
    WalkChildren(m.children, |m.children|, depth + 1, m.id, WalkState(nodes, edges, st.counter))
  }

  /** `n.children?.forEach(child => walk([child], depth + 1, n.id))` over the first `k`
      children: each call takes the next counter value for its y. */
  function WalkChildren(cs: seq<DataNode>, k: nat, depth: nat, pid: string, st: WalkState): WalkState
    requires k <= |cs|
    decreases cs, 0, k
  {
    if k == 0 then st
    else
      var s := WalkChildren(cs, k - 1, depth, pid, st);
      Visit(cs[k - 1], depth, Some(pid), s.counter as real * ROW, s.(counter := s.counter + 1))
  }

  /** The forEach over the first `k` nodes of one walk call, all at the same y. */
  function VisitAll(ns: seq<DataNode>, k: nat, depth: nat, parent: Option<string>, y: real, st: WalkState): WalkState
    requires k <= |ns|
    decreases k
  {
    if k == 0 then st else Visit(ns[k - 1], depth, parent, y, VisitAll(ns, k - 1, depth, parent, y, st))
  }

  /** One call `walk(ns, depth, parentId)`. */
  function Walk(ns: seq<DataNode>, depth: nat, parent: Option<string>, st: WalkState): WalkState {
    VisitAll(ns, |ns|, depth, parent, st.counter as real * ROW, st.(counter := st.counter + 1))
  }

  // ---------------------------------------------------------------------------
  // Independent definitions: sizes, preorder, parent-child links

  function Size(m: DataNode): nat
    decreases m, 1
  {
    1 + SizeOf(m.children, |m.children|)
  }

  function SizeOf(cs: seq<DataNode>, k: nat): (r: nat)
    requires k <= |cs|
    ensures r >= k
    decreases cs, 0, k
  {
    if k == 0 then 0 else SizeOf(cs, k - 1) + Size(cs[k - 1])
  }

  /** The nodes of a tree with their depth, each parent before its children. */
  function PreOrder(m: DataNode, depth: nat): seq<(DataNode, nat)>
    decreases m, 1
  {
    [(m, depth)] + PreOrderOf(m.children, |m.children|, depth + 1)
  }

  function PreOrderOf(cs: seq<DataNode>, k: nat, depth: nat): seq<(DataNode, nat)>
    requires k <= |cs|
    decreases cs, 0, k
  {
    if k == 0 then [] else PreOrderOf(cs, k - 1, depth) + PreOrder(cs[k - 1], depth)
  }

  /** The (parent id, child id) pairs below `m`, in visiting order. */
  function Links(m: DataNode): seq<(string, string)>
    decreases m, 1
  {
    LinksOf(m.children, |m.children|, m.id)
  }

  /** The pairs for the first `k` children of a parent with id `pid`: a child is linked
      to its parent only when the parent id is non-empty. */
  function LinksOf(cs: seq<DataNode>, k: nat, pid: string): seq<(string, string)>
    requires k <= |cs|
    decreases cs, 0, k
  {
    if k == 0 then []
    else LinksOf(cs, k - 1, pid) + (if pid != "" then [(pid, cs[k - 1].id)] else []) + Links(cs[k - 1])
  }

  /** Every node of the tree has a non-empty id. */
  predicate IdsNonEmpty(m: DataNode)
    decreases m, 1
  {
    m.id != "" && IdsNonEmptyOf(m.children, |m.children|)
  }

  predicate IdsNonEmptyOf(cs: seq<DataNode>, k: nat)
    requires k <= |cs|
    decreases cs, 0, k
  {
    k == 0 || (IdsNonEmptyOf(cs, k - 1) && IdsNonEmpty(cs[k - 1]))
  }

  /** Pushed nodes line up with a preorder: same data, and x is depth times 320. */
  predicate MatchesPreOrder(ns: seq<RFNode>, po: seq<(DataNode, nat)>) {
    && |ns| == |po|
    && forall k :: 0 <= k < |ns| ==> ns[k].data == po[k].0 && ns[k].id == po[k].0.id && ns[k].x == po[k].1 as real * COLUMN
  }

  /** Pushed edges are exactly the links, in order, with the `${parent}-${child}` id. */
  predicate MatchesLinks(es: seq<RFEdge>, ls: seq<(string, string)>) {
    && |es| == |ls|
    && forall k :: 0 <= k < |es| ==> es[k] == LinkEdge(ls[k].0, ls[k].1)
  }

  function Ids(po: seq<(DataNode, nat)>): set<string> {
    set k | 0 <= k < |po| :: po[k].0.id
  }

  function NodeIds(ns: seq<RFNode>): set<string> {
    set k | 0 <= k < |ns| :: ns[k].id
  }

  /** The edges the sanity check warns about. */
  function Dangling(es: seq<RFEdge>, ids: set<string>): seq<RFEdge> {
    if es == [] then []
    else
      var e := es[|es| - 1];
      Dangling(es[..|es| - 1], ids) + (if e.source !in ids || e.target !in ids then [e] else [])
  }

  // ---------------------------------------------------------------------------
  // The code

  /** `walk`, with the captured variables passed in and returned. */
  method WalkNodes(ns: seq<DataNode>, depth: nat, parent: Option<string>, st: WalkState) returns (r: WalkState)
    ensures r == Walk(ns, depth, parent, st)
    decreases SizeOf(ns, |ns|)
  {
    var x := depth as real * COLUMN;
    var y := st.counter as real * ROW;
    var start := st.(counter := st.counter + 1);
    var nodes, edges, counter := start.nodes, start.edges, start.counter;
    for k := 0 to |ns|
      invariant WalkState(nodes, edges, counter) == VisitAll(ns, k, depth, parent, y, start)
    {
      var m := ns[k];
      nodes := nodes + [RFNode(m.id, x, y, m)];
      if IsParent(parent) {
        edges := edges + [LinkEdge(parent.value, m.id)];
      }
      ghost var pushed := WalkState(nodes, edges, counter);
      for j := 0 to |m.children|
        invariant WalkState(nodes, edges, counter) == WalkChildren(m.children, j, depth + 1, m.id, pushed)
      {
        SizeBelow(ns, k, j);
        var child := WalkNodes([m.children[j]], depth + 1, Some(m.id), WalkState(nodes, edges, counter));
        nodes, edges, counter := child.nodes, child.edges, child.counter;
      }
    }
    r := WalkState(nodes, edges, counter);
  }

  /** toReactFlow: walks the forest, then collects the edges the sanity check would warn
      about; the check never removes an edge, and for any forest it finds none. */
  method ToReactFlow(forest: seq<DataNode>) returns (nodes: seq<RFNode>, edges: seq<RFEdge>, dangling: seq<RFEdge>)
    ensures var r := Walk(forest, 0, None, WalkState([], [], 0)); nodes == r.nodes && edges == r.edges
    ensures dangling == Dangling(edges, NodeIds(nodes))
    ensures dangling == []
  {
    var r := WalkNodes(forest, 0, None, WalkState([], [], 0));
    nodes, edges := r.nodes, r.edges;
    var nodeIds := set k | 0 <= k < |nodes| :: nodes[k].id;
    dangling := [];
    for k := 0 to |edges|
      invariant dangling == Dangling(edges[..k], nodeIds)
    {
      var e := edges[k];
      if e.source !in nodeIds || e.target !in nodeIds {
        dangling := dangling + [e];
      }
      assert edges[..k + 1][..k] == edges[..k];
    }
    assert edges[..|edges|] == edges;
    ForestHasNoDanglingEdges(forest);
  }

  // ---------------------------------------------------------------------------
  // Properties

  /** A grandchild's forest is smaller than the forest of its walk call. */
  lemma SizeBelow(ns: seq<DataNode>, k: nat, j: nat)
    requires k < |ns| && j < |ns[k].children|
    ensures SizeOf([ns[k].children[j]], 1) < SizeOf(ns, |ns|)
  {
    var m := ns[k];
    assert SizeOf([m.children[j]], 1) == Size(m.children[j]);
    SizeOfElem(m.children, |m.children|, j);
    SizeOfElem(ns, |ns|, k);
  }

  lemma {:induction false} SizeOfElem(cs: seq<DataNode>, k: nat, j: nat)
    requires j < k <= |cs|
    ensures Size(cs[j]) <= SizeOf(cs, k)
    decreases k
  {
    if j < k - 1 {
      SizeOfElem(cs, k - 1, j);
    }
  }

  lemma MatchesPreOrderConcat(a: seq<RFNode>, pa: seq<(DataNode, nat)>, b: seq<RFNode>, pb: seq<(DataNode, nat)>)
    requires MatchesPreOrder(a, pa) && MatchesPreOrder(b, pb)
    ensures MatchesPreOrder(a + b, pa + pb)
  {
    forall k | |a| <= k < |a + b|
      ensures (a + b)[k] == b[k - |a|] && (pa + pb)[k] == pb[k - |a|]
    {
    }
  }

  lemma MatchesLinksConcat(a: seq<RFEdge>, la: seq<(string, string)>, b: seq<RFEdge>, lb: seq<(string, string)>)
    requires MatchesLinks(a, la) && MatchesLinks(b, lb)
    ensures MatchesLinks(a + b, la + lb)
  {
    forall k | |a| <= k < |a + b|
      ensures (a + b)[k] == b[k - |a|] && (la + lb)[k] == lb[k - |a|]
    {
    }
  }

  /** What a walk step appends after `st`, against the independent definitions. */
  predicate Extends(st: WalkState, r: WalkState, po: seq<(DataNode, nat)>, ls: seq<(string, string)>, calls: nat) {
    && |st.nodes| <= |r.nodes| && r.nodes[..|st.nodes|] == st.nodes
    && |st.edges| <= |r.edges| && r.edges[..|st.edges|] == st.edges
    && MatchesPreOrder(r.nodes[|st.nodes|..], po)
    && MatchesLinks(r.edges[|st.edges|..], ls)
    && r.counter == st.counter + calls
  }

  /** Two steps in a row extend by the concatenation. */
  lemma ExtendsTrans(s0: WalkState, s1: WalkState, s2: WalkState,
                     p1: seq<(DataNode, nat)>, l1: seq<(string, string)>, c1: nat,
                     p2: seq<(DataNode, nat)>, l2: seq<(string, string)>, c2: nat)
    requires Extends(s0, s1, p1, l1, c1) && Extends(s1, s2, p2, l2, c2)
    ensures Extends(s0, s2, p1 + p2, l1 + l2, c1 + c2)
  {
    assert s2.nodes[|s0.nodes|..] == s1.nodes[|s0.nodes|..] + s2.nodes[|s1.nodes|..] by {
      assert s2.nodes[..|s1.nodes|] == s1.nodes;
    }
    assert s2.edges[|s0.edges|..] == s1.edges[|s0.edges|..] + s2.edges[|s1.edges|..] by {
      assert s2.edges[..|s1.edges|] == s1.edges;
    }
    MatchesPreOrderConcat(s1.nodes[|s0.nodes|..], p1, s2.nodes[|s1.nodes|..], p2);
    MatchesLinksConcat(s1.edges[|s0.edges|..], l1, s2.edges[|s1.edges|..], l2);
  }

  function ParentLink(parent: Option<string>, id: string): seq<(string, string)> {
    if IsParent(parent) then [(parent.value, id)] else []
  }

  /** Visiting `m` appends its preorder, its incoming link and the links below it, and
      makes one walk call per descendant. */
  lemma {:induction false} VisitExtends(m: DataNode, depth: nat, parent: Option<string>, y: real, st: WalkState)
    ensures Extends(st, Visit(m, depth, parent, y, st), PreOrder(m, depth), ParentLink(parent, m.id) + Links(m), Size(m) - 1)
    decreases m, 1
  {
    var nodes := st.nodes + [RFNode(m.id, depth as real * COLUMN, y, m)];
    var edges := if IsParent(parent) then st.edges + [LinkEdge(parent.value, m.id)] else st.edges;
    var pushed := WalkState(nodes, edges, st.counter);
    assert Extends(st, pushed, [(m, depth)], ParentLink(parent, m.id), 0) by {
      assert nodes[|st.nodes|..] == [RFNode(m.id, depth as real * COLUMN, y, m)];
      assert nodes[..|st.nodes|] == st.nodes;
      assert edges[..|st.edges|] == st.edges;
    }
    WalkChildrenExtends(m.children, |m.children|, depth + 1, m.id, pushed);
    ExtendsTrans(st, pushed, Visit(m, depth, parent, y, st),
                 [(m, depth)], ParentLink(parent, m.id), 0,
                 PreOrderOf(m.children, |m.children|, depth + 1), Links(m), SizeOf(m.children, |m.children|));
  }

  /** One call `walk([c], depth, pid)`: a counter bump, then the visit of `c`. */
  lemma {:induction false} CallExtends(c: DataNode, depth: nat, pid: string, s: WalkState)
    ensures Extends(s, Visit(c, depth, Some(pid), s.counter as real * ROW, s.(counter := s.counter + 1)),
                    PreOrder(c, depth), ParentLink(Some(pid), c.id) + Links(c), Size(c))
    decreases c, 2
  {
    var s1 := s.(counter := s.counter + 1);
    assert Extends(s, s1, [], [], 1) by {
      assert s1.nodes[|s.nodes|..] == [] && s1.edges[|s.edges|..] == [];
    }
    VisitExtends(c, depth, Some(pid), s.counter as real * ROW, s1);
    ExtendsTrans(s, s1, Visit(c, depth, Some(pid), s.counter as real * ROW, s1),
                 [], [], 1, PreOrder(c, depth), ParentLink(Some(pid), c.id) + Links(c), Size(c) - 1);
  }

  lemma {:induction false} WalkChildrenExtends(cs: seq<DataNode>, k: nat, depth: nat, pid: string, st: WalkState)
    requires k <= |cs|
    ensures Extends(st, WalkChildren(cs, k, depth, pid, st), PreOrderOf(cs, k, depth), LinksOf(cs, k, pid), SizeOf(cs, k))
    decreases cs, 0, k
  {
    if k == 0 {
      assert st.nodes[|st.nodes|..] == [] && st.edges[|st.edges|..] == [];
    } else {
      var s := WalkChildren(cs, k - 1, depth, pid, st);
      var c := cs[k - 1];
      WalkChildrenExtends(cs, k - 1, depth, pid, st);
      CallExtends(c, depth, pid, s);
      ExtendsTrans(st, s, WalkChildren(cs, k, depth, pid, st),
                   PreOrderOf(cs, k - 1, depth), LinksOf(cs, k - 1, pid), SizeOf(cs, k - 1),
                   PreOrder(c, depth), ParentLink(Some(pid), c.id) + Links(c), Size(c));
      assert LinksOf(cs, k - 1, pid) + (ParentLink(Some(pid), c.id) + Links(c)) == LinksOf(cs, k, pid);
    }
  }

  lemma {:induction false} VisitAllExtends(ns: seq<DataNode>, k: nat, depth: nat, y: real, st: WalkState)
    requires k <= |ns|
    ensures Extends(st, VisitAll(ns, k, depth, None, y, st), PreOrderOf(ns, k, depth), LinksOf(ns, k, ""), SizeOf(ns, k) - k)
    decreases k
  {
    if k == 0 {
      assert st.nodes[|st.nodes|..] == [] && st.edges[|st.edges|..] == [];
    } else {
      var s := VisitAll(ns, k - 1, depth, None, y, st);
      VisitAllExtends(ns, k - 1, depth, y, st);
      VisitExtends(ns[k - 1], depth, None, y, s);
      ExtendsTrans(st, s, VisitAll(ns, k, depth, None, y, st),
                   PreOrderOf(ns, k - 1, depth), LinksOf(ns, k - 1, ""), SizeOf(ns, k - 1) - (k - 1),
                   PreOrder(ns[k - 1], depth), ParentLink(None, ns[k - 1].id) + Links(ns[k - 1]), Size(ns[k - 1]) - 1);
      assert LinksOf(ns, k - 1, "") + (ParentLink(None, ns[k - 1].id) + Links(ns[k - 1])) == LinksOf(ns, k, "");
    }
  }

  /** A parent-child link joins two nodes of the same tree. */
  lemma {:induction false} LinksWithin(m: DataNode, depth: nat)
    ensures forall l :: l in Links(m) ==> l.0 in Ids(PreOrder(m, depth)) && l.1 in Ids(PreOrder(m, depth))
    ensures m.id in Ids(PreOrder(m, depth))
    decreases m, 1
  {
    var po := PreOrder(m, depth);
    assert po[0].0 == m;
    LinksOfWithin(m.children, |m.children|, depth + 1, m.id);
    IdsConcat([(m, depth)], PreOrderOf(m.children, |m.children|, depth + 1));
  }

  lemma {:induction false} LinksOfWithin(cs: seq<DataNode>, k: nat, depth: nat, pid: string)
    requires k <= |cs|
    ensures forall l :: l in LinksOf(cs, k, pid) ==>
      (l.0 in Ids(PreOrderOf(cs, k, depth)) || (l.0 == pid && pid != "")) && l.1 in Ids(PreOrderOf(cs, k, depth))
    ensures forall j :: 0 <= j < k ==> cs[j].id in Ids(PreOrderOf(cs, k, depth))
    decreases cs, 0, k
  {
    if k > 0 {
      LinksOfWithin(cs, k - 1, depth, pid);
      LinksWithin(cs[k - 1], depth);
      IdsConcat(PreOrderOf(cs, k - 1, depth), PreOrder(cs[k - 1], depth));
    }
  }

  lemma IdsConcat(a: seq<(DataNode, nat)>, b: seq<(DataNode, nat)>)
    ensures Ids(a + b) == Ids(a) + Ids(b)
  {
    forall id | id in Ids(a + b) ensures id in Ids(a) + Ids(b) {
      var k :| 0 <= k < |a + b| && (a + b)[k].0.id == id;
      if k >= |a| {
        assert b[k - |a|].0.id == id;
      }
    }
    forall id | id in Ids(b) ensures id in Ids(a + b) {
      var k :| 0 <= k < |b| && b[k].0.id == id;
      assert (a + b)[|a| + k] == b[k];
    }
    forall id | id in Ids(a) ensures id in Ids(a + b) {
      var k :| 0 <= k < |a| && a[k].0.id == id;
      assert (a + b)[k] == a[k];
    }
  }

  /** With non-empty ids every node below the top level gets exactly one incoming link. */
  lemma {:induction false} LinkCount(m: DataNode)
    requires IdsNonEmpty(m)
    ensures |Links(m)| == Size(m) - 1
    decreases m, 1
  {
    LinkCountOf(m.children, |m.children|, m.id);
  }

  lemma {:induction false} LinkCountOf(cs: seq<DataNode>, k: nat, pid: string)
    requires k <= |cs| && IdsNonEmptyOf(cs, k)
    ensures |LinksOf(cs, k, pid)| == SizeOf(cs, k) - (if pid == "" then k else 0)
    decreases cs, 0, k
  {
    if k > 0 {
      LinkCountOf(cs, k - 1, pid);
      LinkCount(cs[k - 1]);
    }
  }

  /** The whole walk: preorder nodes at x = depth * 320, one edge per parent-child link. */
  lemma ForestWalk(forest: seq<DataNode>)
    ensures var r := Walk(forest, 0, None, WalkState([], [], 0));
      && MatchesPreOrder(r.nodes, PreOrderOf(forest, |forest|, 0))
      && MatchesLinks(r.edges, LinksOf(forest, |forest|, ""))
      && |r.nodes| == SizeOf(forest, |forest|)
      && r.counter == 1 + SizeOf(forest, |forest|) - |forest|
  {
    var st := WalkState([], [], 1);
    VisitAllExtends(forest, |forest|, 0, 0.0, st);
    var r := VisitAll(forest, |forest|, 0, None, 0.0, st);
    assert r.nodes[0..] == r.nodes && r.edges[0..] == r.edges;
    PreOrderOfSize(forest, |forest|, 0);
  }

  lemma {:induction false} PreOrderSize(m: DataNode, depth: nat)
    ensures |PreOrder(m, depth)| == Size(m)
    decreases m, 1
  {
    PreOrderOfSize(m.children, |m.children|, depth + 1);
  }

  lemma {:induction false} PreOrderOfSize(cs: seq<DataNode>, k: nat, depth: nat)
    requires k <= |cs|
    ensures |PreOrderOf(cs, k, depth)| == SizeOf(cs, k)
    decreases cs, 0, k
  {
    if k > 0 {
      PreOrderOfSize(cs, k - 1, depth);
      PreOrderSize(cs[k - 1], depth);
    }
  }

  /** Edge count is node count minus the number of top-level nodes when no id is empty. */
  lemma ForestEdgeCount(forest: seq<DataNode>)
    requires IdsNonEmptyOf(forest, |forest|)
    ensures var r := Walk(forest, 0, None, WalkState([], [], 0)); |r.edges| == |r.nodes| - |forest|
  {
    ForestWalk(forest);
    LinkCountOf(forest, |forest|, "");
  }

  lemma DanglingEmpty(es: seq<RFEdge>, ids: set<string>)
    requires forall e :: e in es ==> e.source in ids && e.target in ids
    ensures Dangling(es, ids) == []
  {
    if es != [] {
      DanglingEmpty(es[..|es| - 1], ids);
    }
  }

  /** No edge of any forest fails the sanity check. */
  lemma ForestHasNoDanglingEdges(forest: seq<DataNode>)
    ensures var r := Walk(forest, 0, None, WalkState([], [], 0)); Dangling(r.edges, NodeIds(r.nodes)) == []
  {
    var r := Walk(forest, 0, None, WalkState([], [], 0));
    var po := PreOrderOf(forest, |forest|, 0);
    var ls := LinksOf(forest, |forest|, "");
    ForestWalk(forest);
    LinksOfWithin(forest, |forest|, 0, "");
    assert NodeIds(r.nodes) == Ids(po) by {
      forall id | id in Ids(po) ensures id in NodeIds(r.nodes) {
        var k :| 0 <= k < |po| && po[k].0.id == id;
        assert r.nodes[k].id == id;
      }
    }
    forall e | e in r.edges ensures e.source in NodeIds(r.nodes) && e.target in NodeIds(r.nodes) {
      var k :| 0 <= k < |r.edges| && r.edges[k] == e;
      assert ls[k] in ls;
      assert e.source == ls[k].0 && e.target == ls[k].1;
    }
    DanglingEmpty(r.edges, NodeIds(r.nodes));
  }
}
