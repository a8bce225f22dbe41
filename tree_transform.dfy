/** The graph builder of src/utils/treeTransform.ts: a query tree, or a flat list of
    events, becomes positioned React Flow nodes and edges. Coordinates are exact reals. */
module TreeTransform {
  import opened Common
  import opened Strings
  import opened ApiTypes

  const VERTICAL_SPACING: real := 180.0
  const MIN_HORIZONTAL_SPACING: real := 320.0

  /** A node placed by the tree layout, before it becomes a React Flow node. */
  datatype LayoutNode = LayoutNode(node: TreeNode, x: real, y: real)

  /** A React Flow node: its id, position, label and the node data it renders. */
  datatype FlowNode = FlowNode(id: string, x: real, y: real, text: string, data: TreeNode)

  /** A React Flow edge; `animated` is set when the target is running. */
  datatype FlowEdge = FlowEdge(id: string, source: string, target: string, animated: bool)

  // ---------------------------------------------------------------------------
  // Mode selection and the timeline branch

  /** The timeline branch is taken when the root has no children and there are events. */
  predicate IsTimeline(root: TreeNode, events: Option<seq<ApiEvent>>) {
    |root.children| == 0 && events.Some? && |events.value| > 0
  }

  function EventId(i: nat): string {
    "event-" + NatToString(i)
  }

  /** `a || b || null` over nullable numbers. */
  function FirstTruthy(a: Option<int>, b: Option<int>): Option<int> {
    if TruthyNum(a) then a else if TruthyNum(b) then b else None
  }

  /** The synthetic tree node shown for the event at `index`. */
  function EventNodeData(index: nat, e: ApiEvent): TreeNode {
    TreeNode(
      EventId(index), e.queryId, Some("EVENT"), None,
      if TruthyStr(e.catalog) then e.catalog else None,
      e.state,
      FirstTruthy(e.cpuTimeMs, e.wallTimeMs),
      e.totalRows, e.totalBytes, e.cpuTimeMs, e.wallTimeMs, e.peakMemoryBytes,
      e.errorMessage, [],
      if index > 0 then Some(EventId(index - 1)) else None,
      Some(e.eventType), Some(e.eventType))
  }

  function EventFlowNode(index: nat, e: ApiEvent): FlowNode {
    FlowNode(EventId(index), 0.0, index as real * VERTICAL_SPACING, e.eventType, EventNodeData(index, e))
  }

  /** The edge from the event before `index` to the event at `index`. */
  function EventFlowEdge(index: nat, e: ApiEvent): FlowEdge
    requires index > 0
  {
    FlowEdge(EventId(index - 1) + "-" + EventId(index), EventId(index - 1), EventId(index), e.state == "RUNNING")
  }

  // ---------------------------------------------------------------------------
  // Subtree widths (getSubtreeWidth) and the tree size

  /** getSubtreeWidth: 1 for a leaf, the sum over the children otherwise. */
  function Width(n: TreeNode): nat
    decreases n, 1
  {
    if |n.children| == 0 then 1 else WidthSum(n.children, |n.children|)
  }

  /** The `reduce` of getSubtreeWidth over the first `i` children, left to right. */
  function WidthSum(cs: seq<TreeNode>, i: nat): nat
    requires i <= |cs|
    decreases cs, 0, i
  {
    if i == 0 then 0 else WidthSum(cs, i - 1) + Width(cs[i - 1])
  }

  /** The leaves of a tree, left to right: an independent account of the width. */
  function Leaves(n: TreeNode): seq<TreeNode>
    decreases n, 1
  {
    if |n.children| == 0 then [n] else LeavesOf(n.children, |n.children|)
  }

  function LeavesOf(cs: seq<TreeNode>, i: nat): seq<TreeNode>
    requires i <= |cs|
    decreases cs, 0, i
  {
    if i == 0 then [] else LeavesOf(cs, i - 1) + Leaves(cs[i - 1])
  }

  /** The nodes of a tree with their depth, children before their parent (post-order). */
  function PostOrder(n: TreeNode, depth: nat): seq<(TreeNode, nat)>
    decreases n, 1
  {
    PostOrderOf(n.children, |n.children|, depth + 1) + [(n, depth)]
  }

  function PostOrderOf(cs: seq<TreeNode>, i: nat, depth: nat): seq<(TreeNode, nat)>
    requires i <= |cs|
    decreases cs, 0, i
  {
    if i == 0 then [] else PostOrderOf(cs, i - 1, depth) + PostOrder(cs[i - 1], depth)
  }

  /** The number of nodes of a tree. */
  function Size(n: TreeNode): nat
    decreases n, 1
  {
    1 + SizeOf(n.children, |n.children|)
  }

  function SizeOf(cs: seq<TreeNode>, i: nat): nat
    requires i <= |cs|
    decreases cs, 0, i
  {
    if i == 0 then 0 else SizeOf(cs, i - 1) + Size(cs[i - 1])
  }

  // ---------------------------------------------------------------------------
  // The layout (calculateLayout) as a specification

  /** The left bound given to child `i`: the parent's left bound plus the widths of
      the children before it. */
  function ChildLeft(cs: seq<TreeNode>, i: nat, left: real): real
    requires i <= |cs|
  {
    left + WidthSum(cs, i) as real * MIN_HORIZONTAL_SPACING
  }

  function ChildRight(cs: seq<TreeNode>, i: nat, left: real): real
    requires i < |cs|
  {
    ChildLeft(cs, i, left) + Width(cs[i]) as real * MIN_HORIZONTAL_SPACING
  }

  /** The x that calculateLayout returns for `n` placed in [left, right]: the midpoint
      for a leaf, the midpoint of the first and last child otherwise. */
  function LayoutX(n: TreeNode, left: real, right: real): real
    decreases n, 1
  {
    if |n.children| == 0 then (left + right) / 2.0
    else (ChildX(n.children, 0, left) + ChildX(n.children, |n.children| - 1, left)) / 2.0
  }

  /** The x of child `i` of a parent whose span starts at `left`. */
  function ChildX(cs: seq<TreeNode>, i: nat, left: real): real
    requires i < |cs|
    decreases cs, 0
  {
    LayoutX(cs[i], ChildLeft(cs, i, left), ChildRight(cs, i, left))
  }

  /** The entries calculateLayout pushes for `n`, in push order (post-order). */
  function Layout(n: TreeNode, depth: nat, left: real, right: real): seq<LayoutNode>
    decreases n, 1
  {
    var y := depth as real * VERTICAL_SPACING;
    if |n.children| == 0 then [LayoutNode(n, (left + right) / 2.0, y)]
    else ChildrenLayout(n.children, |n.children|, depth + 1, left) + [LayoutNode(n, LayoutX(n, left, right), y)]
  }

  /** The entries pushed by the forEach over the first `i` children `cs`, whose first
      child starts at `left`. */
  function ChildrenLayout(cs: seq<TreeNode>, i: nat, depth: nat, left: real): seq<LayoutNode>
    requires i <= |cs|
    decreases cs, 0, i
  {
    if i == 0 then []
    else ChildrenLayout(cs, i - 1, depth, left) + Layout(cs[i - 1], depth, ChildLeft(cs, i - 1, left), ChildRight(cs, i - 1, left))
  }

  /** The layout of a whole tree: the root spans [0, treeWidth * 320] at depth 0. */
  function TreeLayout(root: TreeNode): seq<LayoutNode> {
    Layout(root, 0, 0.0, Width(root) as real * MIN_HORIZONTAL_SPACING)
  }

  /** `operatorType || nodeType || 'Query Node'` */
  function NodeLabel(n: TreeNode): string {
    if TruthyStr(n.operatorType) then n.operatorType.value
    else if TruthyStr(n.nodeType) then n.nodeType.value
    else "Query Node"
  }

  function ToFlowNode(l: LayoutNode): FlowNode {
    FlowNode(l.node.id, l.x, l.y, NodeLabel(l.node), l.node)
  }

  function ChildEdge(parent: TreeNode, child: TreeNode): FlowEdge {
    FlowEdge(parent.id + "-" + child.id, parent.id, child.id, child.state == "RUNNING")
  }

  /** The edges pushed for one layout entry: one per child, in order. */
  function ChildEdges(parent: TreeNode): seq<FlowEdge> {
    seq(|parent.children|, j requires 0 <= j < |parent.children| => ChildEdge(parent, parent.children[j]))
  }

  function FlowNodesOf(ls: seq<LayoutNode>): seq<FlowNode> {
    seq(|ls|, i requires 0 <= i < |ls| => ToFlowNode(ls[i]))
  }

  /** The pieces f gives the first `i` elements, concatenated in order. */
  function Flatten<T, U>(xs: seq<T>, i: nat, f: T -> seq<U>): seq<U>
    requires i <= |xs|
  {
    if i == 0 then [] else Flatten(xs, i - 1, f) + f(xs[i - 1])
  }

  function EntryEdges(l: LayoutNode): seq<FlowEdge> {
    ChildEdges(l.node)
  }

  /** The edges pushed for the first `i` layout entries. */
  function FlowEdgesOf(ls: seq<LayoutNode>, i: nat): seq<FlowEdge>
    requires i <= |ls|
  {
    Flatten(ls, i, EntryEdges)
  }

  /** A parent's entries are its children's entries followed by its own. */
  lemma ParentLayout(n: TreeNode, depth: nat, left: real, right: real)
    requires |n.children| > 0
    ensures Layout(n, depth, left, right)
         == ChildrenLayout(n.children, |n.children|, depth + 1, left)
          + [LayoutNode(n, (ChildX(n.children, 0, left) + ChildX(n.children, |n.children| - 1, left)) / 2.0,
                        depth as real * VERTICAL_SPACING)]
  {
  }

  // ---------------------------------------------------------------------------
  // The code

  /** calculateLayout: pushes the entries of `node`'s subtree onto `acc` and returns
      the node's x. */
  method CalculateLayout(node: TreeNode, depth: nat, leftBound: real, rightBound: real, acc: seq<LayoutNode>)
    returns (x: real, layoutNodes: seq<LayoutNode>)
    ensures x == LayoutX(node, leftBound, rightBound)
    ensures layoutNodes == acc + Layout(node, depth, leftBound, rightBound)
    decreases node
  {
    var y := depth as real * VERTICAL_SPACING;
    if |node.children| == 0 {
      x := (leftBound + rightBound) / 2.0;
      layoutNodes := acc + [LayoutNode(node, x, y)];
      return;
    }
    var cs := node.children;
    var childPositions: seq<real> := [];
    var currentLeft := leftBound;
    layoutNodes := acc;
    var i := 0;
    while i < |cs|
      invariant 0 <= i <= |cs|
      invariant currentLeft == ChildLeft(cs, i, leftBound)
      invariant |childPositions| == i
      invariant i > 0 ==> childPositions[0] == ChildX(cs, 0, leftBound)
      invariant i > 0 ==> childPositions[i - 1] == ChildX(cs, i - 1, leftBound)
      invariant layoutNodes == acc + ChildrenLayout(cs, i, depth + 1, leftBound)
    {
      var child := cs[i];
      var childWidth := Width(child) as real * MIN_HORIZONTAL_SPACING;
      var childRight := currentLeft + childWidth;
      var childX;
      childX, layoutNodes := CalculateLayout(child, depth + 1, currentLeft, childRight, layoutNodes);
      childPositions := childPositions + [childX];
      currentLeft := childRight;
      i := i + 1;
    }
    ParentLayout(node, depth, leftBound, rightBound);
    x := (childPositions[0] + childPositions[|childPositions| - 1]) / 2.0;
    layoutNodes := layoutNodes + [LayoutNode(node, x, y)];
  }

  /** The timeline branch: one node per event, stacked vertically, chained by edges. */
  method TimelineFlow(evs: seq<ApiEvent>) returns (nodes: seq<FlowNode>, edges: seq<FlowEdge>)
    ensures |nodes| == |evs|
    ensures forall i :: 0 <= i < |nodes| ==> nodes[i] == EventFlowNode(i, evs[i])
    ensures |edges| == if evs == [] then 0 else |evs| - 1
    ensures forall i :: 0 <= i < |edges| ==> edges[i] == EventFlowEdge(i + 1, evs[i + 1])
  {
    nodes, edges := [], [];
    var index := 0;
    while index < |evs|
      invariant 0 <= index <= |evs|
      invariant |nodes| == index
      invariant forall i :: 0 <= i < index ==> nodes[i] == EventFlowNode(i, evs[i])
      invariant |edges| == if index == 0 then 0 else index - 1
      invariant forall i :: 0 <= i < |edges| ==> edges[i] == EventFlowEdge(i + 1, evs[i + 1])
    {
      nodes := nodes + [EventFlowNode(index, evs[index])];
      if index > 0 {
        edges := edges + [EventFlowEdge(index, evs[index])];
      }
      index := index + 1;
    }
  }

  /** The tree branch after layout: one node per entry, one edge per parent-child pair. */
  method LayoutToFlow(layoutNodes: seq<LayoutNode>) returns (nodes: seq<FlowNode>, edges: seq<FlowEdge>)
    ensures |nodes| == |layoutNodes|
    ensures forall k :: 0 <= k < |nodes| ==> nodes[k] == ToFlowNode(layoutNodes[k])
    ensures edges == FlowEdgesOf(layoutNodes, |layoutNodes|)
  {
    nodes, edges := [], [];
    var i := 0;
    while i < |layoutNodes|
      invariant 0 <= i <= |layoutNodes|
      invariant |nodes| == i
      invariant forall k :: 0 <= k < i ==> nodes[k] == ToFlowNode(layoutNodes[k])
      invariant edges == FlowEdgesOf(layoutNodes, i)
    {
      var n := layoutNodes[i].node;
      nodes := nodes + [ToFlowNode(layoutNodes[i])];
      var j := 0;
      while j < |n.children|
        invariant 0 <= j <= |n.children|
        invariant edges == FlowEdgesOf(layoutNodes, i) + ChildEdges(n)[..j]
      {
        edges := edges + [ChildEdge(n, n.children[j])];
        assert ChildEdges(n)[..j + 1] == ChildEdges(n)[..j] + [ChildEdge(n, n.children[j])];
        j := j + 1;
      }
      assert ChildEdges(n)[..j] == ChildEdges(n);
      i := i + 1;
    }
  }

  /** transformQueryTreeToReactFlow */
  method TransformQueryTreeToReactFlow(root: Option<TreeNode>, events: Option<seq<ApiEvent>>)
    returns (nodes: seq<FlowNode>, edges: seq<FlowEdge>)
    ensures root.None? ==> nodes == [] && edges == []
    ensures root.Some? && IsTimeline(root.value, events) ==>
      && |nodes| == |events.value|
      && (forall i :: 0 <= i < |nodes| ==> nodes[i] == EventFlowNode(i, events.value[i]))
      && |edges| == |events.value| - 1
      && (forall i :: 0 <= i < |edges| ==> edges[i] == EventFlowEdge(i + 1, events.value[i + 1]))
    ensures root.Some? && !IsTimeline(root.value, events) ==>
      var tl := TreeLayout(root.value);
      && |nodes| == |tl|
      && (forall k :: 0 <= k < |nodes| ==> nodes[k] == ToFlowNode(tl[k]))
      && edges == FlowEdgesOf(tl, |tl|)
    ensures root.Some? && |root.value.children| == 0 && !IsTimeline(root.value, events) ==>
      nodes == [FlowNode(root.value.id, 160.0, 0.0, NodeLabel(root.value), root.value)] && edges == []
  {
    if root.None? {
      return [], [];
    }
    var r := root.value;
    if IsTimeline(r, events) {
      nodes, edges := TimelineFlow(events.value);
      return;
    }
    var treeWidth := Width(r);
    var _, layoutNodes := CalculateLayout(r, 0, 0.0, treeWidth as real * MIN_HORIZONTAL_SPACING, []);
    assert layoutNodes == TreeLayout(r);
    nodes, edges := LayoutToFlow(layoutNodes);
    if |r.children| == 0 {
      assert |layoutNodes| == 1;
      assert edges == Flatten(layoutNodes, 0, EntryEdges) + EntryEdges(layoutNodes[0]);
    }
  }

  // ---------------------------------------------------------------------------
  // Properties of the layout

  /** The width of a subtree is its number of leaves, so it is at least 1. */
  lemma {:induction false} WidthIsLeafCount(n: TreeNode)
    ensures Width(n) == |Leaves(n)| >= 1
    decreases n, 1
  {
    if |n.children| > 0 {
      WidthSumIsLeafCount(n.children, |n.children|);
    }
  }

  lemma {:induction false} WidthSumIsLeafCount(cs: seq<TreeNode>, i: nat)
    requires i <= |cs|
    ensures WidthSum(cs, i) == |LeavesOf(cs, i)| >= i
    decreases cs, 0, i
  {
    if i > 0 {
      WidthSumIsLeafCount(cs, i - 1);
      WidthIsLeafCount(cs[i - 1]);
    }
  }

  /** Later siblings start no further left than earlier ones end: sibling spans are
      disjoint and ordered left to right. */
  lemma {:induction false} SiblingSpansOrdered(cs: seq<TreeNode>, j: nat, k: nat, left: real)
    requires j < k <= |cs|
    ensures ChildRight(cs, j, left) <= ChildLeft(cs, k, left)
    decreases k
  {
    if k > j + 1 {
      SiblingSpansOrdered(cs, j, k - 1, left);
      WidthIsLeafCount(cs[k - 1]);
    }
  }

  /** The children of a parent tile its span exactly: the first starts at its left
      bound and the last ends at left + width * 320. */
  lemma {:induction false} ChildrenSpanParent(n: TreeNode, left: real)
    requires |n.children| > 0
    ensures ChildLeft(n.children, 0, left) == left
    ensures ChildRight(n.children, |n.children| - 1, left) == left + Width(n) as real * MIN_HORIZONTAL_SPACING
  {
  }

  /** Every x placed inside a subtree whose span is [left, left + width * 320] keeps half
      a column (160) away from both ends; in particular the subtree's own x does. */
  lemma {:induction false} LayoutInSpan(n: TreeNode, depth: nat, left: real)
    ensures var right := left + Width(n) as real * MIN_HORIZONTAL_SPACING;
      && left + 160.0 <= LayoutX(n, left, right) <= right - 160.0
      && forall e :: e in Layout(n, depth, left, right) ==> left + 160.0 <= e.x <= right - 160.0
    decreases n, 1
  {
    var right := left + Width(n) as real * MIN_HORIZONTAL_SPACING;
    var cs := n.children;
    if |cs| > 0 {
      var k := |cs| - 1;
      ChildrenInSpan(cs, |cs|, depth + 1, left);
      ChildInSpan(cs, 0, left);
      ChildInSpan(cs, k, left);
    }
  }

  /** Child `j`'s x lies within the parent's span. */
  lemma {:induction false} ChildInSpan(cs: seq<TreeNode>, j: nat, left: real)
    requires j < |cs|
    ensures left + 160.0 <= ChildX(cs, j, left) <= left + WidthSum(cs, |cs|) as real * MIN_HORIZONTAL_SPACING - 160.0
    decreases cs, 0, 0
  {
    LayoutInSpan(cs[j], 0, ChildLeft(cs, j, left));
    WidthSumMonotone(cs, 0, j);
    WidthSumMonotone(cs, j + 1, |cs|);
  }

  lemma {:induction false} WidthSumMonotone(cs: seq<TreeNode>, i: nat, j: nat)
    requires i <= j <= |cs|
    ensures WidthSum(cs, i) <= WidthSum(cs, j)
    decreases j
  {
    if i < j {
      WidthSumMonotone(cs, i, j - 1);
    }
  }

  lemma {:induction false} ChildrenInSpan(cs: seq<TreeNode>, i: nat, depth: nat, left: real)
    requires i <= |cs|
    ensures forall e :: e in ChildrenLayout(cs, i, depth, left) ==>
      left + 160.0 <= e.x <= left + WidthSum(cs, i) as real * MIN_HORIZONTAL_SPACING - 160.0
    decreases cs, 0, i
  {
    if i > 0 {
      ChildrenInSpan(cs, i - 1, depth, left);
      LayoutInSpan(cs[i - 1], depth, ChildLeft(cs, i - 1, left));
      WidthSumMonotone(cs, 0, i - 1);
      WidthIsLeafCount(cs[i - 1]);
    }
  }

  /** Layout entries line up with an independent post-order traversal: same node, and
      y is the node's depth times 180. */
  predicate MatchesPostOrder(ls: seq<LayoutNode>, po: seq<(TreeNode, nat)>) {
    && |ls| == |po|
    && forall k :: 0 <= k < |ls| ==> ls[k].node == po[k].0 && ls[k].y == po[k].1 as real * VERTICAL_SPACING
  }

  lemma MatchesConcat(ls1: seq<LayoutNode>, po1: seq<(TreeNode, nat)>, ls2: seq<LayoutNode>, po2: seq<(TreeNode, nat)>)
    requires MatchesPostOrder(ls1, po1) && MatchesPostOrder(ls2, po2)
    ensures MatchesPostOrder(ls1 + ls2, po1 + po2)
  {
    forall k | 0 <= k < |ls1 + ls2|
      ensures (ls1 + ls2)[k].node == (po1 + po2)[k].0
      ensures (ls1 + ls2)[k].y == (po1 + po2)[k].1 as real * VERTICAL_SPACING
    {
      if k >= |ls1| {
        assert (ls1 + ls2)[k] == ls2[k - |ls1|];
      }
    }
  }

  lemma {:induction false} LayoutIsPostOrder(n: TreeNode, depth: nat, left: real, right: real)
    ensures MatchesPostOrder(Layout(n, depth, left, right), PostOrder(n, depth))
    decreases n, 1
  {
    var cs := n.children;
    var own := [LayoutNode(n, LayoutX(n, left, right), depth as real * VERTICAL_SPACING)];
    if |cs| == 0 {
      assert PostOrder(n, depth) == [(n, depth)];
    } else {
      ChildrenArePostOrder(cs, |cs|, depth + 1, left);
      MatchesConcat(ChildrenLayout(cs, |cs|, depth + 1, left), PostOrderOf(cs, |cs|, depth + 1), own, [(n, depth)]);
    }
  }

  lemma {:induction false} ChildrenArePostOrder(cs: seq<TreeNode>, i: nat, depth: nat, left: real)
    requires i <= |cs|
    ensures MatchesPostOrder(ChildrenLayout(cs, i, depth, left), PostOrderOf(cs, i, depth))
    decreases cs, 0, i
  {
    if i > 0 {
      ChildrenArePostOrder(cs, i - 1, depth, left);
      LayoutIsPostOrder(cs[i - 1], depth, ChildLeft(cs, i - 1, left), ChildRight(cs, i - 1, left));
      MatchesConcat(ChildrenLayout(cs, i - 1, depth, left), PostOrderOf(cs, i - 1, depth),
                    Layout(cs[i - 1], depth, ChildLeft(cs, i - 1, left), ChildRight(cs, i - 1, left)),
                    PostOrder(cs[i - 1], depth));
    }
  }

  /** The post-order visits every node exactly once. */
  lemma {:induction false} PostOrderSize(n: TreeNode, depth: nat)
    ensures |PostOrder(n, depth)| == Size(n)
    decreases n, 1
  {
    PostOrderOfSize(n.children, |n.children|, depth + 1);
  }

  lemma {:induction false} PostOrderOfSize(cs: seq<TreeNode>, i: nat, depth: nat)
    requires i <= |cs|
    ensures |PostOrderOf(cs, i, depth)| == SizeOf(cs, i)
    decreases cs, 0, i
  {
    if i > 0 {
      PostOrderOfSize(cs, i - 1, depth);
      PostOrderSize(cs[i - 1], depth);
    }
  }

  /** Flattening a concatenation. */
  lemma {:induction false} FlattenAppend<T, U>(a: seq<T>, b: seq<T>, j: nat, f: T -> seq<U>)
    requires j <= |b|
    ensures Flatten(a + b, |a| + j, f) == Flatten(a, |a|, f) + Flatten(b, j, f)
    decreases j
  {
    if j == 0 {
      assert (a + b)[..|a|] == a;
      FlattenPrefix(a + b, a, |a|, f);
    } else {
      FlattenAppend(a, b, j - 1, f);
      assert (a + b)[|a| + j - 1] == b[j - 1];
    }
  }

  /** Flattening the first `i` elements depends only on those elements. */
  lemma {:induction false} FlattenPrefix<T, U>(xs: seq<T>, p: seq<T>, i: nat, f: T -> seq<U>)
    requires i <= |p| <= |xs| && xs[..|p|] == p
    ensures Flatten(xs, i, f) == Flatten(p, i, f)
    decreases i
  {
    if i > 0 {
      FlattenPrefix(xs, p, i - 1, f);
      assert xs[i - 1] == xs[..|p|][i - 1];
    }
  }

  /** Edges of a concatenation of layout entries. */
  lemma FlowEdgesAppend(a: seq<LayoutNode>, b: seq<LayoutNode>, j: nat)
    requires j <= |b|
    ensures FlowEdgesOf(a + b, |a| + j) == FlowEdgesOf(a, |a|) + FlowEdgesOf(b, j)
  {
    FlattenAppend(a, b, j, EntryEdges);
  }

  /** One edge per parent-child pair: a tree of Size nodes yields Size - 1 edges. */
  lemma {:induction false} LayoutEdgeCount(n: TreeNode, depth: nat, left: real, right: real)
    ensures var ls := Layout(n, depth, left, right); |FlowEdgesOf(ls, |ls|)| == Size(n) - 1
    decreases n, 1
  {
    var cs := n.children;
    var own := [LayoutNode(n, LayoutX(n, left, right), depth as real * VERTICAL_SPACING)];
    var cl := ChildrenLayout(cs, |cs|, depth + 1, left);
    ChildrenEdgeCount(cs, |cs|, depth + 1, left);
    if |cs| == 0 {
      assert Layout(n, depth, left, right) == [] + own;
    }
    FlowEdgesAppend(cl, own, 1);
    assert FlowEdgesOf(own, 1) == Flatten(own, 0, EntryEdges) + EntryEdges(own[0]);
  }

  lemma {:induction false} ChildrenEdgeCount(cs: seq<TreeNode>, i: nat, depth: nat, left: real)
    requires i <= |cs|
    ensures var ls := ChildrenLayout(cs, i, depth, left); |FlowEdgesOf(ls, |ls|)| == SizeOf(cs, i) - i
    decreases cs, 0, i
  {
    if i > 0 {
      var prev := ChildrenLayout(cs, i - 1, depth, left);
      var last := Layout(cs[i - 1], depth, ChildLeft(cs, i - 1, left), ChildRight(cs, i - 1, left));
      ChildrenEdgeCount(cs, i - 1, depth, left);
      LayoutEdgeCount(cs[i - 1], depth, ChildLeft(cs, i - 1, left), ChildRight(cs, i - 1, left));
      FlowEdgesAppend(prev, last, |last|);
      SizeOfAtLeast(cs, i - 1);
    }
  }

  lemma {:induction false} SizeOfAtLeast(cs: seq<TreeNode>, i: nat)
    requires i <= |cs|
    ensures SizeOf(cs, i) >= i
    decreases i
  {
    if i > 0 {
      SizeOfAtLeast(cs, i - 1);
    }
  }

  /** The tree branch emits one node per tree node and one edge per parent-child pair. */
  lemma TreeFlowCounts(root: TreeNode)
    ensures |TreeLayout(root)| == Size(root)
    ensures |FlowEdgesOf(TreeLayout(root), |TreeLayout(root)|)| == Size(root) - 1
  {
    var right := Width(root) as real * MIN_HORIZONTAL_SPACING;
    LayoutIsPostOrder(root, 0, 0.0, right);
    PostOrderSize(root, 0);
    LayoutEdgeCount(root, 0, 0.0, right);
  }

  /** Some entry of `ls` places the node `t`. */
  predicate Places(ls: seq<LayoutNode>, t: TreeNode) {
    exists m :: 0 <= m < |ls| && ls[m].node == t
  }

  /** Every child of a placed node is placed too. */
  predicate ChildrenPlaced(ls: seq<LayoutNode>) {
    forall k, j :: 0 <= k < |ls| && 0 <= j < |ls[k].node.children| ==> Places(ls, ls[k].node.children[j])
  }

  lemma PlacesConcat(a: seq<LayoutNode>, b: seq<LayoutNode>)
    ensures forall t :: Places(a, t) ==> Places(a + b, t)
    ensures forall t :: Places(b, t) ==> Places(a + b, t)
    ensures ChildrenPlaced(a) && ChildrenPlaced(b) ==> ChildrenPlaced(a + b)
  {
    forall t | Places(a, t) ensures Places(a + b, t) {
      var m :| 0 <= m < |a| && a[m].node == t;
      assert (a + b)[m] == a[m];
    }
    forall t | Places(b, t) ensures Places(a + b, t) {
      var m :| 0 <= m < |b| && b[m].node == t;
      assert (a + b)[|a| + m] == b[m];
    }
    if ChildrenPlaced(a) && ChildrenPlaced(b) {
      forall k, j | 0 <= k < |a + b| && 0 <= j < |(a + b)[k].node.children|
        ensures Places(a + b, (a + b)[k].node.children[j])
      {
        if k < |a| {
          assert (a + b)[k] == a[k];
          assert Places(a, a[k].node.children[j]);
        } else {
          assert (a + b)[k] == b[k - |a|];
          assert Places(b, b[k - |a|].node.children[j]);
        }
      }
    }
  }

  lemma {:induction false} LayoutPlacesChildren(n: TreeNode, depth: nat, left: real, right: real)
    ensures Places(Layout(n, depth, left, right), n)
    ensures ChildrenPlaced(Layout(n, depth, left, right))
    decreases n, 1
  {
    var ls := Layout(n, depth, left, right);
    assert ls[|ls| - 1].node == n;
    var cs := n.children;
    if |cs| > 0 {
      var cl := ChildrenLayout(cs, |cs|, depth + 1, left);
      var own := [LayoutNode(n, LayoutX(n, left, right), depth as real * VERTICAL_SPACING)];
      ChildrenPlacedIn(cs, |cs|, depth + 1, left);
      PlacesConcat(cl, own);
      forall k, j | 0 <= k < |ls| && 0 <= j < |ls[k].node.children|
        ensures Places(ls, ls[k].node.children[j])
      {
        if k < |cl| {
          assert ls[k] == cl[k];
        } else {
          assert ls[k].node == n;
          assert Places(cl, cs[j]);
        }
      }
    }
  }

  lemma {:induction false} ChildrenPlacedIn(cs: seq<TreeNode>, i: nat, depth: nat, left: real)
    requires i <= |cs|
    ensures forall j :: 0 <= j < i ==> Places(ChildrenLayout(cs, i, depth, left), cs[j])
    ensures ChildrenPlaced(ChildrenLayout(cs, i, depth, left))
    decreases cs, 0, i
  {
    if i > 0 {
      var prev := ChildrenLayout(cs, i - 1, depth, left);
      var last := Layout(cs[i - 1], depth, ChildLeft(cs, i - 1, left), ChildRight(cs, i - 1, left));
      ChildrenPlacedIn(cs, i - 1, depth, left);
      LayoutPlacesChildren(cs[i - 1], depth, ChildLeft(cs, i - 1, left), ChildRight(cs, i - 1, left));
      PlacesConcat(prev, last);
    }
  }

  /** Every edge built from the first `i` entries joins an entry's node to one of its children. */
  lemma {:induction false} EdgeOrigin(ls: seq<LayoutNode>, i: nat)
    requires i <= |ls|
    ensures forall e :: e in FlowEdgesOf(ls, i) ==>
      exists k, j :: 0 <= k < i && 0 <= j < |ls[k].node.children| && e == ChildEdge(ls[k].node, ls[k].node.children[j])
    decreases i
  {
    if i > 0 {
      EdgeOrigin(ls, i - 1);
      forall e | e in FlowEdgesOf(ls, i)
        ensures exists k, j :: 0 <= k < i && 0 <= j < |ls[k].node.children| && e == ChildEdge(ls[k].node, ls[k].node.children[j])
      {
        if e !in FlowEdgesOf(ls, i - 1) {
          var j :| 0 <= j < |ChildEdges(ls[i - 1].node)| && ChildEdges(ls[i - 1].node)[j] == e;
          assert e == ChildEdge(ls[i - 1].node, ls[i - 1].node.children[j]);
        }
      }
    }
  }

  /** Tree mode has no dangling edges: both ends of every edge are ids of emitted nodes. */
  lemma TreeEdgesConnectNodes(root: TreeNode)
    ensures var tl := TreeLayout(root);
      forall e :: e in FlowEdgesOf(tl, |tl|) ==>
        (exists k :: 0 <= k < |tl| && ToFlowNode(tl[k]).id == e.source)
        && (exists k :: 0 <= k < |tl| && ToFlowNode(tl[k]).id == e.target)
  {
    var tl := TreeLayout(root);
    LayoutPlacesChildren(root, 0, 0.0, Width(root) as real * MIN_HORIZONTAL_SPACING);
    EdgeOrigin(tl, |tl|);
    forall e | e in FlowEdgesOf(tl, |tl|)
      ensures (exists k :: 0 <= k < |tl| && ToFlowNode(tl[k]).id == e.source)
      ensures (exists k :: 0 <= k < |tl| && ToFlowNode(tl[k]).id == e.target)
    {
      var k, j :| 0 <= k < |tl| && 0 <= j < |tl[k].node.children| && e == ChildEdge(tl[k].node, tl[k].node.children[j]);
      assert ToFlowNode(tl[k]).id == e.source;
      assert Places(tl, tl[k].node.children[j]);
      var m :| 0 <= m < |tl| && tl[m].node == tl[k].node.children[j];
      assert ToFlowNode(tl[m]).id == e.target;
    }
  }

  // ---------------------------------------------------------------------------
  // Properties of the timeline

  lemma {:induction false} NatToStringInjective(a: nat, b: nat)
    ensures NatToString(a) == NatToString(b) ==> a == b
    decreases a
  {
    var sa, sb := NatToString(a), NatToString(b);
    if sa == sb {
      if a >= 10 && b >= 10 {
        assert sa[..|sa| - 1] == NatToString(a / 10);
        assert sb[..|sb| - 1] == NatToString(b / 10);
        NatToStringInjective(a / 10, b / 10);
      }
    }
  }

  /** Timeline node ids are pairwise distinct. */
  lemma EventIdsDistinct(i: nat, j: nat)
    requires i != j
    ensures EventId(i) != EventId(j)
  {
    NatToStringInjective(i, j);
    assert EventId(i)[6..] == NatToString(i);
    assert EventId(j)[6..] == NatToString(j);
  }
}
