/** service/QueryPlanParser.java: Trino's JSON plan, a map from fragment id to a tree of
    plan nodes, turned into a QueryTreeNode tree of the same shape, and the flat list of
    operator names of every fragment. The JSON decoding is Jackson's and is a parameter:
    a function from the plan text to the decoded fragments, in document order. */
module PlanParser {
  import opened Common
  import opened Strings
  import opened Model

  /** A decoded plan: fragment id to plan node, a null node allowed, in the order of the
      document (Jackson decodes a JSON object into a LinkedHashMap, one entry per key). */
  type Fragments = seq<(string, Option<PlanNode>)>

  /** ObjectMapper.readValue on a plan string: None when it throws or decodes `null`. */
  type PlanDecoder = string -> Option<Fragments>

  /** `s == null || s.trim().isEmpty()` */
  predicate IsBlank(s: Option<string>) {
    s.None? || Trim(s.value) == []
  }

  // ---------------------------------------------------------------------------
  // Node conversion (convertPlanNodeToTreeNode)

  /** The "outputs" metadata: one name/type map per output column, in order. None when
      an output is null, whose getName() throws. */
  function OutputsInfo(outputs: seq<Option<PlanOutput>>): (r: Option<Value>)
    ensures r.None? <==> exists i :: 0 <= i < |outputs| && outputs[i].None?
    ensures r.Some? ==> r.value.List? && |r.value.items| == |outputs|
  {
    if exists i :: 0 <= i < |outputs| && outputs[i].None? then None
    else
      Some(List(seq(|outputs|, i requires 0 <= i < |outputs| =>
        Obj([("name", StrOrNull(outputs[i].value.name)), ("type", StrOrNull(outputs[i].value.outType))]))))
  }

  /** The "estimates" metadata, built from one estimate. */
  function EstimateInfo(e: PlanEstimate): Value {
    Obj([("outputRowCount", StrOrNull(e.outputRowCount)),
         ("outputSizeInBytes", StrOrNull(e.outputSizeInBytes)),
         ("cpuCost", e.cpuCost), ("memoryCost", e.memoryCost), ("networkCost", e.networkCost)])
  }

  /** The "outputs" entry; None when building it throws. */
  function OutputsEntry(outputs: Option<seq<Option<PlanOutput>>>): (r: Option<seq<(string, Value)>>)
    ensures r.None? <==> outputs.Some? && exists i :: 0 <= i < |outputs.value| && outputs.value[i].None?
    ensures r.Some? ==> KeySet(r.value) == if outputs.Some? && outputs.value != [] then {"outputs"} else {}
  {
    if outputs.Some? && outputs.value != [] then
      match OutputsInfo(outputs.value)
      case None => None
      case Some(info) => Some([("outputs", info)])
    else Some([])
  }

  /** The "details" entry: the list as it is, null entries included. */
  function DetailsEntry(details: Option<seq<Option<string>>>): (r: seq<(string, Value)>)
    ensures KeySet(r) == if details.Some? && details.value != [] then {"details"} else {}
  {
    if details.Some? && details.value != [] then
      [("details", List(seq(|details.value|, i requires 0 <= i < |details.value| => StrOrNull(details.value[i]))))]
    else []
  }

  /** The "estimates" entry from the first estimate; None when that one is null, whose
      getOutputRowCount() throws. Later entries are never read. */
  function EstimatesEntry(estimates: Option<seq<Option<PlanEstimate>>>): (r: Option<seq<(string, Value)>>)
    ensures r.None? <==> estimates.Some? && estimates.value != [] && estimates.value[0].None?
    ensures r.Some? ==> KeySet(r.value) == if estimates.Some? && estimates.value != [] then {"estimates"} else {}
  {
    if estimates.Some? && estimates.value != [] then
      match estimates.value[0]
      case None => None
      case Some(e) => Some([("estimates", EstimateInfo(e))])
    else Some([])
  }

  /** The descriptor and table entries. None when a TableScan's "table" descriptor entry
      is null, whose toString() throws. */
  function DescriptorEntries(n: PlanNode): (r: Option<seq<(string, Value)>>)
    ensures r.Some? ==> (KeySet(r.value) ==
      (if HasDescriptor(n) then {"descriptor"} else {}) + (if RecordsTable(n) then {"table"} else {}))
  {
    if HasDescriptor(n) then
      var d := n.descriptor.value;
      if n.name == Some("TableScan") && HasKey(d, "table") then
        var t := Get(d, "table").value;
        if t.Null? then None
        else
          var entries := [("descriptor", Obj(d)), ("table", Str(Render(t)))];
          assert entries[..1] == [("descriptor", Obj(d))];
          assert entries[..1][..0] == [];
          assert KeySet(entries[..1]) == {"descriptor"};
          assert KeySet(entries) == KeySet(entries[..1]) + {"table"};
          Some(entries)
      else
        var entries := [("descriptor", Obj(d))];
        assert entries[..0] == [];
        Some(entries)
    else Some([])
  }

  /** The metadata map of a converted node, or None when building it throws. */
  function MetadataOf(n: PlanNode, fragmentId: string): Option<seq<(string, Value)>> {
    match (DescriptorEntries(n), OutputsEntry(n.outputs), EstimatesEntry(n.estimates))
    case (Some(d), Some(o), Some(e)) =>
      Some([("fragmentId", Str(fragmentId))] + d + o + DetailsEntry(n.details) + e)
    case _ => None
  }

  /** convertPlanNodeToTreeNode; None stands for the exception thrown on a null child,
      a null table entry, a null output or a null first estimate, which parseJsonPlan
      catches. */
  function Convert(n: PlanNode, fragmentId: string): (r: Option<QueryTreeNode>)
    ensures r.Some? ==> r.value.id == n.id && r.value.operatorType == n.name
    ensures r.Some? ==> r.value.nodeType == Some("OPERATOR") && r.value.metadata == MetadataOf(n, fragmentId)
    ensures r.Some? ==> |r.value.children| == if n.children.ChildNodes? then |n.children.nodes| else 0
    decreases n, 1
  {
    match MetadataOf(n, fragmentId)
    case None => None
    case Some(m) =>
      var kids := if n.children.ChildNodes? && n.children.nodes != [] then ConvertChildren(n, fragmentId, |n.children.nodes|) else Some([]);
      match kids
      case None => None
      case Some(cs) =>
        Some(EmptyNode.(id := n.id, operatorType := n.name, nodeType := Some("OPERATOR"),
                        metadata := Some(m), children := cs))
  }

  /** The first k children of `owner`, converted in order. */
  function ConvertChildren(owner: PlanNode, fragmentId: string, k: nat): (r: Option<seq<QueryTreeNode>>)
    requires owner.children.ChildNodes? && k <= |owner.children.nodes|
    ensures r.Some? ==> |r.value| == k
    decreases owner, 0, k
  {
    if k == 0 then Some([])
    else
      match ConvertChildren(owner, fragmentId, k - 1)
      case None => None
      case Some(cs) =>
        var c := owner.children.nodes[k - 1];
        assert c in owner.children.nodes;
        if c.None? then None
        else
          match Convert(c.value, fragmentId)
          case None => None
          case Some(t) => Some(cs + [t])
  }

  /** Each converted child is the conversion of the plan child at the same position. */
  lemma ConvertChildrenEach(owner: PlanNode, fragmentId: string, k: nat)
    requires owner.children.ChildNodes? && k <= |owner.children.nodes|
    requires ConvertChildren(owner, fragmentId, k).Some?
    ensures forall i :: 0 <= i < k ==>
      owner.children.nodes[i].Some? && Convert(owner.children.nodes[i].value, fragmentId) == Some(ConvertChildren(owner, fragmentId, k).value[i])
  {
    forall i | 0 <= i < k
      ensures owner.children.nodes[i].Some?
      ensures Convert(owner.children.nodes[i].value, fragmentId) == Some(ConvertChildren(owner, fragmentId, k).value[i])
    {
      ConvertChildAt(owner, fragmentId, k, i);
    }
  }

  /** The i-th converted child, for one position at a time. */
  lemma {:induction false} ConvertChildAt(owner: PlanNode, fragmentId: string, k: nat, i: nat)
    requires owner.children.ChildNodes? && i < k <= |owner.children.nodes|
    requires ConvertChildren(owner, fragmentId, k).Some?
    ensures owner.children.nodes[i].Some?
    ensures Convert(owner.children.nodes[i].value, fragmentId) == Some(ConvertChildren(owner, fragmentId, k).value[i])
    decreases k
  {
    ConvertChildrenStep(owner, fragmentId, k);
    var all := ConvertChildren(owner, fragmentId, k).value;
    var prev := ConvertChildren(owner, fragmentId, k - 1).value;
    if i < k - 1 {
      ConvertChildAt(owner, fragmentId, k - 1, i);
      assert all[i] == prev[i];
    }
  }

  /** A successful conversion of k children extends that of the first k - 1 by the k-th. */
  lemma ConvertChildrenStep(owner: PlanNode, fragmentId: string, k: nat)
    requires owner.children.ChildNodes? && 0 < k <= |owner.children.nodes|
    requires ConvertChildren(owner, fragmentId, k).Some?
    ensures ConvertChildren(owner, fragmentId, k - 1).Some?
    ensures owner.children.nodes[k - 1].Some? && Convert(owner.children.nodes[k - 1].value, fragmentId).Some?
    ensures ConvertChildren(owner, fragmentId, k).value
      == ConvertChildren(owner, fragmentId, k - 1).value + [Convert(owner.children.nodes[k - 1].value, fragmentId).value]
  {
  }

  /** Every node of a tree carries the fragment id in its metadata. */
  predicate InFragment(t: QueryTreeNode, fragmentId: string) {
    && t.metadata.Some? && Get(t.metadata.value, "fragmentId") == Some(Str(fragmentId))
    && forall i :: 0 <= i < |t.children| ==> InFragment(t.children[i], fragmentId)
  }

  /** Every node converted from a fragment, descendants included, records that fragment. */
  lemma {:induction false} ConvertInFragment(n: PlanNode, fragmentId: string)
    requires Convert(n, fragmentId).Some?
    ensures InFragment(Convert(n, fragmentId).value, fragmentId)
    decreases n
  {
    var t := Convert(n, fragmentId).value;
    var m := MetadataOf(n, fragmentId).value;
    GetConcat([("fragmentId", Str(fragmentId))], m[1..], "fragmentId");
    assert m == [("fragmentId", Str(fragmentId))] + m[1..];
    if n.children.ChildNodes? && n.children.nodes != [] {
      var cs := n.children.nodes;
      ConvertChildrenEach(n, fragmentId, |cs|);
      forall i | 0 <= i < |t.children|
        ensures InFragment(t.children[i], fragmentId)
      {
        assert cs[i] in cs;
        ConvertInFragment(cs[i].value, fragmentId);
      }
    }
  }

  /** A null child makes conversion throw. */
  lemma NullChildFails(n: PlanNode, fragmentId: string, i: int)
    requires n.children.ChildNodes? && 0 <= i < |n.children.nodes| && n.children.nodes[i].None?
    ensures Convert(n, fragmentId).None?
  {
    if Convert(n, fragmentId).Some? {
      ConvertChildrenEach(n, fragmentId, |n.children.nodes|);
      assert n.children.nodes[i].Some?;
    }
  }

  predicate HasDescriptor(n: PlanNode) {
    n.descriptor.Some? && n.descriptor.value != []
  }

  /** The "table" entry is recorded for a TableScan whose descriptor has one. */
  predicate RecordsTable(n: PlanNode) {
    HasDescriptor(n) && n.name == Some("TableScan") && HasKey(n.descriptor.value, "table")
  }

  /** The metadata keys: fragmentId always; descriptor, outputs, details and estimates
      exactly when their source is non-empty; table only for a TableScan whose
      descriptor has a "table" entry. */
  lemma MetadataKeys(n: PlanNode, fragmentId: string)
    requires MetadataOf(n, fragmentId).Some?
    ensures KeySet(MetadataOf(n, fragmentId).value) ==
      {"fragmentId"}
      + (if HasDescriptor(n) then {"descriptor"} else {})
      + (if RecordsTable(n) then {"table"} else {})
      + (if n.outputs.Some? && n.outputs.value != [] then {"outputs"} else {})
      + (if n.details.Some? && n.details.value != [] then {"details"} else {})
      + (if n.estimates.Some? && n.estimates.value != [] then {"estimates"} else {})
  {
    var head: seq<(string, Value)> := [("fragmentId", Str(fragmentId))];
    var d := DescriptorEntries(n).value;
    var o := OutputsEntry(n.outputs).value;
    var de := DetailsEntry(n.details);
    var e := EstimatesEntry(n.estimates).value;
    assert KeySet(MetadataOf(n, fragmentId).value) == KeySet(head) + KeySet(d) + KeySet(o) + KeySet(de) + KeySet(e) by {
      assert MetadataOf(n, fragmentId).value == head + d + o + de + e;
      KeySetConcat(head + d + o + de, e);
      KeySetConcat(head + d + o, de);
      KeySetConcat(head + d, o);
      KeySetConcat(head, d);
    }
    assert KeySet(head) == {"fragmentId"};
  }

  /** Only the first cost estimate is recorded. */
  lemma FirstEstimateRecorded(n: PlanNode, fragmentId: string)
    requires MetadataOf(n, fragmentId).Some? && n.estimates.Some? && n.estimates.value != []
    ensures n.estimates.value[0].Some?
    ensures Get(MetadataOf(n, fragmentId).value, "estimates") == Some(EstimateInfo(n.estimates.value[0].value))
  {
    var head: seq<(string, Value)> := [("fragmentId", Str(fragmentId))];
    var d := DescriptorEntries(n).value;
    var o := OutputsEntry(n.outputs).value;
    var before := head + d + o + DetailsEntry(n.details);
    var e := EstimatesEntry(n.estimates).value;
    assert !HasKey(before, "estimates") by {
      KeySetHasKey(before, "estimates");
      KeySetConcat(head + d + o, DetailsEntry(n.details));
      KeySetConcat(head + d, o);
      KeySetConcat(head, d);
    }
    GetConcat(before, e, "estimates");
    assert e[0] == ("estimates", EstimateInfo(n.estimates.value[0].value));
  }

  /** Building the metadata throws exactly for a TableScan whose "table" entry is null,
      a null output, or a null first estimate. */
  lemma MetadataFails(n: PlanNode, fragmentId: string)
    ensures MetadataOf(n, fragmentId).None? <==>
      (RecordsTable(n) && Get(n.descriptor.value, "table").value.Null?)
      || (n.outputs.Some? && exists i :: 0 <= i < |n.outputs.value| && n.outputs.value[i].None?)
      || (n.estimates.Some? && n.estimates.value != [] && n.estimates.value[0].None?)
  {
  }

  // ---------------------------------------------------------------------------
  // Operators in preorder (collectOperators)

  /** The operator names of a plan node and its descendants in preorder; null children
      are skipped. */
  function PlanOperators(n: PlanNode): seq<Option<string>>
    decreases n, 1
  {
    [n.name] + if n.children.ChildNodes? then PlanOperatorsOf(n, |n.children.nodes|) else []
  }

  function PlanOperatorsOf(owner: PlanNode, k: nat): seq<Option<string>>
    requires owner.children.ChildNodes? && k <= |owner.children.nodes|
    decreases owner, 0, k
  {
    if k == 0 then []
    else
      var c := owner.children.nodes[k - 1];
      assert c in owner.children.nodes;
      PlanOperatorsOf(owner, k - 1) + if c.Some? then PlanOperators(c.value) else []
  }

  /** collectOperators on a possibly null node. */
  function NodeOperators(node: Option<PlanNode>): seq<Option<string>> {
    if node.Some? then PlanOperators(node.value) else []
  }

  /** The operator types of a converted tree in preorder. */
  function TreeOperators(t: QueryTreeNode): seq<Option<string>>
    decreases t, 1
  {
    [t.operatorType] + TreeOperatorsOf(t, |t.children|)
  }

  function TreeOperatorsOf(owner: QueryTreeNode, k: nat): seq<Option<string>>
    requires k <= |owner.children|
    decreases owner, 0, k
  {
    if k == 0 then [] else TreeOperatorsOf(owner, k - 1) + TreeOperators(owner.children[k - 1])
  }

  /** Conversion keeps the tree's shape: its operator types in preorder are the plan's
      operator names in preorder. */
  lemma {:induction false} ConvertKeepsOperators(n: PlanNode, fragmentId: string)
    requires Convert(n, fragmentId).Some?
    ensures TreeOperators(Convert(n, fragmentId).value) == PlanOperators(n)
    decreases n
  {
    var t := Convert(n, fragmentId).value;
    if n.children.ChildNodes? {
      var cs := n.children.nodes;
      if cs != [] {
        ConvertChildrenEach(n, fragmentId, |cs|);
      }
      forall i | 0 <= i < |t.children|
        ensures cs[i].Some? && TreeOperators(t.children[i]) == PlanOperators(cs[i].value)
      {
        assert cs[i] in cs;
        ConvertKeepsOperators(cs[i].value, fragmentId);
      }
      ChildrenOperatorsAgree(n, t, |t.children|);
    }
  }

  lemma {:induction false} ChildrenOperatorsAgree(owner: PlanNode, t: QueryTreeNode, k: nat)
    requires owner.children.ChildNodes? && k <= |owner.children.nodes| && k <= |t.children|
    requires forall i :: 0 <= i < k ==>
      owner.children.nodes[i].Some? && TreeOperators(t.children[i]) == PlanOperators(owner.children.nodes[i].value)
    ensures TreeOperatorsOf(t, k) == PlanOperatorsOf(owner, k)
  {
    if k > 0 {
      ChildrenOperatorsAgree(owner, t, k - 1);
    }
  }

  /** collectOperators: appends the names of a node and its descendants in preorder to
      the accumulator; a null node adds nothing. */
  method CollectOperators(node: Option<PlanNode>, operators: seq<Option<string>>) returns (r: seq<Option<string>>)
    ensures r == operators + NodeOperators(node)
    decreases node
  {
    if node.None? {
      return operators;
    }
    var n := node.value;
    r := operators + [n.name];
    if n.children.ChildNodes? {
      var children := n.children.nodes;
      var i := 0;
      while i < |children|
        invariant 0 <= i <= |children|
        invariant r == operators + [n.name] + PlanOperatorsOf(n, i)
      {
        assert children[i] in children;
        r := CollectOperators(children[i], r);
        i := i + 1;
      }
    }
  }

  /** The operators of every fragment, fragment by fragment in document order. */
  function FragmentsOperators(fragments: Fragments): seq<Option<string>> {
    if fragments == [] then []
    else FragmentsOperators(fragments[..|fragments| - 1]) + NodeOperators(fragments[|fragments| - 1].1)
  }

  /** One more fragment appends that fragment's operators. */
  lemma FragmentsOperatorsStep(fragments: Fragments, i: nat)
    requires i < |fragments|
    ensures FragmentsOperators(fragments[..i + 1]) == FragmentsOperators(fragments[..i]) + NodeOperators(fragments[i].1)
  {
    assert fragments[..i + 1][..i] == fragments[..i];
  }

  /** extractOperatorList: empty for a blank plan or one that does not decode. */
  function OperatorList(json: Option<string>, decode: PlanDecoder): seq<Option<string>> {
    if IsBlank(json) then []
    else
      match decode(json.value)
      case None => []
      case Some(fragments) => FragmentsOperators(fragments)
  }

  method ExtractOperatorList(json: Option<string>, decode: PlanDecoder) returns (operators: seq<Option<string>>)
    ensures operators == OperatorList(json, decode)
  {
    operators := [];
    if IsBlank(json) {
      return;
    }
    var decoded := decode(json.value);
    if decoded.None? {
      return;
    }
    var fragments := decoded.value;
    var i := 0;
    while i < |fragments|
      invariant 0 <= i <= |fragments|
      invariant operators == FragmentsOperators(fragments[..i])
    {
      FragmentsOperatorsStep(fragments, i);
      operators := CollectOperators(fragments[i].1, operators);
      i := i + 1;
    }
    assert fragments[..i] == fragments;
  }

  // ---------------------------------------------------------------------------
  // parseJsonPlan

  predicate HasFragment(fragments: Fragments, key: string) {
    exists i :: 0 <= i < |fragments| && fragments[i].0 == key
  }

  /** The position of a fragment id in the document. */
  function FragmentIndex(fragments: Fragments, key: string): (r: nat)
    requires HasFragment(fragments, key)
    ensures r < |fragments| && fragments[r].0 == key
  {
    if fragments[0].0 == key then 0
    else
      assert HasFragment(fragments[1..], key) by {
        var i :| 0 <= i < |fragments| && fragments[i].0 == key;
        assert fragments[1..][i - 1].0 == key;
      }
      1 + FragmentIndex(fragments[1..], key)
  }

  /** The root fragment: "0" when present, otherwise the first one. */
  function RootIndex(fragments: Fragments): (r: nat)
    requires fragments != []
    ensures r < |fragments|
    ensures fragments[r].0 == "0" <==> HasFragment(fragments, "0")
    ensures !HasFragment(fragments, "0") ==> r == 0
  {
    if HasFragment(fragments, "0") then FragmentIndex(fragments, "0") else 0
  }

  /** Every fragment converts without an exception (they are all converted before the
      root is picked). */
  predicate AllConvert(fragments: Fragments) {
    forall i :: 0 <= i < |fragments| ==>
      fragments[i].1.Some? && Convert(fragments[i].1.value, fragments[i].0).Some?
  }

  /** parseJsonPlan: null for blank text, a decoding failure, an empty plan or an
      exception in any fragment; otherwise the converted root fragment. */
  function ParseJsonPlan(json: Option<string>, decode: PlanDecoder): (r: Option<QueryTreeNode>)
    ensures IsBlank(json) ==> r.None?
    ensures r.Some? ==> decode(json.value).Some? && decode(json.value).value != []
    ensures r.Some? ==> var fragments := decode(json.value).value;
      var root := fragments[RootIndex(fragments)];
      && root.1.Some? && r.value.id == root.1.value.id && r.value.operatorType == root.1.value.name
      && r.value.nodeType == Some("OPERATOR")
  {
    if IsBlank(json) then None
    else
      match decode(json.value)
      case None => None
      case Some(fragments) =>
        if fragments == [] || !AllConvert(fragments) then None
        else
          var root := fragments[RootIndex(fragments)];
          Convert(root.1.value, root.0)
  }

  /** A plan parses exactly when the text is not blank, decodes to a non-empty map, and
      every fragment converts. */
  lemma ParseJsonPlanSucceeds(json: Option<string>, decode: PlanDecoder)
    ensures ParseJsonPlan(json, decode).Some? <==>
      !IsBlank(json) && decode(json.value).Some? && decode(json.value).value != [] && AllConvert(decode(json.value).value)
  {
  }

  /** A parsed plan is the root fragment's tree: every node records the root fragment's
      id ("0" when the plan has one), and its operators in preorder are listed,
      contiguously, by extractOperatorList on the same text. */
  lemma ParsedPlanRoot(json: Option<string>, decode: PlanDecoder)
    requires ParseJsonPlan(json, decode).Some?
    ensures var fragments := decode(json.value).value;
      var root := fragments[RootIndex(fragments)];
      && InFragment(ParseJsonPlan(json, decode).value, root.0)
      && (HasFragment(fragments, "0") ==> root.0 == "0")
      && TreeOperators(ParseJsonPlan(json, decode).value) == PlanOperators(root.1.value)
  {
    var fragments := decode(json.value).value;
    var root := fragments[RootIndex(fragments)];
    ConvertInFragment(root.1.value, root.0);
    ConvertKeepsOperators(root.1.value, root.0);
  }

  /** The operators of a parsed plan's tree, in preorder, are listed contiguously by
      extractOperatorList on the same text. */
  lemma ParsedOperatorsListed(json: Option<string>, decode: PlanDecoder)
    requires ParseJsonPlan(json, decode).Some?
    ensures exists i, j :: (0 <= i <= j <= |OperatorList(json, decode)| &&
      OperatorList(json, decode)[i..j] == TreeOperators(ParseJsonPlan(json, decode).value))
  {
    var fragments := decode(json.value).value;
    var root := fragments[RootIndex(fragments)];
    ParsedPlanRoot(json, decode);
    FragmentOperatorsListed(fragments, RootIndex(fragments));
    var ops := FragmentsOperators(fragments);
    var i, j :| 0 <= i <= j <= |ops| && ops[i..j] == PlanOperators(root.1.value);
    assert OperatorList(json, decode) == ops;
  }

  /** The operators of one fragment are a contiguous part of the operators of all. */
  lemma FragmentOperatorsListed(fragments: Fragments, k: nat)
    requires k < |fragments| && fragments[k].1.Some?
    ensures exists i, j :: (0 <= i <= j <= |FragmentsOperators(fragments)| &&
      FragmentsOperators(fragments)[i..j] == PlanOperators(fragments[k].1.value))
  {
    var root := fragments[k];
    SplitAt(fragments, k);
    FragmentsOperatorsConcat(fragments[..k] + [root], fragments[k + 1..]);
    FragmentsOperatorsConcat(fragments[..k], [root]);
    assert FragmentsOperators([root]) == PlanOperators(root.1.value) by {
      assert [root][..0] == [];
    }
    var before := FragmentsOperators(fragments[..k]);
    var ops := FragmentsOperators(fragments);
    var mid := PlanOperators(root.1.value);
    assert ops == before + mid + FragmentsOperators(fragments[k + 1..]);
    assert ops[|before|..|before| + |mid|] == mid;
  }

  lemma SplitAt<T>(s: seq<T>, k: nat)
    requires k < |s|
    ensures s == s[..k] + [s[k]] + s[k + 1..]
  {
  }

  /** The operators of a plan split into two parts are those of each part. */
  lemma {:induction false} FragmentsOperatorsConcat(a: Fragments, b: Fragments)
    ensures FragmentsOperators(a + b) == FragmentsOperators(a) + FragmentsOperators(b)
    decreases |b|
  {
    if b != [] {
      assert (a + b)[..|a + b| - 1] == a + b[..|b| - 1];
      FragmentsOperatorsConcat(a, b[..|b| - 1]);
    } else {
      assert a + b == a;
    }
  }
}
