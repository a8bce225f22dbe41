/** service/QueryEventService.java: the events of each query, the catalog, schema and
    table indexes of query ids, and the query tree built from a query's events, either
    from the first event whose JSON plan parses or from the events' own metadata. */
module EventService {
  import opened Common
  import opened Strings
  import opened Model
  import opened Databases
  import opened PlanParser


  // ---------------------------------------------------------------------------
  // Events in timestamp order (events.sort(Comparator.comparing(getTimestamp)))

  predicate SortedByTime(events: seq<QueryEvent>) {
    forall i, j :: 0 <= i < j < |events| ==> events[i].timestamp <= events[j].timestamp
  }

  /** Places an event after every event of a list whose timestamp is not later. */
  function InsertByTime(events: seq<QueryEvent>, e: QueryEvent): (r: seq<QueryEvent>)
    ensures |r| == |events| + 1
  {
    if events == [] || events[|events| - 1].timestamp <= e.timestamp then events + [e]
    else InsertByTime(events[..|events| - 1], e) + [events[|events| - 1]]
  }

  /** List.sort by timestamp, a stable sort. */
  function SortByTime(events: seq<QueryEvent>): (r: seq<QueryEvent>)
    ensures |r| == |events|
  {
    if events == [] then [] else InsertByTime(SortByTime(events[..|events| - 1]), events[|events| - 1])
  }

  /** The events of a list that carry timestamp t, in list order. */
  function AtTime(events: seq<QueryEvent>, t: Instant): seq<QueryEvent> {
    if events == [] then []
    else AtTime(events[..|events| - 1], t) + if events[|events| - 1].timestamp == t then [events[|events| - 1]] else []
  }

  lemma {:induction false} InsertByTimeSorted(events: seq<QueryEvent>, e: QueryEvent)
    requires SortedByTime(events)
    ensures SortedByTime(InsertByTime(events, e))
    decreases |events|
  {
    if events != [] && events[|events| - 1].timestamp > e.timestamp {
      var init := events[..|events| - 1];
      var last := events[|events| - 1];
      InsertByTimeSorted(init, e);
      InsertByTimeMembers(init, e);
      var r := InsertByTime(init, e);
      forall x | x in r ensures x.timestamp <= last.timestamp {
        assert x in multiset(r);
        if x != e {
          assert x in multiset(init);
          var i :| 0 <= i < |init| && init[i] == x;
        }
      }
    }
  }

  /** Inserting adds the one event and nothing else. */
  lemma {:induction false} InsertByTimeMembers(events: seq<QueryEvent>, e: QueryEvent)
    ensures multiset(InsertByTime(events, e)) == multiset(events) + multiset{e}
    decreases |events|
  {
    if events != [] && events[|events| - 1].timestamp > e.timestamp {
      var init := events[..|events| - 1];
      InsertByTimeMembers(init, e);
      assert events == init + [events[|events| - 1]];
    }
  }

  /** Inserting an event keeps the order of the events of each timestamp. */
  lemma {:induction false} InsertByTimeStable(events: seq<QueryEvent>, e: QueryEvent, t: Instant)
    ensures AtTime(InsertByTime(events, e), t) == AtTime(events, t) + if e.timestamp == t then [e] else []
    decreases |events|
  {
    var r := InsertByTime(events, e);
    if events == [] || events[|events| - 1].timestamp <= e.timestamp {
      assert r[..|r| - 1] == events;
    } else {
      var init := events[..|events| - 1];
      InsertByTimeStable(init, e, t);
      assert r[..|r| - 1] == InsertByTime(init, e);
    }
  }

  /** Sorting yields the same events in timestamp order, and events with equal
      timestamps keep their relative order. */
  lemma {:induction false} SortByTimeSpec(events: seq<QueryEvent>)
    ensures SortedByTime(SortByTime(events))
    ensures multiset(SortByTime(events)) == multiset(events)
    ensures forall t :: AtTime(SortByTime(events), t) == AtTime(events, t)
    decreases |events|
  {
    if events != [] {
      var init := events[..|events| - 1];
      var last := events[|events| - 1];
      SortByTimeSpec(init);
      InsertByTimeSorted(SortByTime(init), last);
      InsertByTimeMembers(SortByTime(init), last);
      assert events == init + [last];
      forall t ensures AtTime(SortByTime(events), t) == AtTime(events, t) {
        InsertByTimeStable(SortByTime(init), last, t);
      }
    }
  }

  /** A sorted list is left as it is. */
  lemma {:induction false} SortSortedUnchanged(events: seq<QueryEvent>)
    requires SortedByTime(events)
    ensures SortByTime(events) == events
    decreases |events|
  {
    if events != [] {
      var init := events[..|events| - 1];
      assert SortedByTime(init);
      SortSortedUnchanged(init);
      assert events == init + [events[|events| - 1]];
    }
  }

  /** Appending an event to a sorted list and sorting inserts the event after every
      event whose timestamp is not later. */
  lemma AppendThenSort(events: seq<QueryEvent>, e: QueryEvent)
    requires SortedByTime(events)
    ensures SortByTime(events + [e]) == InsertByTime(events, e)
  {
    assert (events + [e])[..|events|] == events;
    SortSortedUnchanged(events);
  }

  // ---------------------------------------------------------------------------
  // The catalog, schema and table indexes

  /** The schema index key: "catalog.schema", or the bare schema without a catalog. */
  function SchemaKey(e: QueryEvent): Option<string> {
    if e.schema.None? then None
    else Some((if e.catalog.Some? then e.catalog.value + "." else "") + e.schema.value)
  }

  /** The table index key: "catalog.schema.table", leaving out a missing catalog or schema. */
  function TableKey(e: QueryEvent): Option<string> {
    if e.tableName.None? then None
    else Some((if e.catalog.Some? then e.catalog.value + "." else "")
              + (if e.schema.Some? then e.schema.value + "." else "") + e.tableName.value)
  }

  /** computeIfAbsent(key, new HashSet).add(queryId), skipped for a null key. */
  function Indexed(index: map<string, set<string>>, key: Option<string>, queryId: string): (r: map<string, set<string>>)
    ensures key.Some? ==> r.Keys == index.Keys + {key.value} && queryId in r[key.value]
    ensures key.None? ==> r == index
    ensures forall k :: k in index ==> index[k] <= r[k]
    ensures forall k :: k in r ==> r[k] <= (if k in index then index[k] else {}) + {queryId}
  {
    if key.None? then index
    else index[key.value := (if key.value in index then index[key.value] else {}) + {queryId}]
  }

  /** A table key extends the schema key with the table name. */
  lemma TableKeyExtendsSchemaKey(e: QueryEvent)
    requires e.schema.Some? && e.tableName.Some?
    ensures TableKey(e) == Some(SchemaKey(e).value + "." + e.tableName.value)
  {
    var c := if e.catalog.Some? then e.catalog.value + "." else "";
    assert c + (e.schema.value + ".") + e.tableName.value == (c + e.schema.value) + "." + e.tableName.value;
  }

  // ---------------------------------------------------------------------------
  // The tree built from event metadata (buildTreeFromEventMetadata)

  /** Java string concatenation prints a null string as "null". */
  function Printed(s: Option<string>): string {
    if s.Some? then s.value else "null"
  }

  /** generateNodeId: queryId-eventType-epochMillis. */
  function NodeId(e: QueryEvent): string {
    Printed(e.queryId) + "-" + Printed(e.eventType) + "-" + IntToString(e.timestamp)
  }

  /** extractOperatorType: the "operatorType" entry as a string, or "UNKNOWN"; a null
      entry throws on toString(). */
  function ExtractOperatorType(stats: seq<(string, Value)>): (r: Outcome<string>)
    ensures !HasKey(stats, "operatorType") ==> r == Returned("UNKNOWN")
    ensures r.Thrown? <==> Get(stats, "operatorType") == Some(Null)
  {
    if HasKey(stats, "operatorType") then
      var v := Get(stats, "operatorType").value;
      if v.Null? then Thrown else Returned(Render(v))
    else Returned("UNKNOWN")
  }

  /** The node the builder creates for the first event with a given node id. */
  function NewNode(e: QueryEvent): QueryTreeNode {
    EmptyNode.(id := Some(NodeId(e)), queryId := e.queryId, state := e.state,
               executionTime := e.executionTime, cpuTime := e.cpuTime, wallTime := e.wallTime,
               memoryBytes := e.peakMemoryBytes, inputRows := e.totalRows, inputBytes := e.totalBytes,
               errorMessage := e.errorMessage, sourceSystem := e.catalog, metadata := e.metadata)
  }

  /** A child built by buildOperatorHierarchy from one entry of a "children" list. */
  function OperatorNode(childId: string, queryId: Option<string>, parentId: string, operatorType: string,
                        stats: seq<(string, Value)>, children: seq<QueryTreeNode>): QueryTreeNode {
    EmptyNode.(id := Some(childId), queryId := queryId, parentId := Some(parentId),
               operatorType := Some(operatorType), nodeType := Some("OPERATOR"),
               metadata := Some(stats), children := children)
  }

  /** The id of a child: the parent's id, "-child-", and a fresh id, the number of ids
      issued so far. */
  function ChildId(parentId: string, uuid: nat): string {
    parentId + "-child-" + NatToString(uuid)
  }

  /** buildOperatorHierarchy on the operator statistics `stats` (a map) of the node
      `parentId`: the children it appends, and the count of fresh ids afterwards. A
      "children" value that is not a list adds nothing; an entry of the list that is not
      a map (or is null) throws. */
  function Hierarchy(parentId: string, queryId: Option<string>, stats: Value, uuids: nat): (r: Outcome<(seq<QueryTreeNode>, nat)>)
    requires stats.Obj?
    ensures r.Returned? ==> r.value.1 >= uuids
    decreases stats, 1
  {
    var c := Get(stats.entries, "children");
    if c.Some? && c.value.List? then
      assert c.value < stats by {
        var i :| 0 <= i < |stats.entries| && stats.entries[i] == ("children", c.value);
        assert stats.entries[i] in stats.entries;
      }
      HierarchyItems(parentId, queryId, c.value, |c.value.items|, uuids)
    else Returned(([], uuids))
  }

  /** The children built from the first k entries of a "children" list. */
  function HierarchyItems(parentId: string, queryId: Option<string>, list: Value, k: nat, uuids: nat): (r: Outcome<(seq<QueryTreeNode>, nat)>)
    requires list.List? && k <= |list.items|
    ensures r.Returned? ==> |r.value.0| == k && r.value.1 >= uuids + k
    decreases list, 0, k
  {
    if k == 0 then Returned(([], uuids))
    else
      match HierarchyItems(parentId, queryId, list, k - 1, uuids)
      case Thrown => Thrown
      case Returned((cs, u)) =>
        match Child(parentId, queryId, list.items[k - 1], u)
        case Thrown => Thrown
        case Returned((child, u')) => Returned((cs + [child], u'))
  }

  /** The child built from one entry of a "children" list, whose fresh id is the
      `uuids`-th: an entry that is not a map (or is null) throws. */
  function Child(parentId: string, queryId: Option<string>, item: Value, uuids: nat): (r: Outcome<(QueryTreeNode, nat)>)
    ensures r.Returned? ==> r.value.1 > uuids
    decreases item, 2
  {
    if !item.Obj? then Thrown
    else
      var childId := ChildId(parentId, uuids);
      match ExtractOperatorType(item.entries)
      case Thrown => Thrown
      case Returned(op) =>
        match Hierarchy(childId, queryId, item, uuids + 1)
        case Thrown => Thrown
        case Returned((grandchildren, u)) =>
          Returned((OperatorNode(childId, queryId, parentId, op, item.entries, grandchildren), u))
  }

  /** Every child built from the k-th entry of a "children" list is an OPERATOR node below
      the parent, with that entry as its metadata, in list order. */
  lemma {:induction false} HierarchyItemsShape(parentId: string, queryId: Option<string>, list: Value, k: nat, uuids: nat)
    requires list.List? && k <= |list.items|
    requires HierarchyItems(parentId, queryId, list, k, uuids).Returned?
    ensures var cs := HierarchyItems(parentId, queryId, list, k, uuids).value.0;
      forall i :: 0 <= i < k ==>
        && list.items[i].Obj?
        && cs[i].parentId == Some(parentId) && cs[i].nodeType == Some("OPERATOR")
        && cs[i].queryId == queryId && cs[i].metadata == Some(list.items[i].entries)
        && cs[i].operatorType.Some? && Returned(cs[i].operatorType.value) == ExtractOperatorType(list.items[i].entries)
  {
    if k > 0 {
      HierarchyItemsShape(parentId, queryId, list, k - 1, uuids);
    }
  }

  /** The children appended for a "children" list have the list's length, one per entry. */
  lemma HierarchyShape(parentId: string, queryId: Option<string>, stats: Value, uuids: nat)
    requires stats.Obj? && Hierarchy(parentId, queryId, stats, uuids).Returned?
    ensures var cs := Hierarchy(parentId, queryId, stats, uuids).value.0;
      var c := Get(stats.entries, "children");
      && (c.Some? && c.value.List? ==> |cs| == |c.value.items| && forall i :: 0 <= i < |cs| ==>
            c.value.items[i].Obj? && cs[i].parentId == Some(parentId) && cs[i].nodeType == Some("OPERATOR") && cs[i].metadata == Some(c.value.items[i].entries))
      && (!(c.Some? && c.value.List?) ==> cs == [])
  {
    var c := Get(stats.entries, "children");
    if c.Some? && c.value.List? {
      HierarchyItemsShape(parentId, queryId, c.value, |c.value.items|, uuids);
    }
  }

  /** The builder's state: the node of each id, the first event's node id, and the number
      of fresh ids issued. */
  datatype Builder = Builder(nodes: map<string, QueryTreeNode>, rootId: Option<string>, uuids: nat)

  /** Applies the stage statistics of an event to its node. */
  function StageStep(node: QueryTreeNode, stageStats: Option<seq<(string, Value)>>): Outcome<QueryTreeNode> {
    if stageStats.None? then Returned(node)
    else
      match ExtractOperatorType(stageStats.value)
      case Thrown => Thrown
      case Returned(op) => Returned(node.(operatorType := Some(op), nodeType := Some("STAGE")))
  }

  /** One iteration of the builder's loop. */
  function MetadataStep(b: Builder, e: QueryEvent): (r: Outcome<Builder>)
    ensures r.Returned? ==> r.value.nodes.Keys == b.nodes.Keys + {NodeId(e)}
    ensures r.Returned? ==> r.value.rootId == if b.rootId.None? then Some(NodeId(e)) else b.rootId
  {
    var id := NodeId(e);
    var node := if id in b.nodes then b.nodes[id] else NewNode(e);
    match StageStep(node, e.stageStats)
    case Thrown => Thrown
    case Returned(staged) =>
      if e.operatorStats.None? then Returned(Builder(b.nodes[id := staged], if b.rootId.None? then Some(id) else b.rootId, b.uuids))
      else
        match Hierarchy(id, staged.queryId, Obj(e.operatorStats.value), b.uuids)
        case Thrown => Thrown
        case Returned((children, u)) =>
          Returned(Builder(b.nodes[id := staged.(children := staged.children + children)],
                           if b.rootId.None? then Some(id) else b.rootId, u))
  }

  /** A later event with an existing node id reuses that node: its execution figures,
      state, error, source and metadata stay those of the first event with that id. Only
      the event's stage stats change it, setting the operator type and the STAGE type. */
  lemma MetadataStepReuses(b: Builder, e: QueryEvent)
    requires NodeId(e) in b.nodes && MetadataStep(b, e).Returned?
    ensures var before := b.nodes[NodeId(e)];
      var after := MetadataStep(b, e).value.nodes[NodeId(e)];
      && after.id == before.id && after.queryId == before.queryId && after.state == before.state
      && after.executionTime == before.executionTime && after.cpuTime == before.cpuTime
      && after.wallTime == before.wallTime && after.memoryBytes == before.memoryBytes
      && after.inputRows == before.inputRows && after.inputBytes == before.inputBytes
      && after.errorMessage == before.errorMessage && after.sourceSystem == before.sourceSystem
      && after.metadata == before.metadata && after.parentId == before.parentId
      && after.children[..|before.children|] == before.children
    ensures var before := b.nodes[NodeId(e)];
      var after := MetadataStep(b, e).value.nodes[NodeId(e)];
      if e.stageStats.None? then
        after.operatorType == before.operatorType && after.nodeType == before.nodeType
      else
        ExtractOperatorType(e.stageStats.value).Returned?
        && after.operatorType == Some(ExtractOperatorType(e.stageStats.value).value)
        && after.nodeType == Some("STAGE")
  {
  }

  /** The keys f gives the elements of a list. */
  function Keys<T>(xs: seq<T>, f: T -> string): set<string> {
    if xs == [] then {} else Keys(xs[..|xs| - 1], f) + {f(xs[|xs| - 1])}
  }

  lemma {:induction false} KeysMembers<T>(xs: seq<T>, f: T -> string, k: string)
    ensures k in Keys(xs, f) <==> exists i :: 0 <= i < |xs| && f(xs[i]) == k
    decreases |xs|
  {
    if xs != [] {
      var init := xs[..|xs| - 1];
      KeysMembers(init, f, k);
      if k in Keys(init, f) {
        var i :| 0 <= i < |init| && f(init[i]) == k;
        assert xs[i] == init[i];
      }
      if exists i :: 0 <= i < |xs| && f(xs[i]) == k {
        var i :| 0 <= i < |xs| && f(xs[i]) == k;
        if i < |init| {
          assert init[i] == xs[i];
        }
      }
    }
  }

  /** The node ids of a list of events. */
  function NodeIds(events: seq<QueryEvent>): set<string> {
    Keys(events, NodeId)
  }

  lemma NodeIdsMembers(events: seq<QueryEvent>, id: string)
    ensures id in NodeIds(events) <==> exists i :: 0 <= i < |events| && NodeId(events[i]) == id
  {
    KeysMembers(events, NodeId, id);
  }

  /** The builder's state after the loop has run over `events`. */
  function MetadataFold(events: seq<QueryEvent>, uuids: nat): Outcome<Builder> {
    if events == [] then Returned(Builder(map[], None, uuids))
    else
      match MetadataFold(events[..|events| - 1], uuids)
      case Thrown => Thrown
      case Returned(b) => MetadataStep(b, events[|events| - 1])
  }

  /** The builder makes one node per distinct node id, and the root is the first
      event's node. */
  lemma {:induction false} MetadataFoldNodes(events: seq<QueryEvent>, uuids: nat)
    requires MetadataFold(events, uuids).Returned?
    ensures MetadataFold(events, uuids).value.nodes.Keys == NodeIds(events)
    ensures MetadataFold(events, uuids).value.rootId == if events == [] then None else Some(NodeId(events[0]))
    ensures events != [] ==> NodeId(events[0]) in MetadataFold(events, uuids).value.nodes
    decreases |events|
  {
    if events != [] {
      var init := events[..|events| - 1];
      MetadataFoldNodes(init, uuids);
      if init != [] {
        assert init[0] == events[0];
      }
    }
  }

  /** buildTreeFromEventMetadata: the first event's node, and the fresh ids issued. */
  function MetadataTree(events: seq<QueryEvent>, uuids: nat): Outcome<(Option<QueryTreeNode>, nat)> {
    match MetadataFold(events, uuids)
    case Thrown => Thrown
    case Returned(b) =>
      MetadataFoldNodes(events, uuids);
      if events == [] then Returned((None, b.uuids))
      else
        Returned((Some(b.nodes[NodeId(events[0])]), b.uuids))
  }

  // ---------------------------------------------------------------------------
  // The tree built from a JSON plan (buildTreeFromEvents, enrichTreeWithEventData)

  /** enrichTreeWithEventData: the event's query id, state and catalog on every node. */
  function Enrich(t: QueryTreeNode, e: QueryEvent): (r: QueryTreeNode)
    ensures |r.children| == |t.children|
    decreases t
  {
    t.(queryId := e.queryId, state := e.state, sourceSystem := e.catalog,
       children := seq(|t.children|, i requires 0 <= i < |t.children| => Enrich(t.children[i], e)))
  }

  predicate EnrichedBy(t: QueryTreeNode, e: QueryEvent) {
    && t.queryId == e.queryId && t.state == e.state && t.sourceSystem == e.catalog
    && forall i :: 0 <= i < |t.children| ==> EnrichedBy(t.children[i], e)
  }

  /** Every node of an enriched tree carries the event's query id, state and catalog. */
  lemma {:induction false} EnrichReachesEveryNode(t: QueryTreeNode, e: QueryEvent)
    ensures EnrichedBy(Enrich(t, e), e)
    decreases t
  {
    var r := Enrich(t, e);
    forall i | 0 <= i < |r.children| ensures EnrichedBy(r.children[i], e) {
      EnrichReachesEveryNode(t.children[i], e);
    }
  }

  /** Enrichment keeps the tree's shape and operator types. */
  lemma {:induction false} EnrichKeepsOperators(t: QueryTreeNode, e: QueryEvent)
    ensures TreeOperators(Enrich(t, e)) == TreeOperators(t)
    decreases t, 1
  {
    EnrichKeepsOperatorsOf(t, e, |t.children|);
  }

  lemma {:induction false} EnrichKeepsOperatorsOf(t: QueryTreeNode, e: QueryEvent, k: nat)
    requires k <= |t.children|
    ensures TreeOperatorsOf(Enrich(t, e), k) == TreeOperatorsOf(t, k)
    decreases t, 0, k
  {
    if k > 0 {
      var r := Enrich(t, e);
      assert r.children[k - 1] == Enrich(t.children[k - 1], e);
      EnrichKeepsOperatorsOf(t, e, k - 1);
      EnrichKeepsOperators(t.children[k - 1], e);
    }
  }

  /** The plan of an event, when it is not blank and parses. */
  function ParsedPlan(e: QueryEvent, decode: PlanDecoder): Option<QueryTreeNode> {
    if IsBlank(e.jsonPlan) then None else ParseJsonPlan(e.jsonPlan, decode)
  }

  /** The plan each event yields, if any. */
  type PlanReader = QueryEvent -> Option<QueryTreeNode>

  function PlansOf(decode: PlanDecoder): PlanReader {
    e => ParsedPlan(e, decode)
  }

  /** The loop of buildTreeFromEvents from position i: the enriched plan of the first
      event whose plan parses. */
  function PlanTreeFrom(events: seq<QueryEvent>, plans: PlanReader, i: nat): Option<QueryTreeNode>
    requires i <= |events|
    decreases |events| - i
  {
    if i == |events| then None
    else
      match plans(events[i])
      case Some(t) => Some(Enrich(t, events[i]))
      case None => PlanTreeFrom(events, plans, i + 1)
  }

  /** There is no plan tree exactly when no event's plan parses. */
  lemma {:induction false} PlanTreeFromNone(events: seq<QueryEvent>, plans: PlanReader, i: nat)
    requires i <= |events|
    ensures PlanTreeFrom(events, plans, i).None? <==>
      forall k :: i <= k < |events| ==> plans(events[k]).None?
    decreases |events| - i
  {
    if i < |events| && plans(events[i]).None? {
      PlanTreeFromNone(events, plans, i + 1);
    }
  }

  /** The plan tree comes from the first event whose plan parses, enriched with that
      event. */
  lemma {:induction false} PlanTreeFromFirst(events: seq<QueryEvent>, plans: PlanReader, i: nat)
    requires i <= |events| && PlanTreeFrom(events, plans, i).Some?
    ensures exists j :: (i <= j < |events|
      && plans(events[j]).Some?
      && (forall k :: i <= k < j ==> plans(events[k]).None?)
      && PlanTreeFrom(events, plans, i) == Some(Enrich(plans(events[j]).value, events[j])))
    decreases |events| - i
  {
    if plans(events[i]).None? {
      PlanTreeFromFirst(events, plans, i + 1);
      var j :| i + 1 <= j < |events|
        && plans(events[j]).Some?
        && (forall k :: i + 1 <= k < j ==> plans(events[k]).None?)
        && PlanTreeFrom(events, plans, i + 1) == Some(Enrich(plans(events[j]).value, events[j]));
      assert forall k :: i <= k < j ==> plans(events[k]).None?;
    }
  }

  /** buildTreeFromEvents: the plan tree if some event's plan parses, otherwise the
      metadata tree. */
  function TreeFromEvents(events: seq<QueryEvent>, decode: PlanDecoder, uuids: nat): Outcome<(Option<QueryTreeNode>, nat)> {
    match PlanTreeFrom(events, PlansOf(decode), 0)
    case Some(t) => Returned((Some(t), uuids))
    case None => MetadataTree(events, uuids)
  }

  /** buildQueryTree on the stored (sorted) events of a query: null for none; otherwise
      the summary of the first and the last event, and the tree. */
  function QueryTreeOf(queryId: string, events: seq<QueryEvent>, decode: PlanDecoder, uuids: nat): Outcome<(Option<QueryTree>, nat)> {
    if events == [] then Returned((None, uuids))
    else
      match TreeFromEvents(events, decode, uuids)
      case Thrown => Thrown
      case Returned((root, u)) =>
        var last := events[|events| - 1];
        Returned((Some(QueryTree(queryId, last.query, last.user, last.state, events[0].timestamp, last.timestamp,
                                 last.executionTime, last.errorMessage, root, events)), u))
  }

  /** A built tree spans its events: it starts at the earliest timestamp and ends at the
      latest, takes query, user, state and error from the latest event, and never lacks
      a root. */
  lemma QueryTreeSpan(queryId: string, events: seq<QueryEvent>, decode: PlanDecoder, uuids: nat)
    requires SortedByTime(events) && events != []
    requires QueryTreeOf(queryId, events, decode, uuids).Returned?
    ensures var t := QueryTreeOf(queryId, events, decode, uuids).value.0;
      && t.Some? && t.value.events == events && t.value.root.Some?
      && (forall i :: 0 <= i < |events| ==> t.value.startTime <= events[i].timestamp <= t.value.endTime)
      && t.value.state == events[|events| - 1].state && t.value.errorMessage == events[|events| - 1].errorMessage
  {
  }

  // ---------------------------------------------------------------------------
  // Once thrown, an exception ends the loop

  lemma {:induction false} HierarchyItemsThrownLater(parentId: string, queryId: Option<string>, list: Value, k: nat, k': nat, uuids: nat)
    requires list.List? && k <= k' <= |list.items|
    requires HierarchyItems(parentId, queryId, list, k, uuids).Thrown?
    ensures HierarchyItems(parentId, queryId, list, k', uuids).Thrown?
    decreases k'
  {
    if k' > k {
      HierarchyItemsThrownLater(parentId, queryId, list, k, k' - 1, uuids);
    }
  }

  /** The builder after one more event. */
  lemma MetadataFoldNext(events: seq<QueryEvent>, i: nat, uuids: nat)
    requires i < |events|
    ensures MetadataFold(events[..i + 1], uuids) ==
      match MetadataFold(events[..i], uuids)
      case Thrown => Thrown
      case Returned(b) => MetadataStep(b, events[i])
  {
    assert events[..i + 1][..i] == events[..i];
  }

  lemma {:induction false} MetadataFoldThrownLater(events: seq<QueryEvent>, k: nat, uuids: nat)
    requires k <= |events| && MetadataFold(events[..k], uuids).Thrown?
    ensures MetadataFold(events, uuids).Thrown?
    decreases |events|
  {
    if k < |events| {
      var init := events[..|events| - 1];
      assert init[..k] == events[..k];
      MetadataFoldThrownLater(init, k, uuids);
    } else {
      assert events[..k] == events;
    }
  }

  // ---------------------------------------------------------------------------
  // The service

  /** UUID.randomUUID: a source of fresh ids, here the number of ids issued so far. */
  class UuidSource {
    var issued: nat

    constructor()
      ensures issued == 0
    {
      issued := 0;
    }

    method Next() returns (id: nat)
      modifies this
      ensures id == old(issued) && issued == old(issued) + 1
    {
      id := issued;
      issued := issued + 1;
    }
  }

  /** The events stored for a query, none for an unknown one. */
  function StoredEvents(queryEvents: map<string, seq<QueryEvent>>, queryId: string): seq<QueryEvent> {
    if queryId in queryEvents then queryEvents[queryId] else []
  }

  /** Every query id in an index has stored events. */
  predicate IdsKnown(index: map<string, set<string>>, queryIds: set<string>) {
    forall k :: k in index ==> index[k] <= queryIds
  }

  /** Every stored list is non-empty and holds only events of its query. */
  predicate EventsFiled(queryEvents: map<string, seq<QueryEvent>>) {
    && (forall q :: q in queryEvents ==> queryEvents[q] != [])
    && (forall q, i :: q in queryEvents && 0 <= i < |queryEvents[q]| ==> queryEvents[q][i].queryId == Some(q))
  }

  /** Every stored list is in timestamp order. */
  predicate AllSorted(queryEvents: map<string, seq<QueryEvent>>) {
    forall q :: q in queryEvents ==> SortedByTime(queryEvents[q])
  }

  /** The service's state holds together: its lists are filed and every indexed query id
      has stored events. */
  predicate StateFiled(queryEvents: map<string, seq<QueryEvent>>, catalogQueries: map<string, set<string>>,
                  schemaQueries: map<string, set<string>>, tableQueries: map<string, set<string>>) {
    && EventsFiled(queryEvents)
    && IdsKnown(catalogQueries, queryEvents.Keys)
    && IdsKnown(schemaQueries, queryEvents.Keys)
    && IdsKnown(tableQueries, queryEvents.Keys)
  }

  /** Indexing a query id that has stored events keeps every indexed id known. */
  lemma IndexedKnown(index: map<string, set<string>>, key: Option<string>, queryId: string, queryIds: set<string>)
    requires IdsKnown(index, queryIds) && queryId in queryIds
    ensures IdsKnown(Indexed(index, key, queryId), queryIds)
  {
  }

  /** Storing an event of a query and indexing its id keeps the state filed. */
  lemma StoreKeepsFiled(queryEvents: map<string, seq<QueryEvent>>, catalogQueries: map<string, set<string>>,
                        schemaQueries: map<string, set<string>>, tableQueries: map<string, set<string>>,
                        e: QueryEvent, q: string)
    requires StateFiled(queryEvents, catalogQueries, schemaQueries, tableQueries) && e.queryId == Some(q)
    ensures var stored := queryEvents[q := StoredEvents(queryEvents, q) + [e]];
      StateFiled(stored, Indexed(catalogQueries, e.catalog, q), Indexed(schemaQueries, SchemaKey(e), q),
            Indexed(tableQueries, TableKey(e), q))
  {
    var stored := queryEvents[q := StoredEvents(queryEvents, q) + [e]];
    IndexedKnown(catalogQueries, e.catalog, q, stored.Keys);
    IndexedKnown(schemaQueries, SchemaKey(e), q, stored.Keys);
    IndexedKnown(tableQueries, TableKey(e), q, stored.Keys);
  }

  /** Sorting one stored list keeps the lists filed and leaves that list sorted. */
  lemma SortKeepsFiled(queryEvents: map<string, seq<QueryEvent>>, q: string)
    requires EventsFiled(queryEvents) && q in queryEvents
    ensures EventsFiled(queryEvents[q := SortByTime(queryEvents[q])])
    ensures SortedByTime(SortByTime(queryEvents[q]))
  {
    SortByTimeSpec(queryEvents[q]);
    SortedKeepsQuery(queryEvents[q], q);
  }

  lemma UpdateTwice<K, V>(m: map<K, V>, k: K, a: V, b: V)
    ensures m[k := a][k := b] == m[k := b]
  {
  }

  /** Replacing one list by a sorted one keeps the others sorted. */
  lemma ResortKeepsSorted(queryEvents: map<string, seq<QueryEvent>>, q: string, events: seq<QueryEvent>)
    requires forall k :: k in queryEvents && k != q ==> SortedByTime(queryEvents[k])
    requires SortedByTime(events)
    ensures AllSorted(queryEvents[q := events])
  {
  }

  /** getDatabaseSummary */
  datatype DatabaseSummary = DatabaseSummary(
    catalogs: set<string>,
    schemas: set<string>,
    tables: set<string>,
    totalQueries: nat,
    catalogQueryCounts: map<string, nat>)

  class QueryEventService {
    var queryEvents: map<string, seq<QueryEvent>>
    var catalogQueries: map<string, set<string>>
    var schemaQueries: map<string, set<string>>
    var tableQueries: map<string, set<string>>
    const databaseService: DatabaseService
    /** The JSON decoding of the query plan parser. */
    const decodePlan: PlanDecoder
    const uuids: UuidSource

    /** The stored lists are filed and every indexed query id has stored events. */
    predicate Filed()
      reads this
    {
      StateFiled(queryEvents, catalogQueries, schemaQueries, tableQueries)
    }

    /** Between calls the stored lists are also in timestamp order. */
    predicate Valid()
      reads this
    {
      Filed() && AllSorted(queryEvents)
    }

    constructor(databaseService: DatabaseService, decodePlan: PlanDecoder, uuids: UuidSource)
      ensures this.databaseService == databaseService && this.decodePlan == decodePlan && this.uuids == uuids
      ensures queryEvents == map[] && catalogQueries == map[] && schemaQueries == map[] && tableQueries == map[]
      ensures Valid()
    {
      this.databaseService := databaseService;
      this.decodePlan := decodePlan;
      this.uuids := uuids;
      queryEvents := map[];
      catalogQueries := map[];
      schemaQueries := map[];
      tableQueries := map[];
    }

    /** processEvent: store the event, register its databases, index its query id under
        its catalog, schema and table, and rebuild the query's tree, which sorts the
        stored events. `thrown` reports an exception: a null event or query id (the
        concurrent map refuses a null key) before anything changes, or one raised while
        building the tree. */
    method ProcessEvent(event: Option<QueryEvent>) returns (thrown: bool)
      requires Valid()
      modifies this, databaseService, uuids
      ensures Valid()
      ensures event.None? || event.value.queryId.None? ==>
        thrown && unchanged(this) && unchanged(databaseService) && unchanged(uuids)
      ensures event.Some? && event.value.queryId.Some? ==>
        var e := event.value;
        var q := e.queryId.value;
        && queryEvents == old(queryEvents)[q := InsertByTime(StoredEvents(old(queryEvents), q), e)]
        && catalogQueries == Indexed(old(catalogQueries), e.catalog, q)
        && schemaQueries == Indexed(old(schemaQueries), SchemaKey(e), q)
        && tableQueries == Indexed(old(tableQueries), TableKey(e), q)
        && databaseService.State() == ProcessEventSpec(old(databaseService.State()), event)
        && (thrown <==> QueryTreeOf(q, queryEvents[q], decodePlan, old(uuids.issued)).Thrown?)
        && (!thrown ==> uuids.issued == QueryTreeOf(q, queryEvents[q], decodePlan, old(uuids.issued)).value.1)
    {
      if event.None? || event.value.queryId.None? {
        return true;
      }
      thrown := ProcessQueryEvent(event.value, event.value.queryId.value);
      assert databaseService.State() == ProcessEventSpec(old(databaseService.State()), event);
    }

    /** processEvent for an event with the query id q. */
    method ProcessQueryEvent(e: QueryEvent, q: string) returns (thrown: bool)
      requires Valid() && e.queryId == Some(q)
      modifies this, databaseService, uuids
      ensures Valid()
      ensures queryEvents == old(queryEvents)[q := InsertByTime(StoredEvents(old(queryEvents), q), e)]
      ensures catalogQueries == Indexed(old(catalogQueries), e.catalog, q)
      ensures schemaQueries == Indexed(old(schemaQueries), SchemaKey(e), q)
      ensures tableQueries == Indexed(old(tableQueries), TableKey(e), q)
      ensures databaseService.State() == ProcessEventSpec(old(databaseService.State()), Some(e))
      ensures thrown <==> QueryTreeOf(q, queryEvents[q], decodePlan, old(uuids.issued)).Thrown?
      ensures !thrown ==> uuids.issued == QueryTreeOf(q, queryEvents[q], decodePlan, old(uuids.issued)).value.1
    {
      ghost var before := queryEvents;
      ghost var stored := StoredEvents(queryEvents, q);
      Record(e, q);
      databaseService.ProcessEvent(Some(e));
      ghost var recorded := queryEvents;
      assert recorded == before[q := stored + [e]];
      var tree := BuildQueryTree(q);
      AppendThenSort(stored, e);
      assert queryEvents == recorded[q := InsertByTime(stored, e)];
      UpdateTwice(before, q, stored + [e], InsertByTime(stored, e));
      ResortKeepsSorted(recorded, q, InsertByTime(stored, e));
      thrown := tree.Thrown?;
    }

    /** The first steps of processEvent for an event of query q: store the event and index
        q under the event's catalog, schema and table. (The registration of its databases,
        which processEvent does in between, touches no state of this service.) */
    method Record(e: QueryEvent, q: string)
      requires Valid() && e.queryId == Some(q)
      modifies this
      ensures queryEvents == old(queryEvents)[q := StoredEvents(old(queryEvents), q) + [e]]
      ensures catalogQueries == Indexed(old(catalogQueries), e.catalog, q)
      ensures schemaQueries == Indexed(old(schemaQueries), SchemaKey(e), q)
      ensures tableQueries == Indexed(old(tableQueries), TableKey(e), q)
      ensures Filed() && SortedByTime(StoredEvents(old(queryEvents), q))
      ensures forall k :: k in queryEvents && k != q ==> SortedByTime(queryEvents[k])
    {
      var stored := StoredEvents(queryEvents, q);
      StoreKeepsFiled(queryEvents, catalogQueries, schemaQueries, tableQueries, e, q);
      queryEvents := queryEvents[q := stored + [e]];
      catalogQueries := Indexed(catalogQueries, e.catalog, q);
      schemaQueries := Indexed(schemaQueries, SchemaKey(e), q);
      tableQueries := Indexed(tableQueries, TableKey(e), q);
    }

    /** buildQueryTree (and getQueryTree): null for a query without events; otherwise the
        stored events are sorted by timestamp in place and the tree is built from them. */
    method BuildQueryTree(queryId: string) returns (r: Outcome<Option<QueryTree>>)
      requires Filed()
      modifies this, uuids
      ensures Filed()
      ensures queryId in queryEvents ==> SortedByTime(queryEvents[queryId])
      ensures queryEvents == if queryId in old(queryEvents) then old(queryEvents)[queryId := SortByTime(old(queryEvents)[queryId])] else old(queryEvents)
      ensures queryId in old(queryEvents) && SortedByTime(old(queryEvents)[queryId]) ==> queryEvents == old(queryEvents)
      ensures catalogQueries == old(catalogQueries) && schemaQueries == old(schemaQueries) && tableQueries == old(tableQueries)
      ensures var spec := QueryTreeOf(queryId, StoredEvents(queryEvents, queryId), decodePlan, old(uuids.issued));
        && (r.Thrown? <==> spec.Thrown?)
        && (r.Returned? ==> r.value == spec.value.0 && uuids.issued == spec.value.1)
    {
      if queryId !in queryEvents {
        return Returned(None);
      }
      var events := SortByTime(queryEvents[queryId]);
      SortKeepsFiled(queryEvents, queryId);
      if SortedByTime(queryEvents[queryId]) {
        SortSortedUnchanged(queryEvents[queryId]);
      }
      queryEvents := queryEvents[queryId := events];
      var latest := events[|events| - 1];
      var root := BuildTreeFromEvents(events);
      if root.Thrown? {
        return Thrown;
      }
      r := Returned(Some(QueryTree(queryId, latest.query, latest.user, latest.state, events[0].timestamp, latest.timestamp,
                                   latest.executionTime, latest.errorMessage, root.value, events)));
    }

    /** buildTreeFromEvents */
    method BuildTreeFromEvents(events: seq<QueryEvent>) returns (r: Outcome<Option<QueryTreeNode>>)
      modifies uuids
      ensures var spec := TreeFromEvents(events, decodePlan, old(uuids.issued));
        && (r.Thrown? <==> spec.Thrown?)
        && (r.Returned? ==> r.value == spec.value.0 && uuids.issued == spec.value.1)
    {
      var i := 0;
      while i < |events|
        invariant 0 <= i <= |events|
        invariant PlanTreeFrom(events, PlansOf(decodePlan), i) == PlanTreeFrom(events, PlansOf(decodePlan), 0)
      {
        var e := events[i];
        if !IsBlank(e.jsonPlan) {
          var parsed := ParseJsonPlan(e.jsonPlan, decodePlan);
          if parsed.Some? {
            return Returned(Some(Enrich(parsed.value, e)));
          }
        }
        i := i + 1;
      }
      r := BuildTreeFromEventMetadata(events);
    }

    /** buildTreeFromEventMetadata */
    method BuildTreeFromEventMetadata(events: seq<QueryEvent>) returns (r: Outcome<Option<QueryTreeNode>>)
      modifies uuids
      ensures var spec := MetadataTree(events, old(uuids.issued));
        && (r.Thrown? <==> spec.Thrown?)
        && (r.Returned? ==> r.value == spec.value.0 && uuids.issued == spec.value.1)
    {
      ghost var u0 := uuids.issued;
      var nodes: map<string, QueryTreeNode> := map[];
      var rootId: Option<string> := None;
      var i := 0;
      while i < |events|
        invariant 0 <= i <= |events|
        invariant MetadataFold(events[..i], u0) == Returned(Builder(nodes, rootId, uuids.issued))
      {
        MetadataFoldNext(events, i, u0);
        var step := ApplyEvent(nodes, rootId, events[i]);
        if step.Thrown? {
          MetadataFoldThrownLater(events, i + 1, u0);
          return Thrown;
        }
        nodes, rootId := step.value.nodes, step.value.rootId;
        i := i + 1;
      }
      assert events[..i] == events;
      MetadataFoldNodes(events, u0);
      if rootId.Some? {
        r := Returned(Some(nodes[rootId.value]));
      } else {
        r := Returned(None);
      }
    }

    /** One iteration of the loop of buildTreeFromEventMetadata: the node of the event's id
        (created on first sight) takes the stage's operator type and gains the operator
        hierarchy as children, and the first node becomes the root. */
    method ApplyEvent(nodes: map<string, QueryTreeNode>, rootId: Option<string>, e: QueryEvent) returns (r: Outcome<Builder>)
      modifies uuids
      ensures r == MetadataStep(Builder(nodes, rootId, old(uuids.issued)), e)
      ensures r.Returned? ==> r.value.uuids == uuids.issued
    {
      var id := NodeId(e);
      var node := if id in nodes then nodes[id] else NewNode(e);
      if e.stageStats.Some? {
        var op := ExtractOperatorType(e.stageStats.value);
        if op.Thrown? {
          return Thrown;
        }
        node := node.(operatorType := Some(op.value), nodeType := Some("STAGE"));
      }
      var root := if rootId.None? then Some(id) else rootId;
      if e.operatorStats.Some? {
        var children := BuildOperatorHierarchy(id, node.queryId, Obj(e.operatorStats.value));
        if children.Thrown? {
          return Thrown;
        }
        node := node.(children := node.children + children.value);
      }
      r := Returned(Builder(nodes[id := node], root, uuids.issued));
    }

    /** buildOperatorHierarchy: the children to append below the node `parentId`. */
    method BuildOperatorHierarchy(parentId: string, queryId: Option<string>, stats: Value) returns (r: Outcome<seq<QueryTreeNode>>)
      requires stats.Obj?
      modifies uuids
      ensures var spec := Hierarchy(parentId, queryId, stats, old(uuids.issued));
        && (r.Thrown? <==> spec.Thrown?)
        && (r.Returned? ==> r.value == spec.value.0 && uuids.issued == spec.value.1)
      decreases stats, 1
    {
      var c := Get(stats.entries, "children");
      if c.None? || !c.value.List? {
        return Returned([]);
      }
      var list := c.value;
      assert list < stats by {
        var i :| 0 <= i < |stats.entries| && stats.entries[i] == ("children", list);
        assert stats.entries[i] in stats.entries;
      }
      ghost var u0 := uuids.issued;
      var children: seq<QueryTreeNode> := [];
      var i := 0;
      while i < |list.items|
        invariant 0 <= i <= |list.items|
        invariant HierarchyItems(parentId, queryId, list, i, u0) == Returned((children, uuids.issued))
      {
        var child := BuildChild(parentId, queryId, list.items[i]);
        if child.Thrown? {
          HierarchyItemsThrownLater(parentId, queryId, list, i + 1, |list.items|, u0);
          return Thrown;
        }
        children := children + [child.value];
        i := i + 1;
      }
      r := Returned(children);
    }

    /** The child built for one entry of a "children" list. */
    method BuildChild(parentId: string, queryId: Option<string>, item: Value) returns (r: Outcome<QueryTreeNode>)
      modifies uuids
      ensures var spec := Child(parentId, queryId, item, old(uuids.issued));
        && (r.Thrown? <==> spec.Thrown?)
        && (r.Returned? ==> r.value == spec.value.0 && uuids.issued == spec.value.1)
      decreases item, 2
    {
      if !item.Obj? {
        // A ClassCastException for a non-map entry, a NullPointerException for null.
        return Thrown;
      }
      var n := uuids.Next();
      var childId := ChildId(parentId, n);
      var op := ExtractOperatorType(item.entries);
      if op.Thrown? {
        return Thrown;
      }
      var grandchildren := BuildOperatorHierarchy(childId, queryId, item);
      if grandchildren.Thrown? {
        return Thrown;
      }
      r := Returned(OperatorNode(childId, queryId, parentId, op.value, item.entries, grandchildren.value));
    }

    /** getAllQueryIds: the ids with stored events; in a filed state each has a non-empty
        list whose events all belong to it. */
    function GetAllQueryIds(): (r: set<string>)
      reads this
      ensures forall q :: q in r <==> q in queryEvents
      ensures Filed() ==> forall q :: q in r ==> queryEvents[q] != [] && queryEvents[q][0].queryId == Some(q)
    {
      queryEvents.Keys
    }

    /** getAllCatalogs: the catalog index keys; in a filed state each names only stored queries. */
    function GetAllCatalogs(): (r: set<string>)
      reads this
      ensures forall c :: c in r <==> c in catalogQueries
      ensures Filed() ==> forall c :: c in r ==> catalogQueries[c] <= GetAllQueryIds()
    {
      catalogQueries.Keys
    }

    /** getAllSchemas: the schema index keys; in a filed state each names only stored queries. */
    function GetAllSchemas(): (r: set<string>)
      reads this
      ensures forall s :: s in r <==> s in schemaQueries
      ensures Filed() ==> forall s :: s in r ==> schemaQueries[s] <= GetAllQueryIds()
    {
      schemaQueries.Keys
    }

    /** getAllTables: the table index keys; in a filed state each names only stored queries. */
    function GetAllTables(): (r: set<string>)
      reads this
      ensures forall t :: t in r <==> t in tableQueries
      ensures Filed() ==> forall t :: t in r ==> tableQueries[t] <= GetAllQueryIds()
    {
      tableQueries.Keys
    }

    /** getDatabaseSummary: the index keys, the number of queries, and the number of
        queries of each catalog (never more than the number of queries: CountsBounded). */
    method GetDatabaseSummary() returns (r: DatabaseSummary)
      ensures r.catalogs == catalogQueries.Keys && r.schemas == schemaQueries.Keys && r.tables == tableQueries.Keys
      ensures r.totalQueries == |queryEvents.Keys|
      ensures r.catalogQueryCounts.Keys == catalogQueries.Keys
      ensures forall c :: c in r.catalogQueryCounts ==> r.catalogQueryCounts[c] == |catalogQueries[c]|
    {
      var counts: map<string, nat> := map[];
      var remaining := catalogQueries.Keys;
      while remaining != {}
        invariant remaining <= catalogQueries.Keys
        invariant counts.Keys == catalogQueries.Keys - remaining
        invariant forall c :: c in counts ==> counts[c] == |catalogQueries[c]|
        decreases |remaining|
      {
        var c :| c in remaining;
        counts := counts[c := |catalogQueries[c]|];
        remaining := remaining - {c};
      }
      r := DatabaseSummary(GetAllCatalogs(), GetAllSchemas(), GetAllTables(), |queryEvents.Keys|, counts);
    }
  }

  /** No key of an index holds more query ids than there are queries. */
  lemma CountsBounded(index: map<string, set<string>>, queryIds: set<string>)
    requires IdsKnown(index, queryIds)
    ensures forall k :: k in index ==> |index[k]| <= |queryIds|
  {
    forall k | k in index ensures |index[k]| <= |queryIds| {
      SubsetSize(index[k], queryIds);
    }
  }

  /** Sorting a query's events keeps them events of that query. */
  lemma SortedKeepsQuery(events: seq<QueryEvent>, queryId: string)
    requires forall i :: 0 <= i < |events| ==> events[i].queryId == Some(queryId)
    ensures forall i :: 0 <= i < |SortByTime(events)| ==> SortByTime(events)[i].queryId == Some(queryId)
  {
    SortByTimeSpec(events);
    forall i | 0 <= i < |SortByTime(events)| ensures SortByTime(events)[i].queryId == Some(queryId) {
      assert SortByTime(events)[i] in multiset(events);
    }
  }

  lemma {:induction false} SubsetSize(a: set<string>, b: set<string>)
    requires a <= b
    ensures |a| <= |b|
    decreases |b|
  {
    if a != {} {
      var x :| x in a;
      SubsetSize(a - {x}, b - {x});
    }
  }
}
