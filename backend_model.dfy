/** The backend's records (model/Database.java, model/QueryEvent.java,
    model/QueryTreeNode.java, model/QueryTree.java, the plan records under model/plan) as values, and the
    untyped `Map<String, Object>` payloads they carry as a small JSON-like datatype. */
module Model {
  import opened Common
  import opened Strings

  // ---------------------------------------------------------------------------
  // Untyped payloads

  /** A Java `Object` found inside a decoded event: null, a string, an integral number,
      a boolean, a `List` or a `Map` (entries in iteration order). */
  datatype Value =
    | Null
    | Str(s: string)
    | Num(n: int)
    | Bool(b: bool)
    | List(items: seq<Value>)
    | Obj(entries: seq<(string, Value)>)

  /** `map.containsKey(key)` */
  predicate HasKey(entries: seq<(string, Value)>, key: string) {
    exists i :: 0 <= i < |entries| && entries[i].0 == key
  }

  /** `map.get(key)` when the key is present; None stands for an absent key, `Some(Null)`
      for a key mapped to null. A map holds each key once, so the first entry is the one. */
  function Get(entries: seq<(string, Value)>, key: string): (r: Option<Value>)
    ensures r.Some? <==> HasKey(entries, key)
    ensures r.Some? ==> exists i :: 0 <= i < |entries| && entries[i] == (key, r.value)
  {
    if entries == [] then None
    else if entries[0].0 == key then Some(entries[0].1)
    else
      var r := Get(entries[1..], key);
      assert forall i :: 0 <= i < |entries| - 1 ==> entries[1..][i] == entries[i + 1];
      assert HasKey(entries[1..], key) ==> HasKey(entries, key);
      r
  }

  lemma HasKeyConcat(a: seq<(string, Value)>, b: seq<(string, Value)>, key: string)
    ensures HasKey(a + b, key) <==> HasKey(a, key) || HasKey(b, key)
  {
    if HasKey(a, key) {
      var i :| 0 <= i < |a| && a[i].0 == key;
      assert (a + b)[i] == a[i];
    }
    if HasKey(b, key) {
      var i :| 0 <= i < |b| && b[i].0 == key;
      assert (a + b)[|a| + i] == b[i];
    }
    if HasKey(a + b, key) {
      var i :| 0 <= i < |a + b| && (a + b)[i].0 == key;
      if i >= |a| {
        assert b[i - |a|] == (a + b)[i];
      } else {
        assert a[i] == (a + b)[i];
      }
    }
  }

  /** The keys of a map. */
  function KeySet(entries: seq<(string, Value)>): set<string> {
    if entries == [] then {} else KeySet(entries[..|entries| - 1]) + {entries[|entries| - 1].0}
  }

  lemma {:induction false} KeySetConcat(a: seq<(string, Value)>, b: seq<(string, Value)>)
    ensures KeySet(a + b) == KeySet(a) + KeySet(b)
    decreases |b|
  {
    if b != [] {
      assert (a + b)[..|a + b| - 1] == a + b[..|b| - 1];
      KeySetConcat(a, b[..|b| - 1]);
    } else {
      assert a + b == a;
    }
  }

  lemma {:induction false} KeySetHasKey(entries: seq<(string, Value)>, key: string)
    ensures key in KeySet(entries) <==> HasKey(entries, key)
    decreases |entries|
  {
    if entries != [] {
      var init := entries[..|entries| - 1];
      KeySetHasKey(init, key);
      HasKeyConcat(init, [entries[|entries| - 1]], key);
      assert init + [entries[|entries| - 1]] == entries;
      assert HasKey([entries[|entries| - 1]], key) <==> entries[|entries| - 1].0 == key by {
        if entries[|entries| - 1].0 == key {
          assert [entries[|entries| - 1]][0].0 == key;
        }
      }
    }
  }

  /** A lookup in a map built by appending entries finds the earlier entry first. */
  lemma {:induction false} GetConcat(a: seq<(string, Value)>, b: seq<(string, Value)>, key: string)
    ensures Get(a + b, key) == if HasKey(a, key) then Get(a, key) else Get(b, key)
    decreases |a|
  {
    if a != [] {
      assert (a + b)[1..] == a[1..] + b;
      if a[0].0 != key {
        GetConcat(a[1..], b, key);
        assert HasKey(a[1..], key) ==> HasKey(a, key) by {
          if HasKey(a[1..], key) {
            var i :| 0 <= i < |a[1..]| && a[1..][i].0 == key;
            assert a[i + 1].0 == key;
          }
        }
        assert HasKey(a, key) ==> HasKey(a[1..], key) by {
          if HasKey(a, key) {
            var i :| 0 <= i < |a| && a[i].0 == key;
            assert a[1..][i - 1].0 == key;
          }
        }
      }
    } else {
      assert a + b == b;
    }
  }

  /** `map.get(key) != null` */
  predicate NonNullAt(entries: seq<(string, Value)>, key: string) {
    var v := Get(entries, key);
    v.Some? && !v.value.Null?
  }

  /** A Java `Map` built with `put(k, v)` for a key not yet present. */
  function Put(entries: seq<(string, Value)>, key: string, v: Value): seq<(string, Value)> {
    entries + [(key, v)]
  }

  /** A nullable Java string as an Object. */
  function StrOrNull(s: Option<string>): Value {
    if s.Some? then Str(s.value) else Null
  }

  /** `Object.toString()` of a non-null payload value: a string is itself, numbers and
      booleans print in decimal, lists as `[a, b]`, maps as `{k=v, k2=v2}`; a null nested
      in a collection prints as `null`. */
  function Render(v: Value): string
    decreases v, 1
  {
    match v
    case Null => "null"
    case Str(s) => s
    case Num(n) => IntToString(n)
    case Bool(b) => if b then "true" else "false"
    case List(items) => "[" + RenderItems(v, items, |items|) + "]"
    case Obj(entries) => "{" + RenderEntries(v, entries, |entries|) + "}"
  }

  function RenderItems(owner: Value, items: seq<Value>, k: nat): string
    requires k <= |items| && owner.List? && owner.items == items
    decreases owner, 0, k
  {
    if k == 0 then ""
    else if k == 1 then Render(items[0])
    else RenderItems(owner, items, k - 1) + ", " + Render(items[k - 1])
  }

  function RenderEntries(owner: Value, entries: seq<(string, Value)>, k: nat): string
    requires k <= |entries| && owner.Obj? && owner.entries == entries
    decreases owner, 0, k
  {
    if k == 0 then ""
    else
      assert entries[k - 1] in entries;
      var e := entries[k - 1].0 + "=" + Render(entries[k - 1].1);
      if k == 1 then e else RenderEntries(owner, entries, k - 1) + ", " + e
  }

  // ---------------------------------------------------------------------------
  // The catalog registry (model/Database.java, with the MongoDB collections and fields
  // that service/DatabaseService.java and src/types/database.types.ts use)

  /** Timestamps are `Instant`s, kept as milliseconds since the epoch. */
  type Instant = int

  datatype Column = Column(
    name: string,
    colType: Option<string>,
    nullable: Option<bool>,
    defaultValue: Option<string>)

  /** Each `...Fixed` flag says the list beside it is a fixed-size `Arrays.asList` list, as
      the seed catalogs build them: adding to it throws, while entries can still be updated. */
  datatype Table = Table(
    name: string,
    columns: seq<Column>,
    rowCount: Option<int>,
    sizeBytes: Option<int>,
    firstSeen: Option<Instant>,
    lastSeen: Option<Instant>,
    totalQueries: int,
    columnsFixed: bool)

  datatype Schema = Schema(
    name: string,
    tables: seq<Table>,
    firstSeen: Option<Instant>,
    lastSeen: Option<Instant>,
    totalQueries: int,
    tablesFixed: bool)

  datatype Field = Field(name: string, fieldType: Option<string>, nested: bool)

  datatype Collection = Collection(
    name: string,
    documentCount: Option<int>,
    sizeBytes: Option<int>,
    fields: seq<Field>,
    firstSeen: Option<Instant>,
    lastSeen: Option<Instant>,
    totalQueries: int)

  datatype Database = Database(
    id: Option<string>,
    name: Option<string>,
    dbType: Option<string>,
    host: Option<string>,
    port: Option<int>,
    status: Option<string>,
    schemas: seq<Schema>,
    collections: seq<Collection>,
    firstSeen: Option<Instant>,
    lastSeen: Option<Instant>,
    totalQueries: int,
    schemasFixed: bool)

  // ---------------------------------------------------------------------------
  // Query events (model/QueryEvent.java)

  datatype QueryEvent = QueryEvent(
    queryId: Option<string>,
    eventType: Option<string>,
    timestamp: Instant,
    query: Option<string>,
    state: Option<string>,
    user: Option<string>,
    catalog: Option<string>,
    schema: Option<string>,
    tableName: Option<string>,
    catalogs: Option<seq<string>>,
    schemas: Option<seq<string>>,
    tables: Option<seq<string>>,
    executionTime: Option<int>,
    createTime: Option<string>,
    endTime: Option<string>,
    cpuTime: Option<int>,
    cpuTimeMs: Option<int>,
    wallTime: Option<int>,
    wallTimeMs: Option<int>,
    queuedTimeMs: Option<int>,
    peakMemoryBytes: Option<int>,
    totalBytes: Option<int>,
    totalRows: Option<int>,
    completedSplits: Option<int>,
    plan: Option<string>,
    jsonPlan: Option<string>,
    errorMessage: Option<string>,
    stageStats: Option<seq<(string, Value)>>,
    operatorStats: Option<seq<(string, Value)>>,
    inputs: Option<seq<(string, Value)>>,
    metadata: Option<seq<(string, Value)>>)

  /** An event with every optional field null. */
  function BlankEvent(ts: Instant): QueryEvent {
    QueryEvent(None, None, ts, None, None, None, None, None, None, None, None, None,
               None, None, None, None, None, None, None, None, None, None, None, None,
               None, None, None, None, None, None, None)
  }

  // ---------------------------------------------------------------------------
  // Query trees (model/QueryTreeNode.java, model/QueryTree.java)

  datatype QueryTreeNode = QueryTreeNode(
    id: Option<string>,
    queryId: Option<string>,
    nodeType: Option<string>,
    operatorType: Option<string>,
    sourceSystem: Option<string>,
    state: Option<string>,
    executionTime: Option<int>,
    inputRows: Option<int>,
    inputBytes: Option<int>,
    cpuTime: Option<int>,
    wallTime: Option<int>,
    memoryBytes: Option<int>,
    errorMessage: Option<string>,
    metadata: Option<seq<(string, Value)>>,
    children: seq<QueryTreeNode>,
    parentId: Option<string>)

  /** `new QueryTreeNode()`: every field null, no children. */
  const EmptyNode := QueryTreeNode(None, None, None, None, None, None, None, None, None,
                                   None, None, None, None, None, [], None)

  datatype QueryTree = QueryTree(
    queryId: string,
    query: Option<string>,
    user: Option<string>,
    state: Option<string>,
    startTime: Instant,
    endTime: Instant,
    totalExecutionTime: Option<int>,
    errorMessage: Option<string>,
    root: Option<QueryTreeNode>,
    events: seq<QueryEvent>)

  // ---------------------------------------------------------------------------
  // Trino's JSON plan (model/plan/PlanNode.java, PlanOutput.java, PlanEstimate.java)

  datatype PlanOutput = PlanOutput(outType: Option<string>, name: Option<string>)

  datatype PlanEstimate = PlanEstimate(
    outputRowCount: Option<string>,
    outputSizeInBytes: Option<string>,
    cpuCost: Value,
    memoryCost: Value,
    networkCost: Value)

  /** A plan node. Its lists may be null, and so may each of their entries. */
  datatype PlanNode = PlanNode(
    id: Option<string>,
    name: Option<string>,
    descriptor: Option<seq<(string, Value)>>,
    outputs: Option<seq<Option<PlanOutput>>>,
    details: Option<seq<Option<string>>>,
    estimates: Option<seq<Option<PlanEstimate>>>,
    children: PlanChildren)

  /** A plan node's `children` list: null, or a list whose entries may be null. */
  datatype PlanChildren = NullChildren | ChildNodes(nodes: seq<Option<PlanNode>>)
}
