/** The JSON shapes the frontend receives from the backend (src/types/api.types.ts),
    with the two display-only fields that the timeline view adds to a node. */
module ApiTypes {
  import opened Common

  /** A node of the query tree as the frontend sees it. Numbers are JavaScript numbers;
      the model keeps their integer value and None for null or undefined. */
  datatype TreeNode = TreeNode(
    id: string,
    queryId: string,
    nodeType: Option<string>,
    operatorType: Option<string>,
    sourceSystem: Option<string>,
    state: string,
    executionTime: Option<int>,
    inputRows: Option<int>,
    inputBytes: Option<int>,
    cpuTime: Option<int>,
    wallTime: Option<int>,
    memoryBytes: Option<int>,
    errorMessage: Option<string>,
    children: seq<TreeNode>,
    parentId: Option<string>,
    displayName: Option<string>,
    eventType: Option<string>)

  /** One lifecycle event of a query as the frontend sees it. `statistics` is the
      backend's detailed statistics record, reduced to the numeric entries. */
  datatype ApiEvent = ApiEvent(
    queryId: string,
    eventType: string,
    state: string,
    catalog: Option<string>,
    schema: Option<string>,
    cpuTimeMs: Option<int>,
    wallTimeMs: Option<int>,
    queuedTimeMs: Option<int>,
    peakMemoryBytes: Option<int>,
    totalBytes: Option<int>,
    totalRows: Option<int>,
    completedSplits: Option<int>,
    errorMessage: Option<string>,
    statistics: Option<map<string, int>>)

  /** JavaScript truthiness of a nullable number: null, undefined and 0 are falsy. */
  predicate TruthyNum(v: Option<int>) {
    v.Some? && v.value != 0
  }

  /** JavaScript truthiness of a nullable string: null, undefined and "" are falsy. */
  predicate TruthyStr(v: Option<string>) {
    v.Some? && v.value != ""
  }
}
