/** The node card of the query tree (src/components/QueryNode.tsx): its background
    colour, its title, whether it has a metrics section, and the shortened error text.
    Its byte and number formatters are those of module Formatting. */
module QueryNode {
  import opened Common
  import opened Strings
  import opened ApiTypes

  const ERROR_COLOR := "#ff6b6b"
  const DONE_COLOR := "#51cf66"
  const RUNNING_COLOR := "#ffd43b"
  const WAITING_COLOR := "#74c0fc"
  const OTHER_COLOR := "#e9ecef"

  function BackgroundColor(n: TreeNode): string {
    if TruthyStr(n.errorMessage) then ERROR_COLOR
    else if n.state == "FINISHED" || n.state == "COMPLETED" then DONE_COLOR
    else if n.state == "RUNNING" then RUNNING_COLOR
    else if n.state == "QUEUED" || n.state == "CREATED" then WAITING_COLOR
    else OTHER_COLOR
  }

  /** An error message wins over any state; without one, each colour goes to exactly its
      states. */
  lemma BackgroundColorCases(n: TreeNode)
    ensures BackgroundColor(n) == ERROR_COLOR <==> TruthyStr(n.errorMessage)
    ensures !TruthyStr(n.errorMessage) ==>
      && (BackgroundColor(n) == DONE_COLOR <==> n.state in {"FINISHED", "COMPLETED"})
      && (BackgroundColor(n) == RUNNING_COLOR <==> n.state == "RUNNING")
      && (BackgroundColor(n) == WAITING_COLOR <==> n.state in {"QUEUED", "CREATED"})
      && (BackgroundColor(n) == OTHER_COLOR <==> n.state !in {"FINISHED", "COMPLETED", "RUNNING", "QUEUED", "CREATED"})
  {
  }

  const DEFAULT_TITLE := "Query Event"

  function DisplayName(n: TreeNode): string {
    if TruthyStr(n.displayName) then n.displayName.value
    else if TruthyStr(n.operatorType) then n.operatorType.value
    else if TruthyStr(n.nodeType) then n.nodeType.value
    else if TruthyStr(n.eventType) then n.eventType.value
    else DEFAULT_TITLE
  }

  /** The first truthy string of a list. */
  function FirstTruthy(xs: seq<Option<string>>): Option<string> {
    if xs == [] then None else if TruthyStr(xs[0]) then xs[0] else FirstTruthy(xs[1..])
  }

  lemma {:induction false} FirstTruthySpec(xs: seq<Option<string>>)
    ensures FirstTruthy(xs).None? <==> forall i :: 0 <= i < |xs| ==> !TruthyStr(xs[i])
    ensures FirstTruthy(xs).Some? ==>
      exists i :: 0 <= i < |xs| && xs[i] == FirstTruthy(xs) && TruthyStr(xs[i]) &&
        forall j :: 0 <= j < i ==> !TruthyStr(xs[j])
    decreases |xs|
  {
    if xs != [] && !TruthyStr(xs[0]) {
      FirstTruthySpec(xs[1..]);
      if FirstTruthy(xs).Some? {
        var i :| 0 <= i < |xs[1..]| && xs[1..][i] == FirstTruthy(xs) && TruthyStr(xs[1..][i]) &&
          forall j :: 0 <= j < i ==> !TruthyStr(xs[1..][j]);
        assert xs[i + 1] == FirstTruthy(xs);
        forall j | 0 <= j < i + 1 ensures !TruthyStr(xs[j]) {
          if j > 0 {
            assert xs[j] == xs[1..][j - 1];
          }
        }
      } else {
        forall i | 0 <= i < |xs| ensures !TruthyStr(xs[i]) {
          if i > 0 {
            assert xs[i] == xs[1..][i - 1];
          }
        }
      }
    }
  }

  /** The title is the first non-empty one of displayName, operatorType, nodeType and
      eventType, or "Query Event" when all are empty; it is never empty. */
  lemma DisplayNameFallback(n: TreeNode)
    ensures var names := [n.displayName, n.operatorType, n.nodeType, n.eventType];
      DisplayName(n) == FirstTruthy(names).GetOr(DEFAULT_TITLE)
    ensures DisplayName(n) != ""
  {
    var names := [n.displayName, n.operatorType, n.nodeType, n.eventType];
    var rest1, rest2, rest3 := names[1..], names[2..], names[3..];
    assert rest1[1..] == rest2 && rest2[1..] == rest3 && rest3[1..] == [];
    assert FirstTruthy(rest3) == if TruthyStr(n.eventType) then n.eventType else None;
    assert FirstTruthy(rest2) == if TruthyStr(n.nodeType) then n.nodeType else FirstTruthy(rest3);
    assert FirstTruthy(rest1) == if TruthyStr(n.operatorType) then n.operatorType else FirstTruthy(rest2);
  }

  /** `a || b || ...`: the first truthy operand, or the last operand when none is. */
  function OrChain(xs: seq<Option<int>>): Option<int>
    requires xs != []
  {
    if |xs| == 1 || TruthyNum(xs[0]) then xs[0] else OrChain(xs[1..])
  }

  /** The value of an or-chain is truthy exactly when one of its operands is. */
  lemma {:induction false} OrChainTruthy(xs: seq<Option<int>>)
    requires xs != []
    ensures TruthyNum(OrChain(xs)) <==> exists i :: 0 <= i < |xs| && TruthyNum(xs[i])
    decreases |xs|
  {
    if |xs| > 1 && !TruthyNum(xs[0]) {
      OrChainTruthy(xs[1..]);
      if exists i :: 0 <= i < |xs| && TruthyNum(xs[i]) {
        var i :| 0 <= i < |xs| && TruthyNum(xs[i]);
        assert xs[1..][i - 1] == xs[i];
      }
    }
  }

  /** hasMetrics. */
  function HasMetrics(n: TreeNode): Option<int> {
    OrChain([n.executionTime, n.inputRows, n.inputBytes, n.cpuTime, n.memoryBytes, n.wallTime])
  }

  /** The metrics section shows exactly when one of the six metrics is non-zero. */
  lemma HasMetricsCases(n: TreeNode)
    ensures TruthyNum(HasMetrics(n)) <==>
      TruthyNum(n.executionTime) || TruthyNum(n.inputRows) || TruthyNum(n.inputBytes) ||
      TruthyNum(n.cpuTime) || TruthyNum(n.memoryBytes) || TruthyNum(n.wallTime)
  {
    var xs := [n.executionTime, n.inputRows, n.inputBytes, n.cpuTime, n.memoryBytes, n.wallTime];
    OrChainTruthy(xs);
    assert xs[0] == n.executionTime && xs[1] == n.inputRows && xs[2] == n.inputBytes;
    assert xs[3] == n.cpuTime && xs[4] == n.memoryBytes && xs[5] == n.wallTime;
  }

  const ERROR_PREVIEW := 80
  const ELLIPSIS := "..."

  /** The error text shown on the card: the first 80 characters, and "..." when some
      were cut. */
  function ErrorPreview(message: string): (r: string)
    ensures |message| <= ERROR_PREVIEW ==> r == message
    ensures |message| > ERROR_PREVIEW ==> |r| == ERROR_PREVIEW + |ELLIPSIS| && StartsWith(r, message[..ERROR_PREVIEW]) && EndsWith(r, ELLIPSIS)
    ensures StartsWith(message, r) || |message| > ERROR_PREVIEW
  {
    var shown := if |message| <= ERROR_PREVIEW then message else message[..ERROR_PREVIEW];
    shown + if |message| > ERROR_PREVIEW then ELLIPSIS else ""
  }

  /** A message too long for the card differs from its preview exactly where it was cut:
      two long messages with the same first 80 characters show the same text. */
  lemma ErrorPreviewCut(a: string, b: string)
    requires |a| > ERROR_PREVIEW && |b| > ERROR_PREVIEW
    ensures ErrorPreview(a) == ErrorPreview(b) <==> a[..ERROR_PREVIEW] == b[..ERROR_PREVIEW]
  {
    if ErrorPreview(a) == ErrorPreview(b) {
      assert ErrorPreview(a)[..ERROR_PREVIEW] == a[..ERROR_PREVIEW];
      assert ErrorPreview(b)[..ERROR_PREVIEW] == b[..ERROR_PREVIEW];
    }
  }
}
