/** The number and byte formatters of the metrics panels and the query node
    (src/components/QueryMetricsPanel.tsx, UnifiedMetricsPanel.tsx, QueryNode.tsx), and
    the row guard that hides a metric whose value is falsy. The locale-dependent digits
    of toLocaleString and the two decimals of toFixed are not rendered: a shown value
    keeps the number it renders. */
module Formatting {
  import opened Common
  import opened ApiTypes

  datatype ByteUnit = KB | MB | GB

  /** A value handed to renderMetricRow. */
  datatype MetricValue =
    | Text(s: string)               // a plain string
    | Number(n: int)                // a bare number
    | Localized(n: int)             // n.toLocaleString(), never empty
    | Bytes(amount: real, unit: ByteUnit)   // `${amount.toFixed(2)} ${unit}`

  const NOT_AVAILABLE := "N/A"

  /** JavaScript truthiness of a value handed to renderMetricRow. */
  predicate Truthy(v: Option<MetricValue>) {
    match v
    case None => false
    case Some(Text(s)) => s != ""
    case Some(Number(n)) => n != 0
    case Some(_) => true
  }

  function Factor(unit: ByteUnit): real {
    match unit
    case KB => 1024.0
    case MB => 1048576.0
    case GB => 1073741824.0
  }

  /** formatBytes of the query panel and the query node: null for a falsy size;
      otherwise the amount times its unit is the size, and the unit is KB below 1 MiB,
      MB below 1 GiB and GB from there on. */
  function FormatBytes(bytes: Option<int>): (r: Option<MetricValue>)
    ensures r.None? <==> !TruthyNum(bytes)
    ensures r.Some? ==>
      && r.value.Bytes?
      && r.value.amount * Factor(r.value.unit) == bytes.value as real
      && (r.value.unit == KB <==> bytes.value < 1048576)
      && (r.value.unit == MB <==> 1048576 <= bytes.value < 1073741824)
      && (r.value.unit == GB <==> 1073741824 <= bytes.value)
  {
    if !TruthyNum(bytes) then None
    else
      var kb := bytes.value as real / 1024.0;
      if kb < 1024.0 then Some(Bytes(kb, KB))
      else
        var mb := kb / 1024.0;
        if mb < 1024.0 then Some(Bytes(mb, MB))
        else Some(Bytes(mb / 1024.0, GB))
  }

  /** formatNumber of the query panel and the query node: null for a falsy number. */
  function FormatCount(num: Option<int>): (r: Option<MetricValue>)
    ensures r.None? <==> !TruthyNum(num)
    ensures r.Some? ==> r.value == Localized(num.value)
  {
    if !TruthyNum(num) then None else Some(Localized(num.value))
  }

  /** formatNumber of the unified panel: "N/A" only for a missing number, so that 0 is
      shown as 0. */
  function FormatNumberOrNA(num: Option<int>): MetricValue {
    if num.None? then Text(NOT_AVAILABLE) else Localized(num.value)
  }

  datatype MetricRow = MetricRow(caption: string, value: MetricValue)

  /** renderMetricRow: nothing for a falsy value, otherwise the caption and the value. */
  function RenderMetricRow(caption: string, value: Option<MetricValue>): (r: Option<MetricRow>)
    ensures r.None? <==> !Truthy(value)
    ensures r.Some? ==> r.value.caption == caption && Some(r.value.value) == value
  {
    if !Truthy(value) then None else Some(MetricRow(caption, value.value))
  }

  /** In the query panel a zero or missing count or size gives no row at all, and any
      other one gives a row with its value. */
  lemma ZeroMetricsHidden(caption: string, n: Option<int>)
    ensures RenderMetricRow(caption, FormatCount(n)).None? <==> !TruthyNum(n)
    ensures RenderMetricRow(caption, FormatBytes(n)).None? <==> !TruthyNum(n)
    ensures TruthyNum(n) ==> RenderMetricRow(caption, FormatCount(n)) == Some(MetricRow(caption, Localized(n.value)))
  {
  }

  /** In the unified panel a missing count still gives a row, reading "N/A", and a zero
      count gives a row with 0. */
  lemma MissingMetricShownAsNA(caption: string, n: Option<int>)
    ensures RenderMetricRow(caption, Some(FormatNumberOrNA(n))).Some?
    ensures n.None? ==> RenderMetricRow(caption, Some(FormatNumberOrNA(n))) == Some(MetricRow(caption, Text(NOT_AVAILABLE)))
    ensures n == Some(0) ==> RenderMetricRow(caption, Some(FormatNumberOrNA(n))) == Some(MetricRow(caption, Localized(0)))
  {
  }

  /** The event-count row, whose value is `events.length || 0`, is hidden when there are
      no events. */
  lemma EventCountRow(caption: string, eventCount: nat)
    ensures RenderMetricRow(caption, Some(Number(eventCount))).None? <==> eventCount == 0
  {
  }
}
