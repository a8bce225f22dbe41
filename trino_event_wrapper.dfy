/** model/TrinoEventWrapper.java: the nested message of Trino's Kafka event listener and
    its flattening into a QueryEvent (toQueryEvent), with the mapping of a query state to
    an event type and the parsing of durations such as "123.45ms". */
module EventWrapper {
  import opened Common
  import opened Strings
  import opened Model

  // ---------------------------------------------------------------------------
  // The message, with the fields toQueryEvent reads

  datatype ColumnInfo = ColumnInfo(name: Option<string>, columnType: Option<string>)

  datatype InputMetadata = InputMetadata(
    catalogName: Option<string>,
    schema: Option<string>,
    table: Option<string>,
    columns: Option<seq<Option<ColumnInfo>>>,
    connectorName: Option<string>)

  datatype IoMetadata = IoMetadata(inputs: Option<seq<Option<InputMetadata>>>)

  datatype QueryStatistics = QueryStatistics(
    cpuTime: Option<string>,
    wallTime: Option<string>,
    queuedTime: Option<string>,
    peakMemoryBytes: Option<int>,
    totalBytes: Option<int>,
    totalRows: Option<int>,
    completedSplits: Option<int>)

  datatype QueryMetadata = QueryMetadata(
    queryId: Option<string>,
    query: Option<string>,
    queryState: Option<string>,
    plan: Option<string>,
    jsonPlan: Option<string>)

  datatype QueryContext = QueryContext(user: Option<string>)

  datatype EventPayload = EventPayload(
    metadata: Option<QueryMetadata>,
    context: Option<QueryContext>,
    createTime: Option<string>,
    endTime: Option<string>,
    statistics: Option<QueryStatistics>,
    ioMetadata: Option<IoMetadata>)

  datatype TrinoEventWrapper = TrinoEventWrapper(eventPayload: Option<EventPayload>)

  /** Instant.parse as epoch milliseconds; None when it throws. */
  type InstantParser = string -> Option<Instant>

  /** (long) (Double.parseDouble(text) * factor); None when the text is not a number. */
  type ScaledParser = (string, nat) -> Option<int>

  // ---------------------------------------------------------------------------
  // determineEventType

  const ACTIVE_STATES: set<string> := {"QUEUED", "PLANNING", "STARTING", "RUNNING"}
  const ENDED_STATES: set<string> := {"FINISHED", "FAILED", "CANCELED"}

  /** determineEventType: one of the three event types, or an unrecognised state passed
      through as it is. */
  function DetermineEventType(queryState: Option<string>): (r: string)
    ensures r in {"CREATED", "COMPLETED", "UNKNOWN"}
      || (queryState.Some? && r == queryState.value && r !in ACTIVE_STATES + ENDED_STATES)
  {
    if queryState.None? then "UNKNOWN"
    else if queryState.value in ACTIVE_STATES then "CREATED"
    else if queryState.value in ENDED_STATES then "COMPLETED"
    else queryState.value
  }

  /** A query state maps to CREATED exactly when it is an active state (or is itself
      "CREATED"), to COMPLETED exactly when it is an ended state (or "COMPLETED"), to
      UNKNOWN exactly when it is null (or "UNKNOWN"); any other state maps to itself. */
  lemma DetermineEventTypeCases(queryState: Option<string>)
    ensures DetermineEventType(queryState) == "CREATED" <==>
      queryState.Some? && queryState.value in ACTIVE_STATES + {"CREATED"}
    ensures DetermineEventType(queryState) == "COMPLETED" <==>
      queryState.Some? && queryState.value in ENDED_STATES + {"COMPLETED"}
    ensures DetermineEventType(queryState) == "UNKNOWN" <==>
      queryState.None? || queryState == Some("UNKNOWN")
    ensures queryState.Some? && queryState.value !in ACTIVE_STATES + ENDED_STATES ==>
      DetermineEventType(queryState) == queryState.value
  {
  }

  // ---------------------------------------------------------------------------
  // Long.parseLong

  /** Long.parseLong: an optional sign and at least one decimal digit, within the range
      of a long; None where it throws NumberFormatException. */
  function ParseLong(s: string): (r: Option<int>)
    ensures r.Some? ==> LONG_MIN <= r.value <= LONG_MAX
  {
    var signed := s != [] && (s[0] == '-' || s[0] == '+');
    var digits := if signed then s[1..] else s;
    if digits == [] || !(forall i :: 0 <= i < |digits| ==> IsDigit(digits[i])) then None
    else
      var n: int := DigitsValue(digits);
      var v := if s[0] == '-' then -n else n;
      if LONG_MIN <= v <= LONG_MAX then Some(v) else None
  }

  /** Digits alone, or digits after a minus sign, parse to their value or its negation. */
  lemma ParseLongDigits(digits: string)
    requires digits != [] && forall i :: 0 <= i < |digits| ==> IsDigit(digits[i])
    ensures DigitsValue(digits) <= LONG_MAX ==> ParseLong(digits) == Some(DigitsValue(digits))
    ensures DigitsValue(digits) <= -LONG_MIN ==> ParseLong("-" + digits) == Some(-(DigitsValue(digits) as int))
  {
    assert IsDigit(digits[0]);
    assert ("-" + digits)[1..] == digits;
  }

  /** Parsing the decimal rendering of a long gives the long back. */
  lemma ParseLongRendered(n: int)
    requires LONG_MIN <= n <= LONG_MAX
    ensures ParseLong(IntToString(n)) == Some(n)
  {
    if n < 0 {
      DigitsOfNat(-n);
      ParseLongDigits(NatToString(-n));
    } else {
      DigitsOfNat(n);
      ParseLongDigits(NatToString(n));
    }
  }

  // ---------------------------------------------------------------------------
  // The whole part of "123.45": split("\\.")[0]

  const DOT: set<char> := {'.'}

  /** The text before the first '.', or the whole text when it has none. */
  function IntegerPart(s: string): (r: string)
    ensures |r| <= |s|
  {
    if s == [] || s[0] == '.' then [] else [s[0]] + IntegerPart(s[1..])
  }

  predicate AllDots(s: string) {
    forall i :: 0 <= i < |s| ==> s[i] == '.'
  }

  lemma {:induction false} IntegerPartSnoc(s: string, c: char)
    ensures IntegerPart(s + [c]) ==
      if '.' in s then IntegerPart(s) else if c == '.' then s else s + [c]
    decreases |s|
  {
    if s != [] {
      assert (s + [c])[1..] == s[1..] + [c];
      IntegerPartSnoc(s[1..], c);
      assert '.' in s <==> s[0] == '.' || '.' in s[1..] by {
        assert s == [s[0]] + s[1..];
      }
      if s[0] != '.' && '.' !in s[1..] {
        assert [s[0]] + s[1..] == s;
        assert [s[0]] + (s[1..] + [c]) == s + [c];
      }
    }
  }

  lemma {:induction false} IntegerPartWhole(s: string)
    requires '.' !in s
    ensures IntegerPart(s) == s
    decreases |s|
  {
    if s != [] {
      assert s[0] in s;
      assert forall c :: c in s[1..] ==> c in s;
      IntegerPartWhole(s[1..]);
    }
  }

  lemma DotInSnoc(s: string, c: char)
    ensures '.' in s + [c] <==> '.' in s || c == '.'
  {
    if '.' in s + [c] {
      var i :| 0 <= i < |s + [c]| && (s + [c])[i] == '.';
      if i < |s| {
        assert s[i] == '.';
      }
    }
    if '.' in s {
      var i :| 0 <= i < |s| && s[i] == '.';
      assert (s + [c])[i] == '.';
    }
    assert (s + [c])[|s|] == c;
  }

  /** The first piece of a split at '.' is the integer part; there is only one piece
      exactly when the text has no '.'. */
  lemma {:induction false} SplitAllFirst(s: string)
    ensures SplitAll(s, DOT)[0] == IntegerPart(s)
    ensures |SplitAll(s, DOT)| == 1 <==> '.' !in s
    decreases |s|
  {
    if s != [] {
      var init := s[..|s| - 1];
      var c := s[|s| - 1];
      assert s == init + [c];
      SplitAllFirst(init);
      IntegerPartSnoc(init, c);
      DotInSnoc(init, c);
      var rest := SplitAll(init, DOT);
      if '.' !in init {
        IntegerPartWhole(init);
      }
      if c == '.' {
        assert SplitAll(s, DOT) == rest + [[]];
        assert SplitAll(s, DOT)[0] == rest[0];
      } else {
        assert SplitAll(s, DOT) == rest[..|rest| - 1] + [rest[|rest| - 1] + [c]];
        if |rest| == 1 {
          assert SplitAll(s, DOT)[0] == rest[0] + [c];
        } else {
          assert SplitAll(s, DOT)[0] == rest[0];
        }
      }
    }
  }

  /** Every piece of a split at '.' is empty exactly when the text is all dots. */
  lemma {:induction false} SplitAllEmpty(s: string)
    ensures (forall k :: 0 <= k < |SplitAll(s, DOT)| ==> SplitAll(s, DOT)[k] == []) <==> AllDots(s)
    decreases |s|
  {
    if s != [] {
      var init := s[..|s| - 1];
      var c := s[|s| - 1];
      SplitAllEmpty(init);
      var rest := SplitAll(init, DOT);
      var r := SplitAll(s, DOT);
      if c == '.' {
        assert r == rest + [[]];
        if AllDots(init) {
          assert AllDots(s);
        }
        if AllDots(s) {
          assert AllDots(init) by {
            forall i | 0 <= i < |init| ensures init[i] == '.' {
              assert init[i] == s[i];
            }
          }
        }
        if forall k :: 0 <= k < |r| ==> r[k] == [] {
          assert forall k :: 0 <= k < |rest| ==> rest[k] == r[k];
        }
      } else {
        assert r[|r| - 1] == rest[|rest| - 1] + [c];
        assert !AllDots(s) by {
          assert s[|s| - 1] == c;
        }
      }
    }
  }

  lemma {:induction false} DropTrailingEmptyNil(parts: seq<string>)
    ensures DropTrailingEmpty(parts) == [] <==> forall k :: 0 <= k < |parts| ==> parts[k] == []
    decreases |parts|
  {
    if parts != [] && parts[|parts| - 1] == [] {
      var init := parts[..|parts| - 1];
      DropTrailingEmptyNil(init);
      assert forall k :: 0 <= k < |init| ==> init[k] == parts[k];
    }
  }

  /** split("\\.") of a text: no pieces exactly when the text is a non-empty run of
      dots; otherwise its first piece is the integer part. */
  lemma SplitAtDots(s: string)
    ensures JavaSplit(s, DOT) == [] <==> s != [] && AllDots(s)
    ensures JavaSplit(s, DOT) != [] ==> JavaSplit(s, DOT)[0] == IntegerPart(s)
  {
    if '.' in s {
      assert !(forall c :: c in s ==> c !in DOT);
      var parts := SplitAll(s, DOT);
      assert JavaSplit(s, DOT) == DropTrailingEmpty(parts);
      SplitAllFirst(s);
      SplitAllEmpty(s);
      DropTrailingEmptyNil(parts);
    } else {
      assert forall c :: c in s ==> c !in DOT;
      assert JavaSplit(s, DOT) == [s];
      IntegerPartWhole(s);
      if s != [] {
        assert s[0] in s;
      }
    }
  }

  // ---------------------------------------------------------------------------
  // parseDuration

  /** parseDuration as written: the "ms" branch indexes [0] of the split without a
      check, so a text that is only dots before "ms" raises an
      ArrayIndexOutOfBoundsException, which the NumberFormatException handler does not
      catch. */
  function ParseDurationAsWritten(duration: Option<string>, scaled: ScaledParser): (r: Outcome<Option<int>>)
    ensures r.Thrown? ==> duration.Some? && EndsWith(duration.value, "ms")
    ensures duration.None? || duration == Some([]) ==> r == Returned(None)
  {
    if duration.None? || duration.value == [] then Returned(None)
    else
      var d := duration.value;
      if EndsWith(d, "ms") then
        var parts := JavaSplit(d[..|d| - 2], DOT);
        if parts == [] then Thrown else Returned(ParseLong(parts[0]))
      else if EndsWith(d, "s") then Returned(scaled(d[..|d| - 1], 1000))
      else if EndsWith(d, "m") then Returned(scaled(d[..|d| - 1], 60000))
      else Returned(None)
  }

  /** parseDuration with the bad number ".ms" answered by null, like every other bad
      number. */
  function ParseDuration(duration: Option<string>, scaled: ScaledParser): (r: Option<int>)
    ensures duration.None? || duration == Some([]) ==> r.None?
    ensures duration.Some? && EndsWith(duration.value, "ms") && r.Some? ==> LONG_MIN <= r.value <= LONG_MAX
  {
    if duration.None? || duration.value == [] then None
    else
      var d := duration.value;
      if EndsWith(d, "ms") then
        var parts := JavaSplit(d[..|d| - 2], DOT);
        if parts == [] then None else ParseLong(parts[0])
      else if EndsWith(d, "s") then scaled(d[..|d| - 1], 1000)
      else if EndsWith(d, "m") then scaled(d[..|d| - 1], 60000)
      else None
  }

  /** A duration in milliseconds is the integer part of its number, parsed as a long:
      "123.45ms" is 123, and a number without digits before its '.' is null. */
  lemma ParseDurationMillis(number: string, scaled: ScaledParser)
    ensures ParseDuration(Some(number + "ms"), scaled) == ParseLong(IntegerPart(number))
  {
    var d := number + "ms";
    assert EndsWith(d, "ms");
    assert d[..|d| - 2] == number;
    SplitAtDots(number);
    if JavaSplit(number, DOT) == [] {
      assert number[0] == '.';
      assert IntegerPart(number) == [];
    }
  }

  lemma EndsWithChar(s: string, c: char)
    ensures EndsWith(s, [c]) <==> s != [] && s[|s| - 1] == c
  {
    if s != [] && s[|s| - 1] == c {
      assert s[|s| - 1..] == [c];
    }
  }

  /** The suffix decides the unit, "ms" before "s": seconds and minutes are scaled by
      1000 and 60000, and any other suffix (or an empty or null text) gives null. */
  lemma ParseDurationUnits(duration: Option<string>, scaled: ScaledParser)
    ensures duration.None? || duration == Some([]) ==> ParseDuration(duration, scaled).None?
    ensures duration.Some? && EndsWith(duration.value, "s") && !EndsWith(duration.value, "ms") ==>
      ParseDuration(duration, scaled) == scaled(duration.value[..|duration.value| - 1], 1000)
    ensures duration.Some? && EndsWith(duration.value, "m") ==>
      ParseDuration(duration, scaled) == scaled(duration.value[..|duration.value| - 1], 60000)
    ensures duration.Some? && !EndsWith(duration.value, "s") && !EndsWith(duration.value, "m") ==>
      ParseDuration(duration, scaled).None?
  {
    if duration.Some? {
      var d := duration.value;
      EndsWithChar(d, 's');
      EndsWithChar(d, 'm');
      if EndsWith(d, "ms") {
        assert d[|d| - 2..][1] == d[|d| - 1];
      }
    }
  }

  /** The code as written throws exactly for a number made only of dots before "ms",
      ".ms" among them, and otherwise agrees with the corrected parseDuration. */
  lemma ParseDurationDotsThrow(number: string, scaled: ScaledParser)
    ensures ParseDurationAsWritten(Some(number + "ms"), scaled).Thrown? <==> number != [] && AllDots(number)
    ensures ParseDurationAsWritten(Some(number + "ms"), scaled).Returned? ==>
      ParseDurationAsWritten(Some(number + "ms"), scaled).value == ParseDuration(Some(number + "ms"), scaled)
    ensures ParseDurationAsWritten(Some(".ms"), scaled).Thrown?
  {
    var d := number + "ms";
    assert EndsWith(d, "ms");
    assert d[..|d| - 2] == number;
    SplitAtDots(number);
    var dot := ".ms";
    assert EndsWith(dot, "ms");
    assert dot[..|dot| - 2] == ".";
    SplitAtDots(".");
  }

  /** Wherever the code as written returns, the corrected parser returns the same value. */
  lemma ParseDurationAgrees(duration: Option<string>, scaled: ScaledParser)
    ensures ParseDurationAsWritten(duration, scaled).Returned? ==>
      ParseDurationAsWritten(duration, scaled).value == ParseDuration(duration, scaled)
  {
  }

  // ---------------------------------------------------------------------------
  // The first non-null value and all non-null values, in order

  /** The first present value of a list. */
  function FirstPresent(xs: seq<Option<string>>): Option<string> {
    if xs == [] then None else if xs[0].Some? then xs[0] else FirstPresent(xs[1..])
  }

  /** The present values of a list, in order. */
  function Present(xs: seq<Option<string>>): seq<string> {
    if xs == [] then [] else Present(xs[..|xs| - 1]) + if xs[|xs| - 1].Some? then [xs[|xs| - 1].value] else []
  }

  lemma {:induction false} FirstPresentSnoc(xs: seq<Option<string>>, x: Option<string>)
    ensures FirstPresent(xs + [x]) == if FirstPresent(xs).Some? then FirstPresent(xs) else x
    decreases |xs|
  {
    if xs != [] {
      assert (xs + [x])[1..] == xs[1..] + [x];
      FirstPresentSnoc(xs[1..], x);
    }
  }

  /** The first present value is the value at the first non-null position, and there is
      none exactly when every entry is null. */
  lemma {:induction false} FirstPresentSpec(xs: seq<Option<string>>)
    ensures FirstPresent(xs).None? <==> forall i :: 0 <= i < |xs| ==> xs[i].None?
    ensures FirstPresent(xs).Some? ==> exists i :: 0 <= i < |xs| && xs[i] == FirstPresent(xs) && forall j :: 0 <= j < i ==> xs[j].None?
    decreases |xs|
  {
    if xs != [] && xs[0].None? {
      FirstPresentSpec(xs[1..]);
      if FirstPresent(xs).Some? {
        var i :| 0 <= i < |xs[1..]| && xs[1..][i] == FirstPresent(xs) && forall j :: 0 <= j < i ==> xs[1..][j].None?;
        assert xs[i + 1] == FirstPresent(xs);
        assert forall j :: 0 <= j < i + 1 ==> xs[j].None? by {
          forall j | 0 <= j < i + 1 ensures xs[j].None? {
            if j > 0 {
              assert xs[j] == xs[1..][j - 1];
            }
          }
        }
      } else {
        forall i | 0 <= i < |xs| ensures xs[i].None? {
          if i > 0 {
            assert xs[i] == xs[1..][i - 1];
          }
        }
      }
    } else if xs != [] {
      assert xs[0] == FirstPresent(xs);
    }
  }

  /** The present values are exactly the values of the non-null entries, and the first
      of them is the first present value. */
  lemma {:induction false} PresentSpec(xs: seq<Option<string>>)
    ensures forall v :: v in Present(xs) <==> Some(v) in xs
    ensures |Present(xs)| <= |xs|
    ensures FirstPresent(xs) == if Present(xs) == [] then None else Some(Present(xs)[0])
    decreases |xs|
  {
    if xs != [] {
      var init := xs[..|xs| - 1];
      var x := xs[|xs| - 1];
      assert xs == init + [x];
      PresentSpec(init);
      FirstPresentSnoc(init, x);
    }
  }

  // ---------------------------------------------------------------------------
  // toQueryEvent

  /** The inputs of a payload, none when the I/O metadata or its inputs are null. */
  function InputsOf(p: EventPayload): seq<Option<InputMetadata>> {
    if p.ioMetadata.Some? && p.ioMetadata.value.inputs.Some? then p.ioMetadata.value.inputs.value else []
  }

  predicate NoNullInput(inputs: seq<Option<InputMetadata>>) {
    forall i :: 0 <= i < |inputs| ==> inputs[i].Some?
  }

  function CatalogNames(inputs: seq<Option<InputMetadata>>): seq<Option<string>> {
    seq(|inputs|, i requires 0 <= i < |inputs| => if inputs[i].Some? then inputs[i].value.catalogName else None)
  }

  function SchemaNames(inputs: seq<Option<InputMetadata>>): seq<Option<string>> {
    seq(|inputs|, i requires 0 <= i < |inputs| => if inputs[i].Some? then inputs[i].value.schema else None)
  }

  function TableNames(inputs: seq<Option<InputMetadata>>): seq<Option<string>> {
    seq(|inputs|, i requires 0 <= i < |inputs| => if inputs[i].Some? then inputs[i].value.table else None)
  }

  /** One name of one input in the first loop: a non-null name is listed, and becomes
      the primary one when there is none yet. */
  method NoteName(primary: Option<string>, names: seq<string>, ghost seen: seq<Option<string>>, name: Option<string>)
    returns (primary': Option<string>, names': seq<string>)
    requires primary == FirstPresent(seen) && names == Present(seen)
    ensures primary' == FirstPresent(seen + [name]) && names' == Present(seen + [name])
  {
    FirstPresentSnoc(seen, name);
    assert (seen + [name])[..|seen|] == seen;
    primary', names' := primary, names;
    if name.Some? {
      names' := names + [name.value];
      if primary.None? {
        primary' := name;
      }
    }
  }

  lemma NamesSnoc(inputs: seq<Option<InputMetadata>>, i: nat)
    requires i < |inputs| && inputs[i].Some?
    ensures CatalogNames(inputs)[..i + 1] == CatalogNames(inputs)[..i] + [inputs[i].value.catalogName]
    ensures SchemaNames(inputs)[..i + 1] == SchemaNames(inputs)[..i] + [inputs[i].value.schema]
    ensures TableNames(inputs)[..i + 1] == TableNames(inputs)[..i] + [inputs[i].value.table]
  {
  }

  /** The first loop of toQueryEvent: the first non-null catalog, schema and table of the
      inputs, and every non-null one in order. A null input throws. */
  method CollectNames(inputs: seq<Option<InputMetadata>>)
    returns (thrown: bool, primaryCatalog: Option<string>, primarySchema: Option<string>, primaryTable: Option<string>,
             catalogs: seq<string>, schemas: seq<string>, tables: seq<string>)
    ensures thrown <==> !NoNullInput(inputs)
    ensures !thrown ==>
      && primaryCatalog == FirstPresent(CatalogNames(inputs)) && catalogs == Present(CatalogNames(inputs))
      && primarySchema == FirstPresent(SchemaNames(inputs)) && schemas == Present(SchemaNames(inputs))
      && primaryTable == FirstPresent(TableNames(inputs)) && tables == Present(TableNames(inputs))
  {
    ghost var cs, ss, ts := CatalogNames(inputs), SchemaNames(inputs), TableNames(inputs);
    primaryCatalog, primarySchema, primaryTable := None, None, None;
    catalogs, schemas, tables := [], [], [];
    var i := 0;
    while i < |inputs|
      invariant 0 <= i <= |inputs|
      invariant NoNullInput(inputs[..i])
      invariant primaryCatalog == FirstPresent(cs[..i]) && catalogs == Present(cs[..i])
      invariant primarySchema == FirstPresent(ss[..i]) && schemas == Present(ss[..i])
      invariant primaryTable == FirstPresent(ts[..i]) && tables == Present(ts[..i])
    {
      if inputs[i].None? {
        return true, primaryCatalog, primarySchema, primaryTable, catalogs, schemas, tables;
      }
      var input := inputs[i].value;
      NamesSnoc(inputs, i);
      primaryCatalog, catalogs := NoteName(primaryCatalog, catalogs, cs[..i], input.catalogName);
      primarySchema, schemas := NoteName(primarySchema, schemas, ss[..i], input.schema);
      primaryTable, tables := NoteName(primaryTable, tables, ts[..i], input.table);
      assert inputs[..i + 1] == inputs[..i] + [inputs[i]];
      i := i + 1;
    }
    assert cs[..i] == cs && ss[..i] == ss && ts[..i] == ts;
    assert inputs[..i] == inputs;
    thrown := false;
  }

  /** A string field as a map value: null stays null. */
  function Nullable(s: Option<string>): Value {
    if s.Some? then Str(s.value) else Null
  }

  /** The map built for one column. */
  function ColumnValue(c: ColumnInfo): Value {
    Obj([("name", Nullable(c.name)), ("type", Nullable(c.columnType))])
  }

  /** The maps built for a column list; a null column throws. */
  function ColumnValues(columns: seq<Option<ColumnInfo>>): Outcome<seq<Value>> {
    if exists i :: 0 <= i < |columns| && columns[i].None? then Thrown
    else Returned(seq(|columns|, i requires 0 <= i < |columns| => ColumnValue(columns[i].value)))
  }

  /** The map built for one input, given the maps of its columns when it has a column
      list. */
  function InputValue(input: InputMetadata, columns: Option<seq<Value>>): Value {
    Obj([("catalogName", Nullable(input.catalogName)), ("connectorName", Nullable(input.connectorName)),
         ("schema", Nullable(input.schema)), ("table", Nullable(input.table))]
        + if columns.Some? then [("columns", List(columns.value))] else [])
  }

  /** Every column list of the inputs is free of nulls. */
  predicate NoNullColumn(inputs: seq<Option<InputMetadata>>) {
    forall i, j :: 0 <= i < |inputs| && inputs[i].Some? && inputs[i].value.columns.Some? && 0 <= j < |inputs[i].value.columns.value| ==>
      inputs[i].value.columns.value[j].Some?
  }

  /** The map built for a non-null input whose columns are non-null. */
  function InputEntry(input: InputMetadata): Value
    requires input.columns.Some? ==> forall j :: 0 <= j < |input.columns.value| ==> input.columns.value[j].Some?
  {
    InputValue(input, if input.columns.Some? then Some(ColumnValues(input.columns.value).value) else None)
  }

  /** The maps built for inputs that are all non-null, with non-null columns. */
  function InputEntries(inputs: seq<Option<InputMetadata>>): seq<Value>
    requires NoNullInput(inputs) && NoNullColumn(inputs)
  {
    seq(|inputs|, i requires 0 <= i < |inputs| => InputEntry(inputs[i].value))
  }

  /** The inner loop: one name/type map per column, in order. */
  method ColumnMaps(columns: seq<Option<ColumnInfo>>) returns (r: Outcome<seq<Value>>)
    ensures r == ColumnValues(columns)
  {
    var list: seq<Value> := [];
    var i := 0;
    while i < |columns|
      invariant 0 <= i <= |columns|
      invariant forall k :: 0 <= k < i ==> columns[k].Some?
      invariant list == seq(i, k requires 0 <= k < i => ColumnValue(columns[k].value))
    {
      if columns[i].None? {
        return Thrown;
      }
      list := list + [ColumnValue(columns[i].value)];
      i := i + 1;
    }
    r := Returned(list);
  }

  /** The second loop of toQueryEvent: one map per input, in order, with its columns
      when it has a column list; a null column throws. */
  method InputMaps(inputs: seq<Option<InputMetadata>>) returns (r: Outcome<seq<Value>>)
    requires NoNullInput(inputs)
    ensures r.Thrown? <==> !NoNullColumn(inputs)
    ensures r.Returned? ==> NoNullColumn(inputs) && r.value == InputEntries(inputs)
  {
    var list: seq<Value> := [];
    var i := 0;
    while i < |inputs|
      invariant 0 <= i <= |inputs|
      invariant NoNullColumn(inputs[..i])
      invariant |list| == i
      invariant forall k :: 0 <= k < i ==> list[k] == InputEntry(inputs[k].value)
    {
      var input := inputs[i].value;
      var columns: Option<seq<Value>> := None;
      if input.columns.Some? {
        var maps := ColumnMaps(input.columns.value);
        if maps.Thrown? {
          var j :| 0 <= j < |input.columns.value| && input.columns.value[j].None?;
          assert inputs[i].value.columns.value[j].None?;
          return Thrown;
        }
        columns := Some(maps.value);
      }
      list := list + [InputValue(input, columns)];
      assert inputs[..i + 1] == inputs[..i] + [inputs[i]];
      i := i + 1;
    }
    assert inputs[..i] == inputs;
    r := Returned(list);
  }

  /** The event's timestamp: the parsed createTime, or `now` when it is null, empty or
      does not parse. */
  function Timestamp(createTime: Option<string>, now: Instant, parseInstant: InstantParser): Instant {
    if createTime.Some? && createTime.value != [] && parseInstant(createTime.value).Some? then
      parseInstant(createTime.value).value
    else now
  }

  /** The QueryEvent built from a payload whose inputs and columns are non-null. */
  function Flattened(p: EventPayload, now: Instant, parseInstant: InstantParser, scaled: ScaledParser): QueryEvent
    requires p.metadata.Some? && NoNullInput(InputsOf(p)) && NoNullColumn(InputsOf(p))
  {
    var m := p.metadata.value;
    var stats := p.statistics;
    var inputs := InputsOf(p);
    var inputsMap :=
      if p.ioMetadata.Some? && p.ioMetadata.value.inputs.Some? then
        [("inputs", List(InputEntries(inputs)))]
      else [];
    BlankEvent(Timestamp(p.createTime, now, parseInstant)).(
      queryId := m.queryId, query := m.query, state := m.queryState,
      user := if p.context.Some? then p.context.value.user else None,
      createTime := p.createTime, endTime := p.endTime,
      cpuTimeMs := ParseDuration(if stats.Some? then stats.value.cpuTime else None, scaled),
      wallTimeMs := ParseDuration(if stats.Some? then stats.value.wallTime else None, scaled),
      queuedTimeMs := ParseDuration(if stats.Some? then stats.value.queuedTime else None, scaled),
      peakMemoryBytes := if stats.Some? then stats.value.peakMemoryBytes else None,
      totalBytes := if stats.Some? then stats.value.totalBytes else None,
      totalRows := if stats.Some? then stats.value.totalRows else None,
      completedSplits := if stats.Some? then stats.value.completedSplits else None,
      plan := m.plan, jsonPlan := m.jsonPlan,
      eventType := Some(DetermineEventType(m.queryState)),
      catalog := FirstPresent(CatalogNames(inputs)), schema := FirstPresent(SchemaNames(inputs)),
      tableName := FirstPresent(TableNames(inputs)),
      catalogs := Some(Present(CatalogNames(inputs))), schemas := Some(Present(SchemaNames(inputs))),
      tables := Some(Present(TableNames(inputs))),
      inputs := Some(inputsMap))
  }

  /** The statistics hold a duration that parseDuration, as written, throws on. */
  predicate DurationThrows(stats: Option<QueryStatistics>, scaled: ScaledParser) {
    && stats.Some?
    && (|| ParseDurationAsWritten(stats.value.cpuTime, scaled).Thrown?
        || ParseDurationAsWritten(stats.value.wallTime, scaled).Thrown?
        || ParseDurationAsWritten(stats.value.queuedTime, scaled).Thrown?)
  }

  /** toQueryEvent: null without a payload or without query metadata; an exception for a
      null input, a null column or a duration parseDuration throws on; otherwise the
      flattened event. */
  method ToQueryEvent(w: TrinoEventWrapper, now: Instant, parseInstant: InstantParser, scaled: ScaledParser)
    returns (r: Outcome<Option<QueryEvent>>)
    ensures w.eventPayload.None? || w.eventPayload.value.metadata.None? ==> r == Returned(None)
    ensures w.eventPayload.Some? && w.eventPayload.value.metadata.Some? ==>
      var p := w.eventPayload.value;
      && (r.Thrown? <==> !NoNullInput(InputsOf(p)) || !NoNullColumn(InputsOf(p)) || DurationThrows(p.statistics, scaled))
      && (r.Returned? ==> r.value == Some(Flattened(p, now, parseInstant, scaled)))
  {
    if w.eventPayload.None? || w.eventPayload.value.metadata.None? {
      return Returned(None);
    }
    var p := w.eventPayload.value;
    var m := p.metadata.value;
    var stats := p.statistics;
    var timestamp := now;
    if p.createTime.Some? && p.createTime.value != [] {
      var parsed := parseInstant(p.createTime.value);
      if parsed.Some? {
        timestamp := parsed.value;
      }
    }
    var hasInputs := p.ioMetadata.Some? && p.ioMetadata.value.inputs.Some?;
    var inputs := if hasInputs then p.ioMetadata.value.inputs.value else [];
    var thrown, primaryCatalog, primarySchema, primaryTable, catalogs, schemas, tables := CollectNames(inputs);
    if thrown {
      return Thrown;
    }
    var inputsMap: seq<(string, Value)> := [];
    if hasInputs {
      var list := InputMaps(inputs);
      if list.Thrown? {
        return Thrown;
      }
      inputsMap := [("inputs", List(list.value))];
    } else {
      assert NoNullColumn(inputs);
    }
    var cpu := ParseDurationAsWritten(if stats.Some? then stats.value.cpuTime else None, scaled);
    var wall := ParseDurationAsWritten(if stats.Some? then stats.value.wallTime else None, scaled);
    var queued := ParseDurationAsWritten(if stats.Some? then stats.value.queuedTime else None, scaled);
    if cpu.Thrown? || wall.Thrown? || queued.Thrown? {
      return Thrown;
    }
    ParseDurationAgrees(if stats.Some? then stats.value.cpuTime else None, scaled);
    ParseDurationAgrees(if stats.Some? then stats.value.wallTime else None, scaled);
    ParseDurationAgrees(if stats.Some? then stats.value.queuedTime else None, scaled);
    var e := BlankEvent(timestamp).(
      queryId := m.queryId, query := m.query, state := m.queryState,
      user := if p.context.Some? then p.context.value.user else None,
      createTime := p.createTime, endTime := p.endTime,
      cpuTimeMs := cpu.value, wallTimeMs := wall.value, queuedTimeMs := queued.value,
      peakMemoryBytes := if stats.Some? then stats.value.peakMemoryBytes else None,
      totalBytes := if stats.Some? then stats.value.totalBytes else None,
      totalRows := if stats.Some? then stats.value.totalRows else None,
      completedSplits := if stats.Some? then stats.value.completedSplits else None,
      plan := m.plan, jsonPlan := m.jsonPlan,
      eventType := Some(DetermineEventType(m.queryState)),
      catalog := primaryCatalog, schema := primarySchema, tableName := primaryTable,
      catalogs := Some(catalogs), schemas := Some(schemas), tables := Some(tables),
      inputs := Some(inputsMap));
    r := Returned(Some(e));
  }

  // ---------------------------------------------------------------------------
  // Properties of the flattened event

  /** The primary catalog, schema and table are the first non-null ones across the
      inputs in order, and the lists hold exactly the non-null ones. */
  lemma FlattenedNames(p: EventPayload, now: Instant, parseInstant: InstantParser, scaled: ScaledParser)
    requires p.metadata.Some? && NoNullInput(InputsOf(p)) && NoNullColumn(InputsOf(p))
    ensures var e := Flattened(p, now, parseInstant, scaled);
      var inputs := InputsOf(p);
      && (e.catalog.None? <==> forall i :: 0 <= i < |inputs| ==> inputs[i].value.catalogName.None?)
      && (e.catalog.Some? ==>
            exists i :: 0 <= i < |inputs| && inputs[i].value.catalogName == e.catalog &&
              forall j :: 0 <= j < i ==> inputs[j].value.catalogName.None?)
      && (forall c :: c in e.catalogs.value <==> exists i :: 0 <= i < |inputs| && inputs[i].value.catalogName == Some(c))
      && e.catalog == (if e.catalogs.value == [] then None else Some(e.catalogs.value[0]))
      && e.schema == (if e.schemas.value == [] then None else Some(e.schemas.value[0]))
      && e.tableName == (if e.tables.value == [] then None else Some(e.tables.value[0]))
  {
    var e := Flattened(p, now, parseInstant, scaled);
    var inputs := InputsOf(p);
    var cs, ss, ts := CatalogNames(inputs), SchemaNames(inputs), TableNames(inputs);
    assert e.catalog == FirstPresent(cs) && e.catalogs == Some(Present(cs));
    assert e.schema == FirstPresent(ss) && e.schemas == Some(Present(ss));
    assert e.tableName == FirstPresent(ts) && e.tables == Some(Present(ts));
    assert forall i :: 0 <= i < |inputs| ==> cs[i] == inputs[i].value.catalogName;
    FirstPresentSpec(cs);
    PresentSpec(cs);
    PresentSpec(ss);
    PresentSpec(ts);
  }

  /** The other fields: the timestamp is the parsed createTime or now, the event type
      follows the query state, the durations are null when the statistics or the field
      are, and the inputs map has an "inputs" list, one map per input, exactly when the
      I/O metadata lists inputs. */
  lemma FlattenedFields(p: EventPayload, now: Instant, parseInstant: InstantParser, scaled: ScaledParser)
    requires p.metadata.Some? && NoNullInput(InputsOf(p)) && NoNullColumn(InputsOf(p))
    ensures var e := Flattened(p, now, parseInstant, scaled);
      && e.queryId == p.metadata.value.queryId && e.state == p.metadata.value.queryState
      && e.eventType == Some(DetermineEventType(p.metadata.value.queryState))
      && (p.createTime.None? || p.createTime == Some([]) ==> e.timestamp == now)
      && (p.statistics.None? ==> e.cpuTimeMs.None? && e.wallTimeMs.None? && e.queuedTimeMs.None? && e.peakMemoryBytes.None?)
      && (p.statistics.Some? && p.statistics.value.cpuTime.None? ==> e.cpuTimeMs.None?)
      && e.inputs.Some?
      && (e.inputs.value != [] <==> p.ioMetadata.Some? && p.ioMetadata.value.inputs.Some?)
      && (e.inputs.value != [] ==>
            e.inputs.value[0].0 == "inputs" && e.inputs.value[0].1.List? &&
            |e.inputs.value[0].1.items| == |InputsOf(p)|)
  {
  }
}
