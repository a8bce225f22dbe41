/** The database card of the catalog graph (src/components/DatabaseNode.tsx): its border
    and type colours, its table and row totals, and its short number format. */
module DatabaseNode {
  import opened Common
  import opened Strings

  /** The parts of a database (src/types/database.types.ts) the card reads. Counts that
      may be null or undefined in the JSON are options. */
  datatype Table = Table(name: string, rowCount: Option<int>)

  datatype Schema = Schema(name: string, tables: seq<Table>)

  datatype Collection = Collection(name: string, documentCount: Option<int>)

  datatype Database = Database(
    id: string,
    name: string,
    dbType: string,
    status: string,
    schemas: seq<Schema>,
    collections: Option<seq<Collection>>)

  // ---------------------------------------------------------------------------
  // Colours

  const ACTIVE_BORDER := "#51cf66"
  const INACTIVE_BORDER := "#ff6b6b"
  const NEUTRAL_BORDER := "#e9ecef"

  function BorderColor(status: string): string {
    if status == "ACTIVE" then ACTIVE_BORDER
    else if status == "INACTIVE" then INACTIVE_BORDER
    else NEUTRAL_BORDER
  }

  /** Green exactly for ACTIVE, red exactly for INACTIVE, grey for every other status. */
  lemma BorderColorCases(status: string)
    ensures BorderColor(status) == ACTIVE_BORDER <==> status == "ACTIVE"
    ensures BorderColor(status) == INACTIVE_BORDER <==> status == "INACTIVE"
    ensures BorderColor(status) == NEUTRAL_BORDER <==> status != "ACTIVE" && status != "INACTIVE"
  {
  }

  const POSTGRES_COLOR := "#336791"
  const MYSQL_COLOR := "#4479a1"
  const MONGO_COLOR := "#47A248"
  const SYSTEM_COLOR := "#6c757d"
  const DEFAULT_COLOR := "#495057"

  /** The colour of a lower-case type name. */
  function LowerTypeColor(lower: string): (r: string)
    ensures r == MONGO_COLOR <==> lower == "mongodb"
  {
    match lower
    case "postgresql" => POSTGRES_COLOR
    case "mysql" => MYSQL_COLOR
    case "mongodb" => MONGO_COLOR
    case "system" => SYSTEM_COLOR
    case _ => DEFAULT_COLOR
  }

  function TypeColor(dbType: string): string {
    LowerTypeColor(ToLower(dbType))
  }

  /** The type colour ignores case: a type and its lower-case form get the same colour,
      and the MongoDB colour goes to exactly the types that lower-case to "mongodb". */
  lemma TypeColorIgnoresCase(dbType: string)
    ensures TypeColor(dbType) == TypeColor(ToLower(dbType))
    ensures TypeColor(dbType) == MONGO_COLOR <==> ToLower(dbType) == "mongodb"
  {
    ToLowerIdempotent(dbType);
  }

  // ---------------------------------------------------------------------------
  // Totals

  /** The MongoDB branch of the totals compares the type exactly, without lower-casing. */
  predicate IsMongo(db: Database) {
    db.dbType == "mongodb"
  }

  /** schemas.reduce((total, schema) => total + schema.tables.length, 0) */
  function TableCount(schemas: seq<Schema>): nat {
    if schemas == [] then 0 else TableCount(schemas[..|schemas| - 1]) + |schemas[|schemas| - 1].tables|
  }

  function TotalTables(db: Database): nat {
    if IsMongo(db) then (if db.collections.Some? then |db.collections.value| else 0)
    else TableCount(db.schemas)
  }

  /** table.rowCount || 0 summed over tables. */
  function RowSum(tables: seq<Table>): int {
    if tables == [] then 0 else RowSum(tables[..|tables| - 1]) + tables[|tables| - 1].rowCount.GetOr(0)
  }

  function SchemaRows(schemas: seq<Schema>): int {
    if schemas == [] then 0 else SchemaRows(schemas[..|schemas| - 1]) + RowSum(schemas[|schemas| - 1].tables)
  }

  /** collection.documentCount || 0 summed over collections. */
  function DocumentSum(collections: seq<Collection>): int {
    if collections == [] then 0
    else DocumentSum(collections[..|collections| - 1]) + collections[|collections| - 1].documentCount.GetOr(0)
  }

  function TotalRows(db: Database): int {
    if IsMongo(db) then (if db.collections.Some? then DocumentSum(db.collections.value) else 0)
    else SchemaRows(db.schemas)
  }

  /** Every table of every schema, schema by schema. */
  function AllTables(schemas: seq<Schema>): seq<Table> {
    if schemas == [] then [] else schemas[0].tables + AllTables(schemas[1..])
  }

  lemma {:induction false} RowSumAppend(a: seq<Table>, b: seq<Table>)
    ensures RowSum(a + b) == RowSum(a) + RowSum(b)
    decreases |b|
  {
    if b == [] {
      assert a + b == a;
    } else {
      assert (a + b)[..|a + b| - 1] == a + b[..|b| - 1];
      assert (a + b)[|a + b| - 1] == b[|b| - 1];
      RowSumAppend(a, b[..|b| - 1]);
    }
  }

  lemma {:induction false} AllTablesSnoc(schemas: seq<Schema>, s: Schema)
    ensures AllTables(schemas + [s]) == AllTables(schemas) + s.tables
    decreases |schemas|
  {
    if schemas == [] {
      assert AllTables([s]) == s.tables + AllTables([]);
    } else {
      assert (schemas + [s])[1..] == schemas[1..] + [s];
      AllTablesSnoc(schemas[1..], s);
    }
  }

  /** For a database other than MongoDB the table total is the number of all its tables
      and the row total is the sum of the row counts of all its tables, a missing count
      counting 0. */
  lemma {:induction false} TotalsOverAllTables(schemas: seq<Schema>)
    ensures TableCount(schemas) == |AllTables(schemas)|
    ensures SchemaRows(schemas) == RowSum(AllTables(schemas))
    decreases |schemas|
  {
    if schemas != [] {
      var init := schemas[..|schemas| - 1];
      var last := schemas[|schemas| - 1];
      TotalsOverAllTables(init);
      assert schemas == init + [last];
      AllTablesSnoc(init, last);
      RowSumAppend(AllTables(init), last.tables);
    }
  }

  /** With no negative counts, no total is negative. */
  lemma {:induction false} RowTotalsNonNegative(tables: seq<Table>)
    requires forall i :: 0 <= i < |tables| ==> tables[i].rowCount.GetOr(0) >= 0
    ensures RowSum(tables) >= 0
    decreases |tables|
  {
    if tables != [] {
      RowTotalsNonNegative(tables[..|tables| - 1]);
    }
  }

  /** A type spelled "MongoDB" gets the MongoDB colour but its totals come from its
      schemas, because only the colour lower-cases the type. */
  lemma MixedCaseMongo(db: Database)
    requires db.dbType == "MongoDB"
    ensures TypeColor(db.dbType) == MONGO_COLOR
    ensures TotalTables(db) == TableCount(db.schemas)
    ensures TotalRows(db) == SchemaRows(db.schemas)
  {
    assert ToLower(db.dbType) == "mongodb";
  }

  // ---------------------------------------------------------------------------
  // formatNumber

  /** The short number format: plain digits below 1000, otherwise a one-decimal amount of
      thousands or millions (the decimal itself is not rendered here). */
  datatype CountText = Plain(s: string) | Thousands(amount: real) | Millions(amount: real)

  function FormatNumber(num: int): (r: CountText)
    ensures num == 0 ==> r == Plain("0")
    ensures 0 <= num < 1000 ==> r.Plain? && |r.s| <= 3 && (forall i :: 0 <= i < |r.s| ==> IsDigit(r.s[i])) && DigitsValue(r.s) == num
    ensures num < 0 ==> r.Plain? && r.s != [] && r.s[0] == '-'
    ensures 1000 <= num < 1000000 ==> r == Thousands(num as real / 1000.0)
    ensures 1000000 <= num ==> r == Millions(num as real / 1000000.0)
  {
    if num == 0 then Plain("0")
    else if num < 1000 then
      if num > 0 then
        DigitsOfNat(num);
        ShortRendering(num);
        Plain(IntToString(num))
      else Plain(IntToString(num))
    else if num < 1000000 then Thousands(num as real / 1000.0)
    else Millions(num as real / 1000000.0)
  }

  /** A number below 1000 has at most three digits. */
  lemma ShortRendering(n: nat)
    requires n < 1000
    ensures |NatToString(n)| <= 3
  {
    if n >= 10 {
      if n >= 100 {
        assert NatToString(n / 10) == NatToString(n / 10 / 10) + [DigitChar(n / 10 % 10)];
      }
    }
  }
}
