/** The catalog registry of service/DatabaseService.java. Every input record of a query
    event (an `inputs` entry, an entry of the event's metadata, a reference found in the
    text plan, or the event's own catalog/schema/table) registers its catalog as a
    database, bumps the counters, and finds or creates the schema and table beneath it
    (or, for MongoDB catalogs, the collection). Databases are values: the service's two
    maps are reassigned with the updated record instead of mutating it in place. */
module Databases {
  import opened Common
  import opened Strings
  import opened Model

  // ---------------------------------------------------------------------------
  // Classification of names

  /** isMongoSystemDatabase: admin, local, config or system* (any case). */
  predicate IsMongoSystemDatabase(name: string) {
    MongoSystemLower(ToLower(name))
  }

  predicate MongoSystemLower(lower: string) {
    lower == "admin" || lower == "local" || lower == "config" || StartsWith(lower, "system")
  }

  /** isSystemSchema: information_schema, pg_catalog, sys, or a pg_, mysql_ or
      performance_ prefix (any case). */
  predicate IsSystemSchema(name: string): (r: bool)
    ensures r ==> '_' in name || ToLower(name) == "sys"
  {
    SystemNamesHoldUnderscore(name);
    SystemSchemaLower(ToLower(name))
  }

  predicate SystemSchemaLower(lower: string) {
    lower == "information_schema" || lower == "pg_catalog" || lower == "sys"
    || StartsWith(lower, "pg_") || StartsWith(lower, "mysql_") || StartsWith(lower, "performance_")
  }

  /** isSystemTable: a pg_, information_, sys_ or mysql_ prefix (any case). */
  predicate IsSystemTable(name: string): (r: bool)
    ensures r ==> '_' in name
  {
    SystemNamesHoldUnderscore(name);
    SystemTableLower(ToLower(name))
  }

  predicate SystemTableLower(lower: string) {
    StartsWith(lower, "pg_") || StartsWith(lower, "information_")
    || StartsWith(lower, "sys_") || StartsWith(lower, "mysql_")
  }

  /** Lower-casing leaves '_' where it is, so a lower-cased name that starts with a prefix
      holding '_' has one too. */
  lemma UnderscoreAt(name: string, prefix: string, k: nat)
    requires StartsWith(ToLower(name), prefix) && k < |prefix| && prefix[k] == '_'
    ensures '_' in name
  {
    assert ToLower(name)[k] == ToLower(name)[..|prefix|][k];
    assert name[k] == '_';
  }

  /** Every system prefix and every system name but "sys" holds '_'. */
  lemma SystemNamesHoldUnderscore(name: string)
    ensures SystemSchemaLower(ToLower(name)) ==> '_' in name || ToLower(name) == "sys"
    ensures SystemTableLower(ToLower(name)) ==> '_' in name
  {
    var lower := ToLower(name);
    if StartsWith(lower, "pg_") { UnderscoreAt(name, "pg_", 2); }
    if StartsWith(lower, "mysql_") { UnderscoreAt(name, "mysql_", 5); }
    if StartsWith(lower, "performance_") { UnderscoreAt(name, "performance_", 11); }
    if StartsWith(lower, "information_") { UnderscoreAt(name, "information_", 11); }
    if StartsWith(lower, "sys_") { UnderscoreAt(name, "sys_", 3); }
    if lower == "information_schema" { UnderscoreAt(name, "information_schema", 11); }
    if lower == "pg_catalog" { UnderscoreAt(name, "pg_catalog", 2); }
  }

  /** isNestedType: a non-null type naming an array, map, row or json (any case). */
  predicate IsNestedType(t: Option<string>) {
    t.Some? && NestedLower(ToLower(t.value))
  }

  predicate NestedLower(lower: string) {
    Contains(lower, "array") || Contains(lower, "map") || Contains(lower, "row") || Contains(lower, "json")
  }

  /** The engine names guessDbType knows. */
  const DB_TYPES: set<string> :=
    {"postgresql", "mysql", "mongodb", "cassandra", "redis", "elasticsearch", "hive", "kafka", "s3"}

  /** guessDbType: the first known engine whose marker occurs in the lower-cased name,
      else the lower-cased name itself. */
  function GuessDbType(catalogName: string): (r: string)
    ensures forall i :: 0 <= i < |r| ==> !('A' <= r[i] <= 'Z')
    ensures r == ToLower(catalogName) || r in DB_TYPES
  {
    KnownTypesLower();
    GuessLower(ToLower(catalogName))
  }

  /** The known engine names have no upper-case letters. */
  lemma KnownTypesLower()
    ensures forall t, i :: t in DB_TYPES && 0 <= i < |t| ==> !('A' <= t[i] <= 'Z')
  {
    forall t, i | t in DB_TYPES && 0 <= i < |t|
      ensures !('A' <= t[i] <= 'Z')
    {
      assert 'a' <= t[i] <= 'z' || '0' <= t[i] <= '9';
    }
  }

  function GuessLower(lower: string): (r: string)
    ensures r == lower || r in DB_TYPES
  {
    if Contains(lower, "postgres") then "postgresql"
    else if Contains(lower, "mysql") then "mysql"
    else if Contains(lower, "mongo") then "mongodb"
    else if Contains(lower, "cassandra") then "cassandra"
    else if Contains(lower, "redis") then "redis"
    else if Contains(lower, "elastic") then "elasticsearch"
    else if Contains(lower, "hive") then "hive"
    else if Contains(lower, "kafka") then "kafka"
    else if Contains(lower, "s3") || Contains(lower, "minio") then "s3"
    else lower
  }

  /** getStringValue: the value of the first key that maps to a string. */
  function StringValue(entries: seq<(string, Value)>, keys: seq<string>): Option<string> {
    if keys == [] then None
    else if IsStrAt(entries, keys[0]) then Some(Get(entries, keys[0]).value.s)
    else StringValue(entries, keys[1..])
  }

  /** The value found is the string under one of the keys, and nothing is found exactly
      when no key maps to a string. */
  lemma {:induction false} StringValueSpec(entries: seq<(string, Value)>, keys: seq<string>)
    ensures var r := StringValue(entries, keys);
      r.Some? ==> exists i :: 0 <= i < |keys| && Get(entries, keys[i]) == Some(Str(r.value))
    ensures StringValue(entries, keys).None? <==> forall i :: 0 <= i < |keys| ==> !IsStrAt(entries, keys[i])
  {
    if keys != [] && !IsStrAt(entries, keys[0]) {
      StringValueSpec(entries, keys[1..]);
      assert forall i :: 1 <= i < |keys| ==> keys[i] == keys[1..][i - 1];
    }
  }

  /** `map.get(key) instanceof String` */
  predicate IsStrAt(entries: seq<(string, Value)>, key: string) {
    var v := Get(entries, key);
    v.Some? && v.value.Str?
  }

  /** The catalog an input names: "catalogName", else "connectorName". */
  function CatalogOf(input: seq<(string, Value)>): Option<string> {
    StringValue(input, ["catalogName", "connectorName"])
  }

  // ---------------------------------------------------------------------------
  // Lists whose entries are identified by name

  predicate UniqueNames<T>(xs: seq<T>, key: T -> string) {
    forall i, j :: 0 <= i < j < |xs| ==> key(xs[i]) != key(xs[j])
  }

  /** `stream().filter(x -> n.equals(x.getName())).findFirst()`, as an index. */
  function FindByName<T>(xs: seq<T>, key: T -> string, n: string): (r: Option<nat>)
    ensures r.Some? ==> r.value < |xs| && key(xs[r.value]) == n
    ensures r.Some? ==> forall j :: 0 <= j < r.value ==> key(xs[j]) != n
    ensures r.None? <==> forall j :: 0 <= j < |xs| ==> key(xs[j]) != n
  {
    FindFrom(xs, key, n, 0)
  }

  function FindFrom<T>(xs: seq<T>, key: T -> string, n: string, from: nat): (r: Option<nat>)
    requires from <= |xs|
    ensures r.Some? ==> from <= r.value < |xs| && key(xs[r.value]) == n
    ensures r.Some? ==> forall j :: from <= j < r.value ==> key(xs[j]) != n
    ensures r.None? <==> forall j :: from <= j < |xs| ==> key(xs[j]) != n
    decreases |xs| - from
  {
    if from == |xs| then None
    else if key(xs[from]) == n then Some(from)
    else FindFrom(xs, key, n, from + 1)
  }

  /** Find the entry named n, or append `created` (named n); return the list and the entry's
      position. */
  function Locate<T>(xs: seq<T>, key: T -> string, n: string, created: T): (r: (seq<T>, nat))
    requires key(created) == n
    ensures r.1 < |r.0| && key(r.0[r.1]) == n
    ensures r.0 == xs || r.0 == xs + [created]
    ensures r.0 == xs + [created] <==> forall j :: 0 <= j < |xs| ==> key(xs[j]) != n
    ensures UniqueNames(xs, key) ==> UniqueNames(r.0, key)
  {
    match FindByName(xs, key, n)
    case Some(i) => (xs, i)
    case None => (xs + [created], |xs|)
  }

  /** Append x unless an entry with its name exists (`anyMatch` followed by `add`). */
  function AddIfAbsent<T>(xs: seq<T>, key: T -> string, x: T): (r: seq<T>)
    ensures xs <= r && |r| <= |xs| + 1
    ensures exists i :: 0 <= i < |r| && key(r[i]) == key(x)
    ensures |r| == |xs| + 1 <==> forall j :: 0 <= j < |xs| ==> key(xs[j]) != key(x)
    ensures |r| == |xs| + 1 ==> r[|xs|] == x
    ensures UniqueNames(xs, key) ==> UniqueNames(r, key)
  {
    match FindByName(xs, key, key(x))
    case Some(i) => xs
    case None =>
      assert (xs + [x])[|xs|] == x;
      xs + [x]
  }

  /** The first k candidates added one after the other, each unless its name is present. */
  lemma AddIfAbsentCases<T>(xs: seq<T>, key: T -> string, x: T)
    ensures AddIfAbsent(xs, key, x) == if FindByName(xs, key, key(x)).None? then xs + [x] else xs
  {
  }

  predicate AllOk<T>(xs: seq<T>, ok: T -> bool) {
    forall i :: 0 <= i < |xs| ==> ok(xs[i])
  }

  /** Find-or-create keeps names unique and every entry good, when the created one is good. */
  lemma LocateKeepsAll<T>(xs: seq<T>, key: T -> string, ok: T -> bool, n: string, created: T)
    requires key(created) == n && ok(created)
    requires UniqueNames(xs, key) && AllOk(xs, ok)
    ensures UniqueNames(Locate(xs, key, n, created).0, key) && AllOk(Locate(xs, key, n, created).0, ok)
  {
  }

  /** Replacing an entry by a good one of the same name keeps names unique and every entry good. */
  lemma ReplaceKeepsAll<T>(xs: seq<T>, key: T -> string, ok: T -> bool, i: nat, x: T)
    requires i < |xs| && key(x) == key(xs[i]) && ok(x)
    requires UniqueNames(xs, key) && AllOk(xs, ok)
    ensures UniqueNames(xs[i := x], key) && AllOk(xs[i := x], ok)
  {
  }

  /** Replacing an entry by one of the same name keeps names unique. */
  lemma ReplaceKeepsUnique<T>(xs: seq<T>, key: T -> string, i: nat, x: T)
    requires i < |xs| && key(x) == key(xs[i]) && UniqueNames(xs, key)
    ensures UniqueNames(xs[i := x], key)
  {
  }

  /** After find-or-create and a replacement of the same name, a lookup finds the entry
      where it was found, or at the end when it was created. */
  lemma LocateThenFind<T>(xs: seq<T>, key: T -> string, n: string, created: T, x: T)
    requires key(created) == n && key(x) == n
    ensures var (ys, i) := Locate(xs, key, n, created);
      && i == (if FindByName(xs, key, n).Some? then FindByName(xs, key, n).value else |xs|)
      && FindByName(ys[i := x], key, n) == Some(i)
  {
    var (ys, i) := Locate(xs, key, n, created);
    var zs := ys[i := x];
    assert key(zs[i]) == n;
    assert forall j :: 0 <= j < i ==> key(zs[j]) != n by {
      forall j | 0 <= j < i
        ensures key(zs[j]) != n
      {
        assert zs[j] == ys[j];
        if FindByName(xs, key, n).None? {
          assert ys[j] == xs[j];
        }
      }
    }
    var f := FindByName(zs, key, n);
    assert f.Some?;
    assert !(f.value < i);
    assert !(f.value > i);
  }

  function SchemaName(s: Schema): string { s.name }
  function TableName(t: Table): string { t.name }
  function ColumnName(c: Column): string { c.name }
  function CollectionName(c: Collection): string { c.name }
  function FieldName(f: Field): string { f.name }

  // ---------------------------------------------------------------------------
  // Columns and fields

  /** `m.get("name") != null ? m.get("name").toString() : m.get("column") != null ? ... : null` */
  function NameOf(m: seq<(string, Value)>): Option<string> {
    if NonNullAt(m, "name") then Some(Render(Get(m, "name").value))
    else if NonNullAt(m, "column") then Some(Render(Get(m, "column").value))
    else None
  }

  /** `m.get("type") != null ? m.get("type").toString() : null` */
  function TypeOf(m: seq<(string, Value)>): Option<string> {
    if NonNullAt(m, "type") then Some(Render(Get(m, "type").value)) else None
  }

  /** One element of a "columns" list: a map with a name adds a column unless one of that
      name exists; anything else is skipped. */
  function AddColumnItem(cols: seq<Column>, item: Value): seq<Column> {
    if item.Obj? && NameOf(item.entries).Some? then
      AddIfAbsent(cols, ColumnName, Column(NameOf(item.entries).value, TypeOf(item.entries), None, None))
    else cols
  }

  /** One entry of a "columns" map: the key names the column, the value renders its type. */
  function EntryColumn(e: (string, Value)): Column {
    Column(e.0, if e.1.Null? then None else Some(Render(e.1)), None, None)
  }

  function ColumnsFromList(cols: seq<Column>, items: seq<Value>, k: nat): seq<Column>
    requires k <= |items|
  {
    if k == 0 then cols else AddColumnItem(ColumnsFromList(cols, items, k - 1), items[k - 1])
  }

  /** The list after adding f of each of the first k elements of es, each only if its name is absent. */
  function AddEach<E, T>(xs: seq<T>, key: T -> string, es: seq<E>, f: E -> T, k: nat): seq<T>
    requires k <= |es|
  {
    if k == 0 then xs else AddIfAbsent(AddEach(xs, key, es, f, k - 1), key, f(es[k - 1]))
  }

  /** The columns after the first k entries of a "columns" map, in the map's order. */
  function ColumnsFromMap(cols: seq<Column>, entries: seq<(string, Value)>, k: nat): seq<Column>
    requires k <= |entries|
  {
    AddEach(cols, ColumnName, entries, EntryColumn, k)
  }

  /** processTableColumns: a list of column maps or a map from column name to type;
      any other value leaves the columns as they are. */
  function TableColumns(cols: seq<Column>, columnsObj: Value): seq<Column> {
    match columnsObj
    case List(items) => ColumnsFromList(cols, items, |items|)
    case Obj(entries) => ColumnsFromMap(cols, entries, |entries|)
    case _ => cols
  }

  function AddFieldItem(fields: seq<Field>, item: Value): seq<Field> {
    if item.Obj? && NameOf(item.entries).Some? then
      var t := TypeOf(item.entries);
      AddIfAbsent(fields, FieldName, Field(NameOf(item.entries).value, t, IsNestedType(t)))
    else fields
  }

  function FieldsFromList(fields: seq<Field>, items: seq<Value>, k: nat): seq<Field>
    requires k <= |items|
  {
    if k == 0 then fields else AddFieldItem(FieldsFromList(fields, items, k - 1), items[k - 1])
  }

  /** processMongoFields: only a list of field maps adds fields. */
  function MongoFields(fields: seq<Field>, fieldsObj: Value): seq<Field> {
    if fieldsObj.List? then FieldsFromList(fields, fieldsObj.items, |fieldsObj.items|) else fields
  }

  // ---------------------------------------------------------------------------
  // One input record

  function NewDatabase(catalogName: string, ts: Instant): Database {
    Database(Some(catalogName), Some(catalogName), Some(GuessDbType(catalogName)), None, None,
             Some("ACTIVE"), [], [], Some(ts), Some(ts), 0, false)
  }

  function NewSchema(name: string, ts: Instant): Schema {
    Schema(name, [], Some(ts), Some(ts), 0, false)
  }

  function NewTable(name: string, ts: Instant): Table {
    Table(name, [], None, None, Some(ts), Some(ts), 0, false)
  }

  function NewCollection(name: string, ts: Instant): Collection {
    Collection(name, None, None, [], Some(ts), Some(ts), 0)
  }

  /** The collection a MongoDB input names: its table, else its schema unless that is a
      MongoDB system database. */
  function CollectionNameOf(schemaName: Option<string>, tableName: Option<string>): Option<string> {
    if tableName.Some? && tableName.value != "" then tableName
    else if schemaName.Some? && schemaName.value != "" && !IsMongoSystemDatabase(schemaName.value) then schemaName
    else None
  }

  /** The collection list after an input naming collection `name`: the collection is
      found or created, bumped, and its fields merged with the input's "columns". */
  function CollectionUpsert(cs: seq<Collection>, name: string, input: seq<(string, Value)>, ts: Instant): seq<Collection> {
    var (cs', i) := Locate(cs, CollectionName, name, NewCollection(name, ts));
    var c := cs'[i].(lastSeen := Some(ts), totalQueries := cs'[i].totalQueries + 1);
    cs'[i := if HasKey(input, "columns") then c.(fields := MongoFields(c.fields, Get(input, "columns").value)) else c]
  }

  /** handleMongoDatabase: only the collections can change. */
  function MongoUpdate(db: Database, schemaName: Option<string>, tableName: Option<string>,
                       input: seq<(string, Value)>, ts: Instant): (r: Database)
    ensures r == db.(collections := r.collections)
  {
    var name := CollectionNameOf(schemaName, tableName);
    if name.None? then db
    else db.(collections := CollectionUpsert(db.collections, name.value, input, ts))
  }

  /** The table list after an input naming table `name`: the table is found or created,
      bumped, and its columns merged with the input's "columns". Creating a table in a
      fixed-size list throws, and the input stops there with the list unchanged. */
  function TableUpsert(tbs: seq<Table>, fixed: bool, name: string, input: seq<(string, Value)>, ts: Instant): seq<Table> {
    if fixed && FindByName(tbs, TableName, name).None? then tbs
    else
      var (tbs', j) := Locate(tbs, TableName, name, NewTable(name, ts));
      var t := tbs'[j].(lastSeen := Some(ts), totalQueries := tbs'[j].totalQueries + 1);
      tbs'[j := if HasKey(input, "columns") then MergeColumns(t, Get(input, "columns").value) else t]
  }

  /** processTableColumns on a table. On a fixed-size column list the first add throws and
      the method's own catch ends it, so the columns stay as they were. */
  function MergeColumns(t: Table, columnsObj: Value): (r: Table)
    ensures r == t.(columns := r.columns)
  {
    if t.columnsFixed then t else t.(columns := TableColumns(t.columns, columnsObj))
  }

  /** The table part of handleRelationalDatabase, on a schema already bumped: an empty
      or system table name stops here. */
  function TableUpdate(sc: Schema, tableName: Option<string>, input: seq<(string, Value)>, ts: Instant): (r: Schema)
    ensures r == sc.(tables := r.tables)
  {
    if tableName.Some? && tableName.value != "" && !IsSystemTable(tableName.value) then
      sc.(tables := TableUpsert(sc.tables, sc.tablesFixed, tableName.value, input, ts))
    else sc
  }

  /** The schema list after an input naming schema `name`: the schema is found or
      created, bumped, and handed the input's table. Creating a schema in a fixed-size
      list throws, and the input stops there with the list unchanged. */
  function SchemaUpsert(ss: seq<Schema>, fixed: bool, name: string, tableName: Option<string>,
                        input: seq<(string, Value)>, ts: Instant): seq<Schema> {
    if fixed && FindByName(ss, SchemaName, name).None? then ss
    else
      var (ss', i) := Locate(ss, SchemaName, name, NewSchema(name, ts));
      var sc := ss'[i].(lastSeen := Some(ts), totalQueries := ss'[i].totalQueries + 1);
      ss'[i := TableUpdate(sc, tableName, input, ts)]
  }

  /** handleRelationalDatabase: an empty schema name, or a system schema other than
      "public", stops here; only the schemas can change. */
  function RelationalUpdate(db: Database, schemaName: Option<string>, tableName: Option<string>,
                            input: seq<(string, Value)>, ts: Instant): (r: Database)
    ensures r == db.(schemas := r.schemas)
  {
    if schemaName.Some? && schemaName.value != "" && !(IsSystemSchema(schemaName.value) && schemaName.value != "public") then
      db.(schemas := SchemaUpsert(db.schemas, db.schemasFixed, schemaName.value, tableName, input, ts))
    else db
  }

  /** The service's state: the databases by id, and the query count per database id. */
  datatype Registry = Registry(databases: map<string, Database>, counts: map<string, int>)

  function CountOf(counts: map<string, int>, id: string): int {
    if id in counts then counts[id] else 0
  }

  function QueriesOf(dbs: map<string, Database>, id: string): int {
    if id in dbs then dbs[id].totalQueries else 0
  }

  /** processInputMetadata: an input without a catalog changes nothing; otherwise the
      catalog's database is found or created, bumped, counted, and handed to the MongoDB
      or the relational branch by the type guessed from the catalog name. */
  function ProcessInput(reg: Registry, input: seq<(string, Value)>, ts: Instant): Registry {
    match CatalogOf(input)
    case None => reg
    case Some(k) =>
      Registry(reg.databases[k := Handle(Bumped(reg.databases, k, ts), GuessDbType(k), input, ts)],
               reg.counts[k := CountOf(reg.counts, k) + 1])
  }

  /** The catalog's database, created if absent, with lastSeen set and totalQueries bumped. */
  function Bumped(dbs: map<string, Database>, k: string, ts: Instant): Database {
    var db := if k in dbs then dbs[k] else NewDatabase(k, ts);
    db.(lastSeen := Some(ts), totalQueries := db.totalQueries + 1)
  }

  /** The branch on the guessed type: only the schemas or the collections can change. */
  function Handle(db: Database, dbType: string, input: seq<(string, Value)>, ts: Instant): (r: Database)
    ensures r == db.(schemas := r.schemas, collections := r.collections)
  {
    var schemaName := StringValue(input, ["schema"]);
    var tableName := StringValue(input, ["table"]);
    if dbType == "mongodb" then MongoUpdate(db, schemaName, tableName, input, ts)
    else RelationalUpdate(db, schemaName, tableName, input, ts)
  }

  /** An input without a catalog changes nothing. Otherwise exactly the catalog's
      database is added or updated: its totalQueries and its query count grow by one and
      its lastSeen becomes the event's timestamp; a new database is named after the catalog,
      typed by the guess, ACTIVE, and first seen now. */
  lemma ProcessInputEffect(reg: Registry, input: seq<(string, Value)>, ts: Instant)
    ensures CatalogOf(input).None? ==> ProcessInput(reg, input, ts) == reg
    ensures CatalogOf(input).Some? ==>
      var k := CatalogOf(input).value;
      var r := ProcessInput(reg, input, ts);
      && r.databases.Keys == reg.databases.Keys + {k}
      && r.counts == reg.counts[k := CountOf(reg.counts, k) + 1]
      && r.databases[k].totalQueries == QueriesOf(reg.databases, k) + 1
      && r.databases[k].lastSeen == Some(ts)
      && (k !in reg.databases ==>
            var d := r.databases[k];
            d.id == Some(k) && d.name == Some(k) && d.dbType == Some(GuessDbType(k))
            && d.status == Some("ACTIVE") && d.firstSeen == Some(ts))
      && (forall other :: other in reg.databases && other != k ==> r.databases[other] == reg.databases[other])
  {
  }

  // ---------------------------------------------------------------------------
  // Sequences of inputs

  /** The inputs processed one after the other, in order. */
  function ProcessAll(reg: Registry, inputs: seq<seq<(string, Value)>>, ts: Instant): Registry {
    if inputs == [] then reg
    else ProcessInput(ProcessAll(reg, inputs[..|inputs| - 1], ts), inputs[|inputs| - 1], ts)
  }

  /** How many of the inputs name catalog k. */
  function Occurrences(inputs: seq<seq<(string, Value)>>, k: string): nat {
    if inputs == [] then 0
    else Occurrences(inputs[..|inputs| - 1], k) + (if CatalogOf(inputs[|inputs| - 1]) == Some(k) then 1 else 0)
  }

  /** The catalogs the inputs name. */
  function CatalogsIn(inputs: seq<seq<(string, Value)>>): set<string> {
    if inputs == [] then {}
    else
      var c := CatalogOf(inputs[|inputs| - 1]);
      CatalogsIn(inputs[..|inputs| - 1]) + (if c.Some? then {c.value} else {})
  }

  /** The input maps of a `List` that the source casts element by element to `Map`:
      a null element is a no-op (its processing fails and is caught), and the first
      element of another kind ends the loop (the failed cast is caught around it). */
  function ListInputs(items: seq<Value>): seq<seq<(string, Value)>> {
    if items == [] then []
    else match items[0]
      case Obj(m) => [m] + ListInputs(items[1..])
      case Null => ListInputs(items[1..])
      case _ => []
  }

  /** The "inputs" list of a map, when the key maps to a `List`. */
  function InputsEntry(m: Option<seq<(string, Value)>>): seq<seq<(string, Value)>> {
    if m.Some? && HasKey(m.value, "inputs") && Get(m.value, "inputs").value.List? then
      ListInputs(Get(m.value, "inputs").value.items)
    else []
  }

  /** The input map built for a reference found in the text plan. */
  function PlanInput(catalog: string, schema: string, table: Option<string>): seq<(string, Value)> {
    [("catalogName", Str(catalog)), ("schema", Str(schema))] + (if table.Some? then [("table", Str(table.value))] else [])
  }

  const PATTERNS: seq<string> := ["FROM ", "JOIN ", "TABLE: "]

  /** The regular expression `[:\\.]` the text after a pattern is split on. */
  const REFERENCE_SEPARATORS: set<char> := {':', '.'}

  const LINE_SEPARATOR: set<char> := {'\n'}

  /** The reference after the first occurrence of a pattern: the rest of the line split on
      ':' and '.', needing two parts; trimmed parts 0, 1 and 2 are catalog, schema, table. */
  function PatternInput(line: string, pattern: string): (r: seq<seq<(string, Value)>>)
    ensures |r| <= 1
  {
    match AfterPattern(line, pattern)
    case None => []
    case Some(rest) => PartsInput(JavaSplit(rest, REFERENCE_SEPARATORS))
  }

  /** `line.substring(line.indexOf(pattern) + pattern.length())`, when the pattern occurs. */
  function AfterPattern(line: string, pattern: string): (r: Option<string>)
    ensures r.None? <==> !Contains(line, pattern)
  {
    match IndexOf(line, pattern)
    case None => None
    case Some(i) => Some(line[i + |pattern|..])
  }

  /** Catalog, schema and (when present) table from the trimmed parts of a reference;
      fewer than two parts name nothing. */
  function PartsInput(parts: seq<string>): (r: seq<seq<(string, Value)>>)
    ensures |r| <= 1
    ensures |r| == 1 <==> |parts| >= 2
  {
    if |parts| >= 2 then
      [PlanInput(Trim(parts[0]), Trim(parts[1]), if |parts| > 2 then Some(Trim(parts[2])) else None)]
    else []
  }

  /** The references after each of the first j patterns, in pattern order. */
  function PatternsInputs(line: string, j: nat): (r: seq<seq<(string, Value)>>)
    requires j <= |PATTERNS|
  {
    if j == 0 then [] else PatternsInputs(line, j - 1) + PatternInput(line, PATTERNS[j - 1])
  }

  /** A line shorter than five characters is skipped. */
  function LineInputs(line: string): (r: seq<seq<(string, Value)>>)
    ensures |line| < 5 ==> r == []
  {
    if |line| < 5 then [] else PatternsInputs(line, |PATTERNS|)
  }

  /** The inputs of the first i lines, each line's inputs produced by f, in line order. */
  function LinesWith(f: string -> seq<seq<(string, Value)>>, lines: seq<string>, i: nat): seq<seq<(string, Value)>>
    requires i <= |lines|
  {
    if i == 0 then [] else LinesWith(f, lines, i - 1) + f(lines[i - 1])
  }

  function LinesInputs(lines: seq<string>, i: nat): seq<seq<(string, Value)>>
    requires i <= |lines|
  {
    LinesWith(LineInputs, lines, i)
  }

  /** extractDatabasesFromPlan: the references of every line, in order; an empty plan has none. */
  function PlanInputs(plan: string): seq<seq<(string, Value)>> {
    if plan == "" then []
    else
      var lines := JavaSplit(plan, LINE_SEPARATOR);
      LinesInputs(lines, |lines|)
  }

  /** The input map built from the event's own catalog, schema and table. */
  function SyntheticInput(catalog: string, schema: Option<string>, table: Option<string>): seq<(string, Value)> {
    [("catalogName", Str(catalog))]
    + (if schema.Some? then [("schema", Str(schema.value))] else [])
    + (if table.Some? then [("table", Str(table.value))] else [])
  }

  /** Every input record of an event, in the order processEvent handles them. */
  function EventInputs(e: QueryEvent): seq<seq<(string, Value)>> {
    InputsEntry(e.inputs)
    + InputsEntry(e.metadata)
    + (if e.plan.Some? then PlanInputs(e.plan.value) else [])
    + (if e.catalog.Some? then [SyntheticInput(e.catalog.value, e.schema, e.tableName)] else [])
  }

  /** processEvent: a null event or an event without a query id is ignored. */
  function ProcessEventSpec(reg: Registry, event: Option<QueryEvent>): Registry {
    if event.None? || event.value.queryId.None? then reg
    else ProcessAll(reg, EventInputs(event.value), event.value.timestamp)
  }

  // ---------------------------------------------------------------------------
  // Properties of the classification

  /** Every classification looks only at the lower-cased name. */
  lemma ClassificationIgnoresCase(name: string)
    ensures GuessDbType(ToLower(name)) == GuessDbType(name)
    ensures IsSystemSchema(ToLower(name)) == IsSystemSchema(name)
    ensures IsSystemTable(ToLower(name)) == IsSystemTable(name)
    ensures IsMongoSystemDatabase(ToLower(name)) == IsMongoSystemDatabase(name)
    ensures IsNestedType(Some(ToLower(name))) == IsNestedType(Some(name))
  {
    ToLowerIdempotent(name);
  }

  /** A catalog is handled as MongoDB exactly when its lower-cased name contains "mongo"
      and neither of the markers tested before it. */
  lemma MongoCatalogs(catalogName: string)
    ensures GuessDbType(catalogName) == "mongodb" <==>
      var lower := ToLower(catalogName);
      Contains(lower, "mongo") && !Contains(lower, "postgres") && !Contains(lower, "mysql")
  {
    var lower := ToLower(catalogName);
    if lower == "mongodb" {
      assert OccursAt(lower, "mongo", 0);
    }
  }

  /** "public" is not a system schema, so the exemption for it never changes the outcome. */
  lemma PublicIsNotSystemSchema()
    ensures !IsSystemSchema("public")
  {
    assert ToLower("public") == "public";
    assert "public"[1] != "pg_"[1] && "public"[0] != "mysql_"[0] && "public"[0] != "performance_"[1];
    assert |"public"| != |"information_schema"| && |"public"| != |"pg_catalog"| && |"public"| != |"sys"|;
  }

  // ---------------------------------------------------------------------------
  // Names stay unique within every list

  predicate TableOk(t: Table) {
    UniqueNames(t.columns, ColumnName)
  }

  predicate SchemaOk(s: Schema) {
    UniqueNames(s.tables, TableName) && forall i :: 0 <= i < |s.tables| ==> TableOk(s.tables[i])
  }

  predicate CollectionOk(c: Collection) {
    UniqueNames(c.fields, FieldName)
  }

  predicate DatabaseOk(d: Database) {
    && UniqueNames(d.schemas, SchemaName)
    && (forall i :: 0 <= i < |d.schemas| ==> SchemaOk(d.schemas[i]))
    && UniqueNames(d.collections, CollectionName)
    && (forall i :: 0 <= i < |d.collections| ==> CollectionOk(d.collections[i]))
  }

  /** Schema, table, column, collection and field names are unique within their list. */
  predicate RegistryOk(reg: Registry) {
    forall k :: k in reg.databases ==> DatabaseOk(reg.databases[k])
  }

  lemma {:induction false} ColumnsFromListGrows(cols: seq<Column>, items: seq<Value>, k: nat)
    requires k <= |items|
    ensures cols <= ColumnsFromList(cols, items, k)
    ensures UniqueNames(cols, ColumnName) ==> UniqueNames(ColumnsFromList(cols, items, k), ColumnName)
    decreases k
  {
    if k > 0 {
      ColumnsFromListGrows(cols, items, k - 1);
    }
  }

  /** Adding elements keeps the list as a prefix and adds no duplicate name. */
  lemma {:induction false} AddEachGrows<E, T>(xs: seq<T>, key: T -> string, es: seq<E>, f: E -> T, k: nat)
    requires k <= |es|
    ensures xs <= AddEach(xs, key, es, f, k)
    ensures UniqueNames(xs, key) ==> UniqueNames(AddEach(xs, key, es, f, k), key)
    decreases k
  {
    if k > 0 {
      AddEachGrows(xs, key, es, f, k - 1);
    }
  }

  /** Merging columns keeps every existing column, in place, and adds no duplicate name. */
  lemma TableColumnsGrow(cols: seq<Column>, columnsObj: Value)
    ensures cols <= TableColumns(cols, columnsObj)
    ensures UniqueNames(cols, ColumnName) ==> UniqueNames(TableColumns(cols, columnsObj), ColumnName)
  {
    match columnsObj
    case List(items) => ColumnsFromListGrows(cols, items, |items|);
    case Obj(entries) => AddEachGrows(cols, ColumnName, entries, EntryColumn, |entries|);
    case _ =>
  }

  lemma {:induction false} FieldsFromListGrows(fields: seq<Field>, items: seq<Value>, k: nat)
    requires k <= |items|
    ensures fields <= FieldsFromList(fields, items, k)
    ensures UniqueNames(fields, FieldName) ==> UniqueNames(FieldsFromList(fields, items, k), FieldName)
    decreases k
  {
    if k > 0 {
      FieldsFromListGrows(fields, items, k - 1);
    }
  }

  /** Merging fields keeps every existing field, in place, and adds no duplicate name. */
  lemma MongoFieldsGrow(fields: seq<Field>, fieldsObj: Value)
    ensures fields <= MongoFields(fields, fieldsObj)
    ensures UniqueNames(fields, FieldName) ==> UniqueNames(MongoFields(fields, fieldsObj), FieldName)
  {
    if fieldsObj.List? {
      FieldsFromListGrows(fields, fieldsObj.items, |fieldsObj.items|);
    }
  }

  lemma TableUpsertOk(tbs: seq<Table>, fixed: bool, name: string, input: seq<(string, Value)>, ts: Instant)
    requires UniqueNames(tbs, TableName) && forall i :: 0 <= i < |tbs| ==> TableOk(tbs[i])
    ensures var r := TableUpsert(tbs, fixed, name, input, ts);
      UniqueNames(r, TableName) && forall i :: 0 <= i < |r| ==> TableOk(r[i])
  {
    if !(fixed && FindByName(tbs, TableName, name).None?) {
      var (tbs', j) := Locate(tbs, TableName, name, NewTable(name, ts));
      LocateKeepsAll(tbs, TableName, TableOk, name, NewTable(name, ts));
      var t := tbs'[j].(lastSeen := Some(ts), totalQueries := tbs'[j].totalQueries + 1);
      var t' := if HasKey(input, "columns") then MergeColumns(t, Get(input, "columns").value) else t;
      assert TableOk(t') by {
        if HasKey(input, "columns") {
          TableColumnsGrow(t.columns, Get(input, "columns").value);
        }
      }
      ReplaceKeepsAll(tbs', TableName, TableOk, j, t');
    }
  }

  lemma SchemaUpsertOk(ss: seq<Schema>, fixed: bool, name: string, tableName: Option<string>,
                       input: seq<(string, Value)>, ts: Instant)
    requires UniqueNames(ss, SchemaName) && forall i :: 0 <= i < |ss| ==> SchemaOk(ss[i])
    ensures var r := SchemaUpsert(ss, fixed, name, tableName, input, ts);
      UniqueNames(r, SchemaName) && forall i :: 0 <= i < |r| ==> SchemaOk(r[i])
  {
    if !(fixed && FindByName(ss, SchemaName, name).None?) {
      var (ss', i) := Locate(ss, SchemaName, name, NewSchema(name, ts));
      LocateKeepsAll(ss, SchemaName, SchemaOk, name, NewSchema(name, ts));
      var sc := ss'[i].(lastSeen := Some(ts), totalQueries := ss'[i].totalQueries + 1);
      TableUpdateOk(sc, tableName, input, ts);
      ReplaceKeepsAll(ss', SchemaName, SchemaOk, i, TableUpdate(sc, tableName, input, ts));
    }
  }

  lemma TableUpdateOk(sc: Schema, tableName: Option<string>, input: seq<(string, Value)>, ts: Instant)
    requires SchemaOk(sc)
    ensures SchemaOk(TableUpdate(sc, tableName, input, ts))
  {
    if tableName.Some? && tableName.value != "" && !IsSystemTable(tableName.value) {
      TableUpsertOk(sc.tables, sc.tablesFixed, tableName.value, input, ts);
    }
  }

  lemma CollectionUpsertOk(cs: seq<Collection>, name: string, input: seq<(string, Value)>, ts: Instant)
    requires UniqueNames(cs, CollectionName) && forall i :: 0 <= i < |cs| ==> CollectionOk(cs[i])
    ensures var r := CollectionUpsert(cs, name, input, ts);
      UniqueNames(r, CollectionName) && forall i :: 0 <= i < |r| ==> CollectionOk(r[i])
  {
    var (cs', i) := Locate(cs, CollectionName, name, NewCollection(name, ts));
    var c := cs'[i].(lastSeen := Some(ts), totalQueries := cs'[i].totalQueries + 1);
    if HasKey(input, "columns") {
      MongoFieldsGrow(c.fields, Get(input, "columns").value);
    }
    var c' := if HasKey(input, "columns") then c.(fields := MongoFields(c.fields, Get(input, "columns").value)) else c;
    assert forall j :: 0 <= j < |cs'| ==> CollectionOk(cs'[j]);
    ReplaceKeepsUnique(cs', CollectionName, i, c');
  }

  /** Processing an input keeps every name unique within its list. */
  lemma ProcessInputOk(reg: Registry, input: seq<(string, Value)>, ts: Instant)
    requires RegistryOk(reg)
    ensures RegistryOk(ProcessInput(reg, input, ts))
  {
    var catalog := CatalogOf(input);
    if catalog.Some? {
      var k := catalog.value;
      var bumped := Bumped(reg.databases, k, ts);
      assert DatabaseOk(bumped);
      HandleOk(bumped, GuessDbType(k), input, ts);
    }
  }

  /** Either branch keeps the database's names unique. */
  lemma HandleOk(db: Database, dbType: string, input: seq<(string, Value)>, ts: Instant)
    requires DatabaseOk(db)
    ensures DatabaseOk(Handle(db, dbType, input, ts))
  {
    var schemaName := StringValue(input, ["schema"]);
    var tableName := StringValue(input, ["table"]);
    if dbType == "mongodb" {
      var name := CollectionNameOf(schemaName, tableName);
      if name.Some? {
        CollectionUpsertOk(db.collections, name.value, input, ts);
      }
    } else if schemaName.Some? && schemaName.value != "" && !(IsSystemSchema(schemaName.value) && schemaName.value != "public") {
      SchemaUpsertOk(db.schemas, db.schemasFixed, schemaName.value, tableName, input, ts);
    }
  }

  // ---------------------------------------------------------------------------
  // MongoDB databases hold collections only, the others schemas only

  predicate KindsSeparate(reg: Registry) {
    forall k :: k in reg.databases ==>
      if GuessDbType(k) == "mongodb" then reg.databases[k].schemas == []
      else reg.databases[k].collections == []
  }

  /** A database whose catalog name reads as MongoDB never gains a schema; any other never
      gains a collection. */
  lemma ProcessInputKeepsKinds(reg: Registry, input: seq<(string, Value)>, ts: Instant)
    requires KindsSeparate(reg)
    ensures KindsSeparate(ProcessInput(reg, input, ts))
  {
    var catalog := CatalogOf(input);
    if catalog.Some? {
      var k := catalog.value;
      var r := ProcessInput(reg, input, ts);
      var db := if k in reg.databases then reg.databases[k] else NewDatabase(k, ts);
      if GuessDbType(k) == "mongodb" {
        assert r.databases[k].schemas == db.schemas;
      } else {
        assert r.databases[k].collections == db.collections;
      }
    }
  }

  // ---------------------------------------------------------------------------
  // The stop rules for system schemas and tables

  function SchemasOf(dbs: map<string, Database>, k: string): seq<Schema> {
    if k in dbs then dbs[k].schemas else []
  }

  predicate SchemasFixedIn(dbs: map<string, Database>, k: string) {
    k in dbs && dbs[k].schemasFixed
  }

  /** A system schema stops processing after the database was counted: no schema changes. */
  lemma SystemSchemaSkipped(reg: Registry, input: seq<(string, Value)>, ts: Instant)
    requires CatalogOf(input).Some? && GuessDbType(CatalogOf(input).value) != "mongodb"
    requires var s := StringValue(input, ["schema"]); s.Some? && IsSystemSchema(s.value) && s.value != "public"
    ensures var k := CatalogOf(input).value; var r := ProcessInput(reg, input, ts);
      r.databases[k].schemas == SchemasOf(reg.databases, k)
      && r.databases[k].totalQueries == QueriesOf(reg.databases, k) + 1
  {
    assert StringValue(input, ["schema"]).value != "" by {
      assert ToLower("") == "";
    }
  }

  /** A system table stops processing after its schema was counted: no table list changes,
      and the schema named by the input is found or created, counted once more and seen
      at ts, unless creating it in a fixed-size list threw. */
  lemma SystemTableSkipped(reg: Registry, input: seq<(string, Value)>, ts: Instant)
    requires CatalogOf(input).Some? && GuessDbType(CatalogOf(input).value) != "mongodb"
    requires var s := StringValue(input, ["schema"]);
      s.Some? && s.value != "" && !IsSystemSchema(s.value)
    requires var t := StringValue(input, ["table"]); t.Some? && IsSystemTable(t.value)
    ensures var k := CatalogOf(input).value;
      var s := StringValue(input, ["schema"]).value;
      var before := SchemasOf(reg.databases, k);
      var after := ProcessInput(reg, input, ts).databases[k].schemas;
      && (|after| == |before| || |after| == |before| + 1)
      && (forall i :: 0 <= i < |before| ==> after[i].tables == before[i].tables)
      && (|after| == |before| + 1 ==> after[|before|].tables == [])
      && (FindByName(after, SchemaName, s).None? <==>
            SchemasFixedIn(reg.databases, k) && FindByName(before, SchemaName, s).None?)
      && (FindByName(after, SchemaName, s).Some? ==>
            var i := FindByName(after, SchemaName, s).value;
            after[i].totalQueries == PriorCount(before, SchemaName, SchemaQueries, s) + 1
            && after[i].lastSeen == Some(ts))
  {
    var k := CatalogOf(input).value;
    var s := StringValue(input, ["schema"]).value;
    var t := StringValue(input, ["table"]);
    assert t.value != "" by {
      assert ToLower("") == "";
    }
    var db := if k in reg.databases then reg.databases[k] else NewDatabase(k, ts);
    assert ProcessInput(reg, input, ts).databases[k].schemas == SchemaUpsert(db.schemas, db.schemasFixed, s, t, input, ts);
    SchemaUpsertSkipsTable(db.schemas, db.schemasFixed, s, t, input, ts);
    SchemaUpsertBumps(db.schemas, db.schemasFixed, s, t, input, ts);
  }

  /** With a system table name, the schema list only gains the named schema (if absent
      and the list can grow) and no table list changes. */
  lemma SchemaUpsertSkipsTable(ss: seq<Schema>, fixed: bool, name: string, tableName: Option<string>,
                               input: seq<(string, Value)>, ts: Instant)
    requires tableName.Some? && IsSystemTable(tableName.value)
    ensures var after := SchemaUpsert(ss, fixed, name, tableName, input, ts);
      && (|after| == |ss| || |after| == |ss| + 1)
      && (forall i :: 0 <= i < |ss| ==> after[i].tables == ss[i].tables)
      && (|after| == |ss| + 1 ==> after[|ss|].tables == [])
      && (FindByName(after, SchemaName, name).None? <==> fixed && FindByName(ss, SchemaName, name).None?)
  {
    if !(fixed && FindByName(ss, SchemaName, name).None?) {
      var (ss', i) := Locate(ss, SchemaName, name, NewSchema(name, ts));
      var after := SchemaUpsert(ss, fixed, name, tableName, input, ts);
      assert after[i].name == name;
    }
  }

  /** The usage count a find-or-create starts from: the found entry's, or 0 for a new one. */
  function PriorCount<T>(xs: seq<T>, key: T -> string, count: T -> int, n: string): int {
    match FindByName(xs, key, n)
    case Some(i) => count(xs[i])
    case None => 0
  }

  function SchemaQueries(s: Schema): int { s.totalQueries }
  function TableQueries(t: Table): int { t.totalQueries }
  function CollectionQueries(c: Collection): int { c.totalQueries }

  /** The schema an input names is counted once more and seen at ts, whether found or
      created; only a fixed-size list that lacks it stays as it was. */
  lemma SchemaUpsertBumps(ss: seq<Schema>, fixed: bool, name: string, tableName: Option<string>,
                          input: seq<(string, Value)>, ts: Instant)
    ensures var after := SchemaUpsert(ss, fixed, name, tableName, input, ts);
      if fixed && FindByName(ss, SchemaName, name).None? then after == ss
      else
        && FindByName(after, SchemaName, name).Some?
        && var i := FindByName(after, SchemaName, name).value;
        && after[i].totalQueries == PriorCount(ss, SchemaName, SchemaQueries, name) + 1
        && after[i].lastSeen == Some(ts)
  {
    if !(fixed && FindByName(ss, SchemaName, name).None?) {
      var (ss', i) := Locate(ss, SchemaName, name, NewSchema(name, ts));
      var sc := ss'[i].(lastSeen := Some(ts), totalQueries := ss'[i].totalQueries + 1);
      LocateThenFind(ss, SchemaName, name, NewSchema(name, ts), TableUpdate(sc, tableName, input, ts));
    }
  }

  /** The table an input names is counted once more and seen at ts, whether found or
      created; only a fixed-size list that lacks it stays as it was. */
  lemma TableUpsertBumps(tbs: seq<Table>, fixed: bool, name: string, input: seq<(string, Value)>, ts: Instant)
    ensures var after := TableUpsert(tbs, fixed, name, input, ts);
      if fixed && FindByName(tbs, TableName, name).None? then after == tbs
      else
        && FindByName(after, TableName, name).Some?
        && var j := FindByName(after, TableName, name).value;
        && after[j].totalQueries == PriorCount(tbs, TableName, TableQueries, name) + 1
        && after[j].lastSeen == Some(ts)
  {
    if !(fixed && FindByName(tbs, TableName, name).None?) {
      var (tbs', j) := Locate(tbs, TableName, name, NewTable(name, ts));
      var t := tbs'[j].(lastSeen := Some(ts), totalQueries := tbs'[j].totalQueries + 1);
      var t' := if HasKey(input, "columns") then MergeColumns(t, Get(input, "columns").value) else t;
      assert TableUpsert(tbs, fixed, name, input, ts) == tbs'[j := t'];
      LocateThenFind(tbs, TableName, name, NewTable(name, ts), t');
    }
  }

  /** The collection an input names is counted once more and seen at ts, whether found
      or created. */
  lemma CollectionUpsertBumps(cs: seq<Collection>, name: string, input: seq<(string, Value)>, ts: Instant)
    ensures var after := CollectionUpsert(cs, name, input, ts);
      && FindByName(after, CollectionName, name).Some?
      && var i := FindByName(after, CollectionName, name).value;
      && after[i].totalQueries == PriorCount(cs, CollectionName, CollectionQueries, name) + 1
      && after[i].lastSeen == Some(ts)
  {
    var (cs', i) := Locate(cs, CollectionName, name, NewCollection(name, ts));
    var c := cs'[i].(lastSeen := Some(ts), totalQueries := cs'[i].totalQueries + 1);
    var c' := if HasKey(input, "columns") then c.(fields := MongoFields(c.fields, Get(input, "columns").value)) else c;
    LocateThenFind(cs, CollectionName, name, NewCollection(name, ts), c');
  }

  // ---------------------------------------------------------------------------
  // Fixed-size lists never grow

  /** a is b after some inputs: same name and list kind, and fixed-size columns unchanged. */
  predicate TableKept(b: Table, a: Table) {
    a.name == b.name && a.columnsFixed == b.columnsFixed && (b.columnsFixed ==> a.columns == b.columns)
  }

  /** Every table of b is still in place in a; a fixed-size table list has gained none. */
  predicate SchemaKept(b: Schema, a: Schema) {
    && a.name == b.name && a.tablesFixed == b.tablesFixed
    && |b.tables| <= |a.tables| && (b.tablesFixed ==> |a.tables| == |b.tables|)
    && forall i :: 0 <= i < |b.tables| ==> TableKept(b.tables[i], a.tables[i])
  }

  /** Every schema of b is still in place in a; a fixed-size schema list has gained none. */
  predicate DatabaseKept(b: Database, a: Database) {
    && a.schemasFixed == b.schemasFixed
    && |b.schemas| <= |a.schemas| && (b.schemasFixed ==> |a.schemas| == |b.schemas|)
    && forall i :: 0 <= i < |b.schemas| ==> SchemaKept(b.schemas[i], a.schemas[i])
  }

  lemma TableUpsertKeeps(tbs: seq<Table>, fixed: bool, name: string, input: seq<(string, Value)>, ts: Instant)
    ensures var r := TableUpsert(tbs, fixed, name, input, ts);
      && |tbs| <= |r| && (fixed ==> |r| == |tbs|)
      && forall i :: 0 <= i < |tbs| ==> TableKept(tbs[i], r[i])
  {
    if !(fixed && FindByName(tbs, TableName, name).None?) {
      var (tbs', j) := Locate(tbs, TableName, name, NewTable(name, ts));
      assert fixed ==> tbs' == tbs;
    }
  }

  lemma SchemaUpsertKeeps(ss: seq<Schema>, fixed: bool, name: string, tableName: Option<string>,
                          input: seq<(string, Value)>, ts: Instant)
    ensures var r := SchemaUpsert(ss, fixed, name, tableName, input, ts);
      && |ss| <= |r| && (fixed ==> |r| == |ss|)
      && forall i :: 0 <= i < |ss| ==> SchemaKept(ss[i], r[i])
  {
    if !(fixed && FindByName(ss, SchemaName, name).None?) {
      var (ss', i) := Locate(ss, SchemaName, name, NewSchema(name, ts));
      assert fixed ==> ss' == ss;
      var sc := ss'[i].(lastSeen := Some(ts), totalQueries := ss'[i].totalQueries + 1);
      TableUpdateKeeps(sc, tableName, input, ts);
    }
  }

  lemma TableUpdateKeeps(sc: Schema, tableName: Option<string>, input: seq<(string, Value)>, ts: Instant)
    ensures SchemaKept(sc, TableUpdate(sc, tableName, input, ts))
  {
    if tableName.Some? && tableName.value != "" && !IsSystemTable(tableName.value) {
      TableUpsertKeeps(sc.tables, sc.tablesFixed, tableName.value, input, ts);
    }
  }

  /** An input never adds to a fixed-size list, so a seed catalog keeps its schemas, a seed
      schema with fixed-size tables keeps its tables and a seed table keeps its columns;
      every other list only grows at its end. */
  lemma ProcessInputKeepsFixed(reg: Registry, input: seq<(string, Value)>, ts: Instant)
    ensures forall k :: k in reg.databases ==>
      DatabaseKept(reg.databases[k], ProcessInput(reg, input, ts).databases[k])
  {
    var catalog := CatalogOf(input);
    if catalog.Some? && catalog.value in reg.databases {
      var k := catalog.value;
      var db := Bumped(reg.databases, k, ts);
      assert ProcessInput(reg, input, ts).databases[k] == Handle(db, GuessDbType(k), input, ts);
      var schemaName := StringValue(input, ["schema"]);
      if GuessDbType(k) != "mongodb" && schemaName.Some? && schemaName.value != ""
         && !(IsSystemSchema(schemaName.value) && schemaName.value != "public") {
        SchemaUpsertKeeps(db.schemas, db.schemasFixed, schemaName.value, StringValue(input, ["table"]), input, ts);
      }
    }
  }

  // ---------------------------------------------------------------------------
  // Sequences of inputs

  lemma {:induction false} ProcessAllConcat(reg: Registry, a: seq<seq<(string, Value)>>, b: seq<seq<(string, Value)>>, ts: Instant)
    ensures ProcessAll(reg, a + b, ts) == ProcessAll(ProcessAll(reg, a, ts), b, ts)
    decreases |b|
  {
    if b == [] {
      assert a + b == a;
    } else {
      assert (a + b)[..|a + b| - 1] == a + b[..|b| - 1];
      ProcessAllConcat(reg, a, b[..|b| - 1], ts);
    }
  }

  /** One more plan line processes that line's inputs after those of the lines before it. */
  lemma LinesInputsStep(start: Registry, lines: seq<string>, i: nat, ts: Instant)
    requires i < |lines|
    ensures ProcessAll(start, LinesInputs(lines, i + 1), ts)
      == ProcessAll(ProcessAll(start, LinesInputs(lines, i), ts), LineInputs(lines[i]), ts)
  {
    ProcessAllConcat(start, LinesInputs(lines, i), LineInputs(lines[i]), ts);
  }

  /** Each input naming catalog k adds exactly one to k's query count and to its
      database's totalQueries; no other input touches either. */
  lemma {:induction false} ProcessAllCounts(reg: Registry, inputs: seq<seq<(string, Value)>>, ts: Instant, k: string)
    ensures CountOf(ProcessAll(reg, inputs, ts).counts, k) == CountOf(reg.counts, k) + Occurrences(inputs, k)
    ensures QueriesOf(ProcessAll(reg, inputs, ts).databases, k) == QueriesOf(reg.databases, k) + Occurrences(inputs, k)
    decreases |inputs|
  {
    if inputs != [] {
      ProcessAllCounts(reg, inputs[..|inputs| - 1], ts, k);
      ProcessInputEffect(ProcessAll(reg, inputs[..|inputs| - 1], ts), inputs[|inputs| - 1], ts);
    }
  }

  /** The databases afterwards are those before plus one per catalog named: each is
      created at most once. */
  lemma {:induction false} ProcessAllKeys(reg: Registry, inputs: seq<seq<(string, Value)>>, ts: Instant)
    ensures ProcessAll(reg, inputs, ts).databases.Keys == reg.databases.Keys + CatalogsIn(inputs)
    decreases |inputs|
  {
    if inputs != [] {
      ProcessAllKeys(reg, inputs[..|inputs| - 1], ts);
      ProcessInputEffect(ProcessAll(reg, inputs[..|inputs| - 1], ts), inputs[|inputs| - 1], ts);
    }
  }

  /** Unique names and the MongoDB/relational separation hold after any inputs. */
  lemma {:induction false} ProcessAllInvariants(reg: Registry, inputs: seq<seq<(string, Value)>>, ts: Instant)
    requires RegistryOk(reg) && KindsSeparate(reg)
    ensures RegistryOk(ProcessAll(reg, inputs, ts)) && KindsSeparate(ProcessAll(reg, inputs, ts))
    decreases |inputs|
  {
    if inputs != [] {
      var init := inputs[..|inputs| - 1];
      ProcessAllInvariants(reg, init, ts);
      ProcessInputOk(ProcessAll(reg, init, ts), inputs[|inputs| - 1], ts);
      ProcessInputKeepsKinds(ProcessAll(reg, init, ts), inputs[|inputs| - 1], ts);
    }
  }

  /** After any inputs, every database keeps its fixed-size lists as they were. */
  lemma {:induction false} ProcessAllKeepsFixed(reg: Registry, inputs: seq<seq<(string, Value)>>, ts: Instant)
    ensures forall k :: k in reg.databases ==>
      k in ProcessAll(reg, inputs, ts).databases && DatabaseKept(reg.databases[k], ProcessAll(reg, inputs, ts).databases[k])
    decreases |inputs|
  {
    if inputs != [] {
      var init := inputs[..|inputs| - 1];
      var mid := ProcessAll(reg, init, ts);
      ProcessAllKeepsFixed(reg, init, ts);
      ProcessInputKeepsFixed(mid, inputs[|inputs| - 1], ts);
      ProcessInputEffect(mid, inputs[|inputs| - 1], ts);
      forall k | k in reg.databases
        ensures DatabaseKept(reg.databases[k], ProcessAll(reg, inputs, ts).databases[k])
      {
        DatabaseKeptTrans(reg.databases[k], mid.databases[k], ProcessAll(reg, inputs, ts).databases[k]);
      }
    }
  }

  lemma DatabaseKeptTrans(a: Database, b: Database, c: Database)
    requires DatabaseKept(a, b) && DatabaseKept(b, c)
    ensures DatabaseKept(a, c)
  {
    forall i | 0 <= i < |a.schemas| ensures SchemaKept(a.schemas[i], c.schemas[i]) {
      assert SchemaKept(a.schemas[i], b.schemas[i]) && SchemaKept(b.schemas[i], c.schemas[i]);
    }
  }

  // ---------------------------------------------------------------------------
  // Every reference in a text plan names its catalog

  predicate AllNamed(inputs: seq<seq<(string, Value)>>) {
    forall input :: input in inputs ==> CatalogOf(input).Some?
  }

  lemma PlanInputNamed(catalog: string, schema: string, table: Option<string>)
    ensures CatalogOf(PlanInput(catalog, schema, table)) == Some(catalog)
    ensures StringValue(PlanInput(catalog, schema, table), ["schema"]) == Some(schema)
    ensures StringValue(PlanInput(catalog, schema, table), ["table"]) == table
  {
    var m := PlanInput(catalog, schema, table);
    assert Get(m, "catalogName") == Some(Str(catalog));
    assert Get(m, "schema") == Some(Str(schema));
    if table.Some? {
      assert Get(m[2..], "table") == Some(Str(table.value));
    } else {
      assert !HasKey(m, "table");
    }
  }

  lemma AllNamedConcat(a: seq<seq<(string, Value)>>, b: seq<seq<(string, Value)>>)
    requires AllNamed(a) && AllNamed(b)
    ensures AllNamed(a + b)
  {
  }

  lemma PartsInputNamed(parts: seq<string>)
    ensures AllNamed(PartsInput(parts))
  {
    if |parts| >= 2 {
      PlanInputNamed(Trim(parts[0]), Trim(parts[1]), if |parts| > 2 then Some(Trim(parts[2])) else None);
    }
  }

  lemma PatternInputNamed(line: string, pattern: string)
    ensures AllNamed(PatternInput(line, pattern))
  {
    match AfterPattern(line, pattern)
    case None =>
    case Some(rest) => PartsInputNamed(JavaSplit(rest, REFERENCE_SEPARATORS));
  }

  lemma {:induction false} PatternsInputsNamed(line: string, j: nat)
    requires j <= |PATTERNS|
    ensures AllNamed(PatternsInputs(line, j))
  {
    if j > 0 {
      PatternsInputsNamed(line, j - 1);
      PatternInputNamed(line, PATTERNS[j - 1]);
      AllNamedConcat(PatternsInputs(line, j - 1), PatternInput(line, PATTERNS[j - 1]));
    }
  }

  lemma LineInputsNamed(line: string)
    ensures AllNamed(LineInputs(line))
  {
    if |line| >= 5 {
      PatternsInputsNamed(line, |PATTERNS|);
    }
  }

  lemma {:induction false} LinesWithNamed(f: string -> seq<seq<(string, Value)>>, lines: seq<string>, i: nat)
    requires i <= |lines|
    requires forall line :: AllNamed(f(line))
    ensures AllNamed(LinesWith(f, lines, i))
    decreases i
  {
    if i > 0 {
      LinesWithNamed(f, lines, i - 1);
      AllNamedConcat(LinesWith(f, lines, i - 1), f(lines[i - 1]));
    }
  }

  /** Every reference extracted from a plan carries its catalog, so each one counts once
      for that catalog. */
  lemma PlanInputsNamed(plan: string)
    ensures AllNamed(PlanInputs(plan))
  {
    if plan != "" {
      var lines := JavaSplit(plan, LINE_SEPARATOR);
      forall line | true
        ensures AllNamed(LineInputs(line))
      {
        LineInputsNamed(line);
      }
      LinesWithNamed(LineInputs, lines, |lines|);
    }
  }

  /** A null event, or one without a query id, changes nothing; otherwise each input of
      the event counts once for its catalog. */
  lemma ProcessEventCounts(reg: Registry, event: Option<QueryEvent>, k: string)
    ensures event.None? || event.value.queryId.None? ==> ProcessEventSpec(reg, event) == reg
    ensures event.Some? && event.value.queryId.Some? ==>
      CountOf(ProcessEventSpec(reg, event).counts, k) == CountOf(reg.counts, k) + Occurrences(EventInputs(event.value), k)
  {
    if event.Some? && event.value.queryId.Some? {
      ProcessAllCounts(reg, EventInputs(event.value), event.value.timestamp, k);
    }
  }

  /** Unique names and the MongoDB/relational separation survive every event. */
  lemma ProcessEventInvariants(reg: Registry, event: Option<QueryEvent>)
    requires RegistryOk(reg) && KindsSeparate(reg)
    ensures RegistryOk(ProcessEventSpec(reg, event)) && KindsSeparate(ProcessEventSpec(reg, event))
  {
    if event.Some? && event.value.queryId.Some? {
      ProcessAllInvariants(reg, EventInputs(event.value), event.value.timestamp);
    }
  }

  /** An event with a query id registers every catalog its inputs name, its own catalog
      among them, and no other database. */
  lemma ProcessEventKeys(reg: Registry, e: QueryEvent)
    requires e.queryId.Some?
    ensures ProcessEventSpec(reg, Some(e)).databases.Keys == reg.databases.Keys + CatalogsIn(EventInputs(e))
    ensures e.catalog.Some? ==> e.catalog.value in ProcessEventSpec(reg, Some(e)).databases
  {
    var inputs := EventInputs(e);
    ProcessAllKeys(reg, inputs, e.timestamp);
    if e.catalog.Some? {
      var last := SyntheticInput(e.catalog.value, e.schema, e.tableName);
      assert Get(last, "catalogName") == Some(Str(e.catalog.value));
      assert inputs[|inputs| - 1] == last;
    }
  }

  // ---------------------------------------------------------------------------
  // Every database is stored under its own id

  predicate IdsMatch(dbs: map<string, Database>) {
    forall k :: k in dbs ==> dbs[k].id == Some(k)
  }

  lemma ProcessInputKeepsIds(reg: Registry, input: seq<(string, Value)>, ts: Instant)
    requires IdsMatch(reg.databases)
    ensures IdsMatch(ProcessInput(reg, input, ts).databases)
  {
  }

  lemma {:induction false} ProcessAllKeepsIds(reg: Registry, inputs: seq<seq<(string, Value)>>, ts: Instant)
    requires IdsMatch(reg.databases)
    ensures IdsMatch(ProcessAll(reg, inputs, ts).databases)
    decreases |inputs|
  {
    if inputs != [] {
      ProcessAllKeepsIds(reg, inputs[..|inputs| - 1], ts);
      ProcessInputKeepsIds(ProcessAll(reg, inputs[..|inputs| - 1], ts), inputs[|inputs| - 1], ts);
    }
  }

  /** Processing one input after a sequence of them. */
  lemma ProcessAllSnoc(reg: Registry, inputs: seq<seq<(string, Value)>>, x: seq<(string, Value)>, ts: Instant)
    ensures ProcessAll(reg, inputs + [x], ts) == ProcessInput(ProcessAll(reg, inputs, ts), x, ts)
  {
    assert (inputs + [x])[..|inputs + [x]| - 1] == inputs;
  }

  // ---------------------------------------------------------------------------
  // The loops of the service

  /** getStringValue: the keys are tried in order. */
  method GetStringValue(m: seq<(string, Value)>, keys: seq<string>) returns (r: Option<string>)
    ensures r == StringValue(m, keys)
  {
    var i := 0;
    while i < |keys|
      invariant 0 <= i <= |keys|
      invariant StringValue(m, keys) == StringValue(m, keys[i..])
    {
      assert keys[i..][1..] == keys[i + 1..];
      if IsStrAt(m, keys[i]) {
        return Some(Get(m, keys[i]).value.s);
      }
      i := i + 1;
    }
    return None;
  }

  /** processMongoFields, on the collection's field list. */
  method ProcessMongoFields(fields: seq<Field>, fieldsObj: Value) returns (r: seq<Field>)
    ensures r == MongoFields(fields, fieldsObj)
  {
    r := fields;
    if fieldsObj.List? {
      var items := fieldsObj.items;
      var i := 0;
      while i < |items|
        invariant 0 <= i <= |items|
        invariant r == FieldsFromList(fields, items, i)
      {
        var item := items[i];
        if item.Obj? {
          var fieldName := NameOf(item.entries);
          var fieldType := TypeOf(item.entries);
          if fieldName.Some? && FindByName(r, FieldName, fieldName.value).None? {
            r := r + [Field(fieldName.value, fieldType, IsNestedType(fieldType))];
          }
        }
        i := i + 1;
      }
    }
  }

  /** processTableColumns, on the table's column list. */
  method ProcessTableColumns(cols: seq<Column>, columnsObj: Value) returns (r: seq<Column>)
    ensures r == TableColumns(cols, columnsObj)
  {
    match columnsObj {
      case List(items) => r := ColumnsFromListLoop(cols, items);
      case Obj(entries) => r := ColumnsFromMapLoop(cols, entries);
      case _ => r := cols;
    }
  }

  /** The List branch of processTableColumns. */
  method ColumnsFromListLoop(cols: seq<Column>, items: seq<Value>) returns (r: seq<Column>)
    ensures r == ColumnsFromList(cols, items, |items|)
  {
    r := cols;
    var i := 0;
    while i < |items|
      invariant 0 <= i <= |items|
      invariant r == ColumnsFromList(cols, items, i)
    {
      var item := items[i];
      if item.Obj? {
        var columnName := NameOf(item.entries);
        if columnName.Some? && FindByName(r, ColumnName, columnName.value).None? {
          r := r + [Column(columnName.value, TypeOf(item.entries), None, None)];
        }
      }
      i := i + 1;
    }
  }

  /** The Map branch of processTableColumns: keys in the map's iteration order. */
  method ColumnsFromMapLoop(cols: seq<Column>, entries: seq<(string, Value)>) returns (r: seq<Column>)
    ensures r == ColumnsFromMap(cols, entries, |entries|)
  {
    r := cols;
    var i := 0;
    while i < |entries|
      invariant 0 <= i <= |entries|
      invariant r == ColumnsFromMap(cols, entries, i)
    {
      var columnName := entries[i].0;
      var value := entries[i].1;
      var column := Column(columnName, if value.Null? then None else Some(Render(value)), None, None);
      assert column == EntryColumn(entries[i]);
      AddIfAbsentCases(r, ColumnName, column);
      if FindByName(r, ColumnName, columnName).None? {
        r := r + [column];
      }
      i := i + 1;
    }
  }

  /** The branch of processInputMetadata on the guessed type. */
  method HandleDatabase(db: Database, dbType: string, schemaName: Option<string>, tableName: Option<string>,
                        input: seq<(string, Value)>, ts: Instant) returns (r: Database)
    ensures dbType == "mongodb" ==> r == MongoUpdate(db, schemaName, tableName, input, ts)
    ensures dbType != "mongodb" ==> r == RelationalUpdate(db, schemaName, tableName, input, ts)
    ensures schemaName == StringValue(input, ["schema"]) && tableName == StringValue(input, ["table"])
      ==> r == Handle(db, dbType, input, ts)
  {
    if dbType == "mongodb" {
      r := HandleMongoDatabase(db, schemaName, tableName, input, ts);
    } else {
      r := HandleRelationalDatabase(db, schemaName, tableName, input, ts);
    }
  }

  /** handleMongoDatabase on a database already bumped. */
  method HandleMongoDatabase(db: Database, schemaName: Option<string>, tableName: Option<string>,
                             input: seq<(string, Value)>, ts: Instant) returns (r: Database)
    ensures r == MongoUpdate(db, schemaName, tableName, input, ts)
  {
    r := db;
    var collectionName := CollectionNameOf(schemaName, tableName);
    if collectionName.Some? {
      var name := collectionName.value;
      var cs := db.collections;
      var i: nat;
      match FindByName(cs, CollectionName, name) {
        case Some(j) => i := j;
        case None => cs := cs + [NewCollection(name, ts)]; i := |cs| - 1;
      }
      assert (cs, i) == Locate(db.collections, CollectionName, name, NewCollection(name, ts));
      var bumped := cs[i].(lastSeen := Some(ts), totalQueries := cs[i].totalQueries + 1);
      var c := bumped;
      if HasKey(input, "columns") {
        var fields := ProcessMongoFields(c.fields, Get(input, "columns").value);
        c := c.(fields := fields);
      }
      assert c == if HasKey(input, "columns") then bumped.(fields := MongoFields(bumped.fields, Get(input, "columns").value)) else bumped;
      r := db.(collections := cs[i := c]);
    }
  }

  /** handleRelationalDatabase on a database already bumped. */
  method HandleRelationalDatabase(db: Database, schemaName: Option<string>, tableName: Option<string>,
                                  input: seq<(string, Value)>, ts: Instant) returns (r: Database)
    ensures r == RelationalUpdate(db, schemaName, tableName, input, ts)
  {
    r := db;
    if schemaName.None? || schemaName.value == "" {
      return;
    }
    var s := schemaName.value;
    if IsSystemSchema(s) && s != "public" {
      return;
    }
    var schemas := UpsertSchema(db.schemas, db.schemasFixed, s, tableName, input, ts);
    r := db.(schemas := schemas);
  }

  /** The schema step of handleRelationalDatabase: find or create, bump, then the table.
      Adding to a fixed-size list throws; the caller's catch keeps the list as it was. */
  method UpsertSchema(ss: seq<Schema>, fixed: bool, name: string, tableName: Option<string>,
                      input: seq<(string, Value)>, ts: Instant) returns (r: seq<Schema>)
    ensures r == SchemaUpsert(ss, fixed, name, tableName, input, ts)
  {
    var ss' := ss;
    var i: nat;
    match FindByName(ss', SchemaName, name) {
      case Some(j) => i := j;
      case None =>
        if fixed {
          return ss;
        }
        ss' := ss' + [NewSchema(name, ts)]; i := |ss'| - 1;
    }
    assert (ss', i) == Locate(ss, SchemaName, name, NewSchema(name, ts));
    var bumped := ss'[i].(lastSeen := Some(ts), totalQueries := ss'[i].totalQueries + 1);
    var sc := bumped;
    if tableName.Some? && tableName.value != "" && !IsSystemTable(tableName.value) {
      var tables := UpsertTable(sc.tables, sc.tablesFixed, tableName.value, input, ts);
      sc := sc.(tables := tables);
    }
    assert sc == TableUpdate(bumped, tableName, input, ts);
    r := ss'[i := sc];
  }

  /** The table step of handleRelationalDatabase; adding to a fixed-size list throws. */
  method UpsertTable(tbs: seq<Table>, fixed: bool, name: string, input: seq<(string, Value)>, ts: Instant) returns (r: seq<Table>)
    ensures r == TableUpsert(tbs, fixed, name, input, ts)
  {
    var ts' := tbs;
    var j: nat;
    match FindByName(ts', TableName, name) {
      case Some(k) => j := k;
      case None =>
        if fixed {
          return tbs;
        }
        ts' := ts' + [NewTable(name, ts)]; j := |ts'| - 1;
    }
    var t := ts'[j].(lastSeen := Some(ts), totalQueries := ts'[j].totalQueries + 1);
    if HasKey(input, "columns") && !t.columnsFixed {
      var cols := ProcessTableColumns(t.columns, Get(input, "columns").value);
      t := t.(columns := cols);
    }
    r := ts'[j := t];
  }

  // ---------------------------------------------------------------------------
  // The service

  /** DatabaseService: the databases by id and the query count per database id. */
  class DatabaseService {
    var databases: map<string, Database>
    var queryCounts: map<string, int>

    function State(): Registry
      reads this
    {
      Registry(databases, queryCounts)
    }

    constructor()
      ensures State() == Registry(map[], map[])
    {
      databases := map[];
      queryCounts := map[];
    }

    /** processEvent: the inputs list, the metadata's inputs list, the plan's references
        and the event's own catalog, in that order. */
    method ProcessEvent(event: Option<QueryEvent>)
      modifies this
      ensures State() == ProcessEventSpec(old(State()), event)
    {
      if event.None? || event.value.queryId.None? {
        return;
      }
      var e := event.value;
      ghost var start := State();
      ghost var a := InputsEntry(e.inputs);
      ghost var b := InputsEntry(e.metadata);
      ghost var c := if e.plan.Some? then PlanInputs(e.plan.value) else [];
      ghost var d := if e.catalog.Some? then [SyntheticInput(e.catalog.value, e.schema, e.tableName)] else [];
      if e.inputs.Some? {
        ProcessInputs(e.inputs.value, e.timestamp);
      }
      assert State() == ProcessAll(start, a, e.timestamp);
      if e.metadata.Some? && HasKey(e.metadata.value, "inputs") {
        var inputs := Get(e.metadata.value, "inputs").value;
        // A value that is not a List fails the cast; the exception is caught.
        if inputs.List? {
          ProcessInputList(inputs.items, e.timestamp);
        }
      }
      ProcessAllConcat(start, a, b, e.timestamp);
      if e.plan.Some? {
        ExtractDatabasesFromPlan(e.plan.value, e.timestamp);
      }
      ProcessAllConcat(start, a + b, c, e.timestamp);
      if e.catalog.Some? {
        ghost var before := State();
        ProcessInputMetadata(SyntheticInput(e.catalog.value, e.schema, e.tableName), e.timestamp);
        ProcessAllSnoc(before, [], SyntheticInput(e.catalog.value, e.schema, e.tableName), e.timestamp);
      }
      ProcessAllConcat(start, a + b + c, d, e.timestamp);
    }

    /** processInputs: the "inputs" entry, when it is a List. */
    method ProcessInputs(inputs: seq<(string, Value)>, ts: Instant)
      modifies this
      ensures State() == ProcessAll(old(State()), InputsEntry(Some(inputs)), ts)
    {
      if HasKey(inputs, "inputs") && Get(inputs, "inputs").value.List? {
        ProcessInputList(Get(inputs, "inputs").value.items, ts);
      }
    }

    /** The loop over a List cast element by element to Map. */
    method ProcessInputList(items: seq<Value>, ts: Instant)
      modifies this
      ensures State() == ProcessAll(old(State()), ListInputs(items), ts)
    {
      var i := 0;
      while i < |items|
        invariant 0 <= i <= |items|
        invariant ProcessAll(old(State()), ListInputs(items), ts) == ProcessAll(State(), ListInputs(items[i..]), ts)
      {
        assert items[i..][1..] == items[i + 1..];
        match items[i] {
          case Obj(m) =>
            ghost var before := State();
            ProcessInputMetadata(m, ts);
            ProcessAllSnoc(before, [], m, ts);
            ProcessAllConcat(before, [m], ListInputs(items[i + 1..]), ts);
          case Null =>
            // processInputMetadata(null) fails inside its own try block: nothing changes.
          case _ =>
            // The cast to Map fails; the exception ends the loop.
            return;
        }
        i := i + 1;
      }
    }

    /** processInputMetadata */
    method ProcessInputMetadata(input: seq<(string, Value)>, ts: Instant)
      modifies this
      ensures State() == ProcessInput(old(State()), input, ts)
    {
      var catalogName := GetStringValue(input, ["catalogName", "connectorName"]);
      var schemaName := GetStringValue(input, ["schema"]);
      var tableName := GetStringValue(input, ["table"]);
      if catalogName.Some? {
        RecordInput(catalogName.value, schemaName, tableName, input, ts);
      }
    }

    /** processInputMetadata once the catalog is known: the database is found or
        created, bumped, counted and handed to its branch. */
    method RecordInput(k: string, schemaName: Option<string>, tableName: Option<string>,
                       input: seq<(string, Value)>, ts: Instant)
      requires schemaName == StringValue(input, ["schema"]) && tableName == StringValue(input, ["table"])
      modifies this
      ensures databases == old(databases)[k := Handle(Bumped(old(databases), k, ts), GuessDbType(k), input, ts)]
      ensures queryCounts == old(queryCounts)[k := CountOf(old(queryCounts), k) + 1]
    {
      var dbType := GuessDbType(k);
      var db := if k in databases then databases[k] else NewDatabase(k, ts);
      db := db.(lastSeen := Some(ts), totalQueries := db.totalQueries + 1);
      assert db == Bumped(old(databases), k, ts);
      IncrementQueryCount(k);
      var handled := HandleDatabase(db, dbType, schemaName, tableName, input, ts);
      assert handled == Handle(Bumped(old(databases), k, ts), GuessDbType(k), input, ts);
      databases := databases[k := handled];
    }

    /** extractDatabasesFromPlan: every line, every pattern. */
    method ExtractDatabasesFromPlan(plan: string, ts: Instant)
      modifies this
      ensures State() == ProcessAll(old(State()), PlanInputs(plan), ts)
    {
      if plan == "" {
        return;
      }
      ghost var start := State();
      var lines := JavaSplit(plan, LINE_SEPARATOR);
      var i := 0;
      while i < |lines|
        invariant 0 <= i <= |lines|
        invariant State() == ProcessAll(start, LinesInputs(lines, i), ts)
      {
        ExtractFromLine(lines[i], ts);
        LinesInputsStep(start, lines, i, ts);
        i := i + 1;
      }
      assert PlanInputs(plan) == LinesInputs(lines, |lines|);
    }

    /** The body of extractDatabasesFromPlan's loop for one line. */
    method ExtractFromLine(line: string, ts: Instant)
      modifies this
      ensures State() == ProcessAll(old(State()), LineInputs(line), ts)
    {
      if |line| < 5 {
        return;
      }
      var j := 0;
      while j < |PATTERNS|
        invariant 0 <= j <= |PATTERNS|
        invariant State() == ProcessAll(old(State()), PatternsInputs(line, j), ts)
      {
        ExtractFromPattern(line, PATTERNS[j], ts);
        ProcessAllConcat(old(State()), PatternsInputs(line, j), PatternInput(line, PATTERNS[j]), ts);
        j := j + 1;
      }
    }

    /** One pattern of one line: the reference after its first occurrence, if any. */
    method ExtractFromPattern(line: string, pattern: string, ts: Instant)
      modifies this
      ensures State() == ProcessAll(old(State()), PatternInput(line, pattern), ts)
    {
      var idx := IndexOf(line, pattern);
      if idx.Some? {
        var afterPattern := line[idx.value + |pattern|..];
        assert AfterPattern(line, pattern) == Some(afterPattern);
        var parts := JavaSplit(afterPattern, REFERENCE_SEPARATORS);
        if |parts| >= 2 {
          var table := if |parts| > 2 then Some(Trim(parts[2])) else None;
          var input := PlanInput(Trim(parts[0]), Trim(parts[1]), table);
          ProcessInputMetadata(input, ts);
          ProcessAllSnoc(old(State()), [], input, ts);
          assert PartsInput(parts) == [] + [input];
        }
      }
    }

    /** incrementQueryCount: merge with 1. */
    method IncrementQueryCount(databaseId: string)
      modifies this
      ensures queryCounts == old(queryCounts)[databaseId := CountOf(old(queryCounts), databaseId) + 1]
      ensures databases == old(databases)
    {
      queryCounts := queryCounts[databaseId := CountOf(queryCounts, databaseId) + 1];
    }

    /** addDatabase: a null database or one without an id is ignored; otherwise it is
        stored under its id, replacing any database there. */
    method AddDatabase(database: Option<Database>)
      modifies this
      ensures database.Some? && database.value.id.Some? ==>
        databases == old(databases)[database.value.id.value := database.value]
      ensures database.None? || database.value.id.None? ==> databases == old(databases)
      ensures queryCounts == old(queryCounts)
      ensures old(IdsMatch(databases)) ==> IdsMatch(databases)
    {
      if database.Some? && database.value.id.Some? {
        databases := databases[database.value.id.value := database.value];
      }
    }

    /** removeDatabase: the database and its query count go. */
    method RemoveDatabase(databaseId: string)
      modifies this
      ensures databases == old(databases) - {databaseId}
      ensures queryCounts == old(queryCounts) - {databaseId}
      ensures !DatabaseExists(databaseId)
    {
      databases := databases - {databaseId};
      queryCounts := queryCounts - {databaseId};
    }

    /** databaseExists: a registered database is among all databases; an unknown id
        has no schemas. */
    predicate DatabaseExists(databaseId: string): (r: bool)
      reads this
      ensures r ==> databaseId in databases && databases[databaseId] in GetAllDatabases() && GetTotalDatabases() >= 1
      ensures !r ==> GetSchemas(databaseId) == []
    {
      databaseId in databases
    }

    function GetTotalDatabases(): (r: nat)
      reads this
      ensures r == |databases.Keys|
    {
      |databases|
    }

    function GetAllDatabases(): (r: set<Database>)
      reads this
      ensures forall id :: id in databases ==> databases[id] in r
      ensures forall d :: d in r ==> exists id :: id in databases && databases[id] == d
    {
      databases.Values
    }

    function GetDatabaseById(id: string): (r: Option<Database>)
      reads this
      ensures r.Some? <==> DatabaseExists(id)
      ensures r.Some? ==> r.value == databases[id]
    {
      if id in databases then Some(databases[id]) else None
    }

    /** getSchemas: a copy of the list, empty for an unknown database. */
    function GetSchemas(databaseId: string): (r: seq<Schema>)
      reads this
      ensures databaseId !in databases ==> r == []
      ensures databaseId in databases ==> r == databases[databaseId].schemas
    {
      SchemasOf(databases, databaseId)
    }

    /** getSchema: the first schema of that name, if the database exists. */
    function GetSchema(databaseId: string, schemaName: string): (r: Option<Schema>)
      reads this
      ensures r.Some? ==> r.value in GetSchemas(databaseId) && r.value.name == schemaName
      ensures r.Some? ==> exists i :: (0 <= i < |GetSchemas(databaseId)| && GetSchemas(databaseId)[i] == r.value
        && forall j :: 0 <= j < i ==> GetSchemas(databaseId)[j].name != schemaName)
      ensures r.None? <==> forall i :: 0 <= i < |GetSchemas(databaseId)| ==> GetSchemas(databaseId)[i].name != schemaName
    {
      var ss := GetSchemas(databaseId);
      match FindByName(ss, SchemaName, schemaName)
      case Some(i) => Some(ss[i])
      case None => None
    }

    /** getTables: the tables of that schema, empty when it is not found. */
    function GetTables(databaseId: string, schemaName: string): (r: seq<Table>)
      reads this
      ensures GetSchema(databaseId, schemaName).None? ==> r == []
      ensures GetSchema(databaseId, schemaName).Some? ==> r == GetSchema(databaseId, schemaName).value.tables
      ensures r != [] ==> exists s :: s in GetSchemas(databaseId) && s.name == schemaName && s.tables == r
    {
      var s := GetSchema(databaseId, schemaName);
      if s.Some? then s.value.tables else []
    }

    /** getTable: the first table of that name in that schema. */
    function GetTable(databaseId: string, schemaName: string, tableName: string): (r: Option<Table>)
      reads this
      ensures r.Some? ==> r.value in GetTables(databaseId, schemaName) && r.value.name == tableName
      ensures r.Some? ==> exists i :: (0 <= i < |GetTables(databaseId, schemaName)| && GetTables(databaseId, schemaName)[i] == r.value
        && forall j :: 0 <= j < i ==> GetTables(databaseId, schemaName)[j].name != tableName)
      ensures r.None? <==> forall i :: 0 <= i < |GetTables(databaseId, schemaName)| ==> GetTables(databaseId, schemaName)[i].name != tableName
    {
      var ts := GetTables(databaseId, schemaName);
      match FindByName(ts, TableName, tableName)
      case Some(i) => Some(ts[i])
      case None => None
    }

    /** getDatabaseQueryCounts: a copy of the counts. */
    function GetDatabaseQueryCounts(): (r: map<string, int>)
      reads this
      ensures forall id :: id in r ==> r[id] == CountOf(queryCounts, id)
      ensures r.Keys == queryCounts.Keys
    {
      queryCounts
    }
  }
}
