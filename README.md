# Viz-TrinoFed core, modelled in Dafny

Viz-TrinoFed shows Trino federated queries as they run. A Spring backend takes Trino's
query-completion events, which arrive as JSON wrappers. It flattens each wrapper into a
`QueryEvent` (`TrinoEventWrapper.toQueryEvent`). It files each event under its query id
and indexes the query by catalog, `catalog.schema` and `catalog.schema.table`
(`QueryEventService`). It also registers every catalog, schema, table, column, collection
and field the event reads in an in-memory registry (`DatabaseService`). It then rebuilds
the query's tree, either from Trino's JSON plan (`QueryPlanParser`) or from the events'
own metadata. A small catalog service (`DatabaseCatalogService`) keeps a five-minute cache
of seed catalogs. A React frontend lays that tree out as a graph
(`treeTransform.ts`, `TreePage.tsx`, `DirectedEdge.tsx`). It sums the events' metrics in
the metrics panels and colours the cards (`QueryNode`, `DatabaseNode`, `Card`).

The model follows the code's own form:

- **Services with mutable state.** `Databases.DatabaseService`,
  `Catalogs.DatabaseCatalogService` and `EventService.QueryEventService` are classes.
  Their methods update `map` fields, and each method is proved against a pure
  specification function of the old state: `ProcessEventSpec`, `ProcessAll`,
  `WithDefaults`, `InsertByTime`, `Indexed` and `QueryTreeOf`.
- **Fixed-size lists.** The seed catalogs build their schema, table and column lists
  with `Arrays.asList`, whose `add` throws. processInputMetadata's catch swallows that
  exception after the database, schema or table found so far was counted. Each list of a
  `Database`, `Schema` or `Table` carries a flag for this. Adding to a flagged list ends
  the input and leaves the list as it was.
- **Loops become methods.** The Java and TypeScript loops are `while` loops with
  invariants. A loop body with its own logic is a method of its own, tied to a per-item
  function: `AddEvent`/`Step`, `ApplyEvent`/`MetadataStep`, `BuildChild`/`Child`,
  `NoteName`/`FirstPresent`.
- **Pure code becomes functions and lemmas.** This covers the plan conversion, the
  classification of names, the formatters and the colour mappings.
- **Shared definitions.** Module `Common` holds `Option` and `Outcome` (a value or a
  thrown exception). `Strings` holds `ToLower`, `IndexOf`, `Trim`,
  Java's `split` and number rendering. `Model` holds the JSON-like `Value` the backend
  passes around as `Map<String, Object>`. `ApiTypes` holds the frontend's types and
  JavaScript truthiness (`TruthyNum`, `TruthyStr`).

The registry's `Database` carries the MongoDB `collections` list, with `Collection` and
`Field`. model/Database.java as given has no such members. They follow
DatabaseService.java, which reads and writes them through `getCollections()`, and the
frontend's database.types.ts.

Files: `common.dfy`, `backend_model.dfy`, `api_types.dfy`, `database_service.dfy`,
`catalog_service.dfy`, `query_plan_parser.dfy`, `query_event_service.dfy`,
`trino_event_wrapper.dfy`, `tree_transform.dfy`, `tree_page.dfy`, `directed_edge.dfy`,
`formatting.dfy`, `metrics_panel.dfy`, `database_node.dfy`, `query_node.dfy`,
`status_card.dfy`.

## Model

| member | source | states |
|---|---|---|
| Strings.ToLower | backend/src/main/java/com/trinofed/parser/service/DatabaseService.java:391 | The result has the same length, and each character is the lower-cased character at that position |
| Strings.IndexOf | backend/src/main/java/com/trinofed/parser/service/DatabaseService.java:342 | The pattern occurs at the returned index and at no earlier index; there is no index exactly when the pattern does not occur |
| Strings.Trim | backend/src/main/java/com/trinofed/parser/service/DatabaseService.java:348-350 | The result is no longer than the string, and neither starts nor ends with a character at or below U+0020 |
| Strings.TrimShape | backend/src/main/java/com/trinofed/parser/service/DatabaseService.java:348-350 | The trimmed string is a contiguous slice of the string, and everything cut off on either side is at or below U+0020 |
| Strings.JavaSplit | backend/src/main/java/com/trinofed/parser/service/DatabaseService.java:346 | No piece holds a delimiter. A string without delimiters gives itself as the one piece; otherwise trailing empty pieces are dropped, so the last piece is non-empty or there is none |
| Model.Get | backend/src/main/java/com/trinofed/parser/service/DatabaseService.java:374-375 | A value is found exactly when the key is present, and then some entry maps the key to that value |
| Databases.StringValueSpec | backend/src/main/java/com/trinofed/parser/service/DatabaseService.java:372-379 | getStringValue gives a string only when one of the keys, tried in order, holds a string; it gives null exactly when none of them does |
| Databases.FindByName | backend/src/main/java/com/trinofed/parser/service/DatabaseService.java:181-183 | The stream's findFirst by name returns the first element with that name, and nothing exactly when no element has it |
| Databases.Locate | backend/src/main/java/com/trinofed/parser/service/DatabaseService.java:181-194 | Find-or-create on a list that can grow returns an element with the name. It appends the new element exactly when the name was absent, and it keeps names unique |
| Databases.AddIfAbsent | backend/src/main/java/com/trinofed/parser/service/DatabaseService.java:299-304 | Adding a column or field only if its name is absent extends the list by at most that one element. Afterwards the name is present, and names stay unique |
| Databases.MongoUpdate | backend/src/main/java/com/trinofed/parser/service/DatabaseService.java:119-167 | The MongoDB branch changes only the database's collections |
| Databases.TableUpdate | backend/src/main/java/com/trinofed/parser/service/DatabaseService.java:199-229 | Recording a table changes only the schema's table list |
| Databases.MergeColumns | backend/src/main/java/com/trinofed/parser/service/DatabaseService.java:226-228 | Merging a table's columns changes only its column list, and a fixed-size column list not at all |
| Databases.RelationalUpdate | backend/src/main/java/com/trinofed/parser/service/DatabaseService.java:169-231 | The relational branch changes only the database's schemas |
| Databases.Handle | backend/src/main/java/com/trinofed/parser/service/DatabaseService.java:107-112 | Handling an input by database type changes only the schemas and collections |
| Databases.ProcessInputEffect | backend/src/main/java/com/trinofed/parser/service/DatabaseService.java:82-117 | An input without a catalog name changes nothing. With catalog k, processInputMetadata adds k to the registry, adds 1 to its query count and its totalQueries, and sets lastSeen. A new k gets id, name, guessed type, ACTIVE and firstSeen. Every other database is left alone |
| Databases.AfterPattern | backend/src/main/java/com/trinofed/parser/service/DatabaseService.java:342-344 | The text after a plan pattern is missing exactly when the line does not contain the pattern |
| Databases.PartsInput | backend/src/main/java/com/trinofed/parser/service/DatabaseService.java:346-361 | A table reference gives one input exactly when it has at least two parts (catalog and schema), and none otherwise |
| Databases.LineInputs | backend/src/main/java/com/trinofed/parser/service/DatabaseService.java:337-340 | A plan line shorter than the patterns' minimum yields no input |
| Databases.ClassificationIgnoresCase | backend/src/main/java/com/trinofed/parser/service/DatabaseService.java:233-260 | The guessed database type, the system-schema test, the system-table test, the MongoDB system-database test and the nested-type test all ignore letter case |
| Databases.MongoCatalogs | backend/src/main/java/com/trinofed/parser/service/DatabaseService.java:388-395 | A catalog is guessed to be MongoDB exactly when its lower-cased name contains "mongo" and contains neither "postgres" nor "mysql" |
| Databases.PublicIsNotSystemSchema | backend/src/main/java/com/trinofed/parser/service/DatabaseService.java:174-176 | "public" is never treated as a system schema |
| Databases.IsSystemSchema | backend/src/main/java/com/trinofed/parser/service/DatabaseService.java:242-251 | A system schema name contains an underscore or is "sys" in some letter case |
| Databases.IsSystemTable | backend/src/main/java/com/trinofed/parser/service/DatabaseService.java:253-259 | A system table name contains an underscore |
| Databases.GuessDbType | backend/src/main/java/com/trinofed/parser/service/DatabaseService.java:388-403 | The guessed type has no upper-case letters, and is either one of the nine known types or the lower-cased catalog name |
| Databases.TableColumnsGrow | backend/src/main/java/com/trinofed/parser/service/DatabaseService.java:288-325 | Processing a table's columns only appends to its column list and keeps column names unique |
| Databases.MongoFieldsGrow | backend/src/main/java/com/trinofed/parser/service/DatabaseService.java:262-286 | Processing a collection's fields only appends to its field list and keeps field names unique |
| Databases.TableUpsertOk | backend/src/main/java/com/trinofed/parser/service/DatabaseService.java:206-228 | Recording a table keeps table names unique within the schema and column names unique within every table |
| Databases.TableUpdateOk | backend/src/main/java/com/trinofed/parser/service/DatabaseService.java:199-229 | Recording a table under a schema keeps the schema's table and column names unique |
| Databases.SchemaUpsertOk | backend/src/main/java/com/trinofed/parser/service/DatabaseService.java:181-229 | Recording a schema keeps schema names unique, and it keeps the table and column invariants of every schema |
| Databases.CollectionUpsertOk | backend/src/main/java/com/trinofed/parser/service/DatabaseService.java:140-163 | Recording a collection keeps collection names unique and field names unique within every collection |
| Databases.ProcessInputOk | backend/src/main/java/com/trinofed/parser/service/DatabaseService.java:82-117 | Processing one input keeps every name-uniqueness invariant of the registry |
| Databases.ProcessInputKeepsKinds | backend/src/main/java/com/trinofed/parser/service/DatabaseService.java:107-112 | A database whose name is guessed to be MongoDB never gains schemas, and any other database never gains collections |
| Databases.SystemSchemaSkipped | backend/src/main/java/com/trinofed/parser/service/DatabaseService.java:174-179 | An input in a system schema other than public leaves the database's schemas as they were but still counts the query |
| Databases.SystemTableSkipped | backend/src/main/java/com/trinofed/parser/service/DatabaseService.java:196-204 | An input on a system table adds no table to any schema. Its schema is found or created, and is missing afterwards exactly when it was missing from a fixed-size schema list. When present, its totalQueries is one more than before (0 for a new schema) and its lastSeen is the event time |
| Databases.SchemaUpsertBumps | backend/src/main/java/com/trinofed/parser/service/DatabaseService.java:196-197 | Unless the schema is missing from a fixed-size list, the schema with that name is present afterwards, its totalQueries is one more than before (0 for a new one) and its lastSeen is the event time |
| Databases.TableUpsertBumps | backend/src/main/java/com/trinofed/parser/service/DatabaseService.java:222-223 | Unless the table is missing from a fixed-size list, the table with that name is present afterwards, its totalQueries is one more than before (0 for a new one) and its lastSeen is the event time |
| Databases.CollectionUpsertBumps | backend/src/main/java/com/trinofed/parser/service/DatabaseService.java:156-157 | The collection with that name is present afterwards, its totalQueries is one more than before (0 for a new one) and its lastSeen is the event time |
| Databases.SchemaUpsertSkipsTable | backend/src/main/java/com/trinofed/parser/service/DatabaseService.java:199-204 | Recording a system table under a schema leaves every schema's tables unchanged; a new schema starts with no tables. The schema is missing afterwards exactly when the list is fixed-size and lacked it |
| Databases.TableUpsertKeeps | backend/src/main/java/com/trinofed/parser/service/DatabaseService.java:206-228 | Recording a table keeps every table in place with its name and list kind. A fixed-size table list keeps its length, and a fixed-size column list its columns |
| Databases.TableUpdateKeeps | backend/src/main/java/com/trinofed/parser/service/DatabaseService.java:199-229 | Recording a table under a schema keeps the schema's name and list kind and every table in place. A fixed-size table list gains no table |
| Databases.SchemaUpsertKeeps | backend/src/main/java/com/trinofed/parser/service/DatabaseService.java:181-229 | Recording a schema keeps every schema and table in place. A fixed-size schema list keeps its length |
| Databases.ProcessInputKeepsFixed | backend/src/main/java/com/trinofed/parser/service/DatabaseService.java:82-117 | One input never adds to a fixed-size list. Every other list only grows at its end, with its old entries kept in place |
| Databases.ProcessAllKeepsFixed | backend/src/main/java/com/trinofed/parser/service/DatabaseService.java:82-117 | After any run of inputs, every database is still registered and its fixed-size lists have not grown |
| Databases.ProcessAllCounts | backend/src/main/java/com/trinofed/parser/service/DatabaseService.java:103-105 | After a run of inputs, each catalog's query count and totalQueries have grown by exactly the number of inputs naming it |
| Databases.ProcessAllKeys | backend/src/main/java/com/trinofed/parser/service/DatabaseService.java:91-101 | After a run of inputs, the registered databases are the old ones plus every catalog named in the inputs |
| Databases.ProcessAllInvariants | backend/src/main/java/com/trinofed/parser/service/DatabaseService.java:82-117 | A run of inputs keeps names unique at every level and keeps MongoDB and relational databases apart |
| Databases.PlanInputNamed | backend/src/main/java/com/trinofed/parser/service/DatabaseService.java:353-360 | An input made from a plan reference carries that reference's catalog, schema and table |
| Databases.PlanInputsNamed | backend/src/main/java/com/trinofed/parser/service/DatabaseService.java:336-363 | Every input extracted from a plan names a catalog |
| Databases.ProcessEventCounts | backend/src/main/java/com/trinofed/parser/service/DatabaseService.java:23-65 | A null event or one without a query id changes nothing. Otherwise each catalog's count grows by the number of the event's inputs that name it |
| Databases.ProcessEventInvariants | backend/src/main/java/com/trinofed/parser/service/DatabaseService.java:23-65 | Processing an event keeps the registry's uniqueness invariants and keeps the kinds apart |
| Databases.ProcessEventKeys | backend/src/main/java/com/trinofed/parser/service/DatabaseService.java:53-64 | After an event, the registered databases are the old ones plus every catalog its inputs name, and the event's own catalog is registered |
| Databases.ProcessInputKeepsIds | backend/src/main/java/com/trinofed/parser/service/DatabaseService.java:91-95 | Every database stays stored under its own id after one input |
| Databases.ProcessAllKeepsIds | backend/src/main/java/com/trinofed/parser/service/DatabaseService.java:91-95 | Every database stays stored under its own id after any run of inputs |
| Databases.GetStringValue | backend/src/main/java/com/trinofed/parser/service/DatabaseService.java:372-379 | The loop over candidate keys computes the specified first string value |
| Databases.ProcessMongoFields | backend/src/main/java/com/trinofed/parser/service/DatabaseService.java:262-286 | The fields loop computes the specified field list, whose growth lemma is MongoFieldsGrow |
| Databases.ProcessTableColumns | backend/src/main/java/com/trinofed/parser/service/DatabaseService.java:288-325 | The columns processing, in list or map form, computes the specified column list |
| Databases.ColumnsFromListLoop | backend/src/main/java/com/trinofed/parser/service/DatabaseService.java:290-306 | The loop over a column list adds exactly the specified columns |
| Databases.ColumnsFromMapLoop | backend/src/main/java/com/trinofed/parser/service/DatabaseService.java:307-320 | The loop over a column map adds each entry's column if its name is absent |
| Databases.HandleDatabase | backend/src/main/java/com/trinofed/parser/service/DatabaseService.java:108-112 | Dispatches on the guessed type: MongoDB goes to the collection branch, everything else to the schema branch |
| Databases.HandleMongoDatabase | backend/src/main/java/com/trinofed/parser/service/DatabaseService.java:119-167 | Computes the specified MongoDB update |
| Databases.HandleRelationalDatabase | backend/src/main/java/com/trinofed/parser/service/DatabaseService.java:169-231 | Computes the specified relational update |
| Databases.UpsertSchema | backend/src/main/java/com/trinofed/parser/service/DatabaseService.java:181-229 | The find-or-create of a schema and its table computes the specified schema list |
| Databases.UpsertTable | backend/src/main/java/com/trinofed/parser/service/DatabaseService.java:206-228 | The find-or-create of a table computes the specified table list |
| Databases.DatabaseService.constructor | backend/src/main/java/com/trinofed/parser/service/DatabaseService.java:20-21 | The registry starts empty: no databases and no counts |
| Databases.DatabaseService.ProcessEvent | backend/src/main/java/com/trinofed/parser/service/DatabaseService.java:23-65 | The new registry is the event specification applied to the old one. Its counts, keys and invariants are given by ProcessEventCounts, ProcessEventKeys and ProcessEventInvariants |
| Databases.DatabaseService.ProcessInputs | backend/src/main/java/com/trinofed/parser/service/DatabaseService.java:68-80 | Processing the "inputs" entry runs every input it lists, in order |
| Databases.DatabaseService.ProcessInputList | backend/src/main/java/com/trinofed/parser/service/DatabaseService.java:73-75 | The loop processes each map item of the list in order. A null item is skipped, and an item of any other kind ends the loop |
| Databases.DatabaseService.ProcessInputMetadata | backend/src/main/java/com/trinofed/parser/service/DatabaseService.java:82-117 | The new state is one step of the input specification, whose effect is ProcessInputEffect |
| Databases.DatabaseService.RecordInput | backend/src/main/java/com/trinofed/parser/service/DatabaseService.java:88-112 | The named database is replaced by its touched and handled version, and its count grows by one; nothing else changes |
| Databases.DatabaseService.ExtractDatabasesFromPlan | backend/src/main/java/com/trinofed/parser/service/DatabaseService.java:327-370 | Scanning the text plan processes exactly the inputs its lines yield, in order |
| Databases.DatabaseService.ExtractFromLine | backend/src/main/java/com/trinofed/parser/service/DatabaseService.java:337-366 | One plan line processes the inputs its patterns yield, in pattern order |
| Databases.DatabaseService.ExtractFromPattern | backend/src/main/java/com/trinofed/parser/service/DatabaseService.java:341-364 | One pattern processes at most the one input its table reference yields |
| Databases.DatabaseService.IncrementQueryCount | backend/src/main/java/com/trinofed/parser/service/DatabaseService.java:485-487 | The database's count grows by one, starting from 0, and the databases are untouched |
| Databases.DatabaseService.AddDatabase | backend/src/main/java/com/trinofed/parser/service/DatabaseService.java:489-494 | A database with an id is stored under it; a null database or a null id changes nothing. The counts are untouched and ids stay matched |
| Databases.DatabaseService.RemoveDatabase | backend/src/main/java/com/trinofed/parser/service/DatabaseService.java:496-500 | The database and its count are removed, and afterwards it does not exist |
| Databases.DatabaseService.GetTotalDatabases | backend/src/main/java/com/trinofed/parser/service/DatabaseService.java:506-508 | The number of registered ids |
| Databases.DatabaseService.GetAllDatabases | backend/src/main/java/com/trinofed/parser/service/DatabaseService.java:406-431 | Exactly the registered databases |
| Databases.DatabaseService.GetDatabaseById | backend/src/main/java/com/trinofed/parser/service/DatabaseService.java:433-436 | Present exactly when the id is registered, and then it is that database |
| Databases.DatabaseService.DatabaseExists | backend/src/main/java/com/trinofed/parser/service/DatabaseService.java:502-504 | A database that exists is registered, is among all databases, and the total is at least one; one that does not exist has no schemas |
| Databases.DatabaseService.GetSchemas | backend/src/main/java/com/trinofed/parser/service/DatabaseService.java:438-445 | The database's schema list, and an empty list for an unknown database |
| Databases.DatabaseService.GetSchema | backend/src/main/java/com/trinofed/parser/service/DatabaseService.java:447-457 | The first schema of the database with that name, and none exactly when no schema has the name |
| Databases.DatabaseService.GetTables | backend/src/main/java/com/trinofed/parser/service/DatabaseService.java:459-466 | The table list of the schema getSchema finds, and an empty list when it finds none |
| Databases.DatabaseService.GetTable | backend/src/main/java/com/trinofed/parser/service/DatabaseService.java:468-478 | The first table of that schema with that name, and none exactly when no table has the name |
| Databases.DatabaseService.GetDatabaseQueryCounts | backend/src/main/java/com/trinofed/parser/service/DatabaseService.java:480-483 | A copy of the count map: the same keys and the same counts |
| Catalogs.ShouldRefresh | backend/src/main/java/com/trinofed/parser/service/DatabaseCatalogService.java:75-78 | An empty cache is always refreshed; a cache that is kept is non-empty and at most 300000 ms old |
| Catalogs.NotMongo | backend/src/main/java/com/trinofed/parser/service/DatabaseService.java:388-403 | A catalog id without upper-case letters that contains "postgres" or "mysql" is not guessed to be MongoDB |
| Catalogs.DefaultCatalogIds | backend/src/main/java/com/trinofed/parser/service/DatabaseCatalogService.java:60-65 | A refresh fills the cache with exactly the three catalogs postgres, mysql and system, each stored under its own id |
| Catalogs.RefreshedCacheLasts | backend/src/main/java/com/trinofed/parser/service/DatabaseCatalogService.java:75-78 | Just after a refresh, the cache is stale exactly when more than 300000 ms have passed |
| Catalogs.RefreshResetsUsage | backend/src/main/java/com/trinofed/parser/service/DatabaseCatalogService.java:80-85 | A refresh overwrites the three default databases in the registry with fresh records whose totalQueries is 0. It keeps every other database and adds no other key |
| Catalogs.WithDefaultsKeepsIds | backend/src/main/java/com/trinofed/parser/service/DatabaseCatalogService.java:80-85 | A refresh keeps every registry database stored under its own id |
| Catalogs.CustomerColumnsUnique | backend/src/main/java/com/trinofed/parser/service/DatabaseCatalogService.java:90-97 | The sample customers table has unique column names |
| Catalogs.OrderColumnsUnique | backend/src/main/java/com/trinofed/parser/service/DatabaseCatalogService.java:99-105 | The sample orders table has unique column names |
| Catalogs.PostgresCatalogOk | backend/src/main/java/com/trinofed/parser/service/DatabaseCatalogService.java:87-155 | The postgres seed catalog has unique schema, table and column names |
| Catalogs.MySqlCatalogOk | backend/src/main/java/com/trinofed/parser/service/DatabaseCatalogService.java:157-200 | The mysql seed catalog has unique schema, table and column names |
| Catalogs.DefaultCatalogsOk | backend/src/main/java/com/trinofed/parser/service/DatabaseCatalogService.java:87-232 | Every seed catalog has unique names in every list, no collections, and a fixed-size schema list |
| Catalogs.DefaultCatalogsRelational | backend/src/main/java/com/trinofed/parser/service/DatabaseCatalogService.java:143-146 | No seed catalog id is guessed to be MongoDB |
| Catalogs.WithDefaultsKeepsInvariants | backend/src/main/java/com/trinofed/parser/service/DatabaseCatalogService.java:80-85 | Registering the seed catalogs keeps names unique and keeps MongoDB and relational databases apart |
| Catalogs.DefaultCatalogsNeverGrow | backend/src/main/java/com/trinofed/parser/service/DatabaseCatalogService.java:90-205 | After a refresh and any run of inputs, each seed catalog still has exactly its seed schemas. The public and inventory schemas have no new tables, and every seed table keeps its columns |
| Catalogs.DatabaseCatalogService.constructor | backend/src/main/java/com/trinofed/parser/service/DatabaseCatalogService.java:25-28 | Construction fills the cache with the default catalogs and pushes them into the registry, leaving the counts alone |
| Catalogs.DatabaseCatalogService.RefreshCatalogCache | backend/src/main/java/com/trinofed/parser/service/DatabaseCatalogService.java:53-73 | The cache becomes exactly the default catalogs, and the refresh time is now. The registry gains or replaces those three |
| Catalogs.DatabaseCatalogService.AddCatalogToCache | backend/src/main/java/com/trinofed/parser/service/DatabaseCatalogService.java:80-85 | A database with an id goes into both the cache and the registry under that id; otherwise nothing changes |
| Catalogs.DatabaseCatalogService.AddCatalog | backend/src/main/java/com/trinofed/parser/service/DatabaseCatalogService.java:239-245 | After adding a catalog with an id, it exists in both the cache and the registry, stored under that id |
| Catalogs.DatabaseCatalogService.RemoveCatalog | backend/src/main/java/com/trinofed/parser/service/DatabaseCatalogService.java:247-251 | The catalog leaves the cache, the registry and the counts, and exists in neither afterwards |
| Catalogs.DatabaseCatalogService.GetTotalCatalogs | backend/src/main/java/com/trinofed/parser/service/DatabaseCatalogService.java:257-259 | The number of cached catalogs |
| Catalogs.DatabaseCatalogService.GetAllDatabases | backend/src/main/java/com/trinofed/parser/service/DatabaseCatalogService.java:30-41 | When stale, it refreshes the cache and registers the seed catalogs; otherwise it leaves cache and registry as they were. The counts never change. It returns exactly the cached databases, never none |
| Catalogs.DatabaseCatalogService.GetDatabaseById | backend/src/main/java/com/trinofed/parser/service/DatabaseCatalogService.java:43-51 | When stale, it refreshes the cache and registers the seed catalogs; otherwise it leaves cache and registry as they were. The counts never change. It returns the cached catalog with that id, and nothing exactly when none is cached |
| EventService.InsertByTime | backend/src/main/java/com/trinofed/parser/service/QueryEventService.java:83 | Inserting an event into a timeline adds exactly one element |
| EventService.SortByTime | backend/src/main/java/com/trinofed/parser/service/QueryEventService.java:83 | Sorting keeps the number of events |
| EventService.InsertByTimeSorted | backend/src/main/java/com/trinofed/parser/service/QueryEventService.java:83 | Inserting into a time-sorted list keeps it sorted |
| EventService.InsertByTimeMembers | backend/src/main/java/com/trinofed/parser/service/QueryEventService.java:39 | Inserting adds exactly the new event to the multiset of stored events |
| EventService.InsertByTimeStable | backend/src/main/java/com/trinofed/parser/service/QueryEventService.java:83 | Events with equal timestamps keep their arrival order, and the new one goes after them, as List.sort is stable |
| EventService.SortByTimeSpec | backend/src/main/java/com/trinofed/parser/service/QueryEventService.java:83 | Sorting by timestamp gives a sorted permutation that is stable for every timestamp |
| EventService.SortSortedUnchanged | backend/src/main/java/com/trinofed/parser/service/QueryEventService.java:83 | Re-sorting an already sorted list changes nothing |
| EventService.AppendThenSort | backend/src/main/java/com/trinofed/parser/service/QueryEventService.java:39-83 | Appending an event to a sorted list and sorting equals inserting it in place |
| EventService.Indexed | backend/src/main/java/com/trinofed/parser/service/QueryEventService.java:51-62 | With a key, the query joins that key's set, creating it if needed. Without one, the index is unchanged. No set loses a member, and no set gains anything but this query |
| EventService.TableKeyExtendsSchemaKey | backend/src/main/java/com/trinofed/parser/service/QueryEventService.java:54-61 | The table key is the schema key followed by "." and the table name |
| EventService.ExtractOperatorType | backend/src/main/java/com/trinofed/parser/service/QueryEventService.java:200-207 | Stats without operatorType give "UNKNOWN", and a null operatorType throws (toString on null) |
| EventService.Hierarchy | backend/src/main/java/com/trinofed/parser/service/QueryEventService.java:209-240 | Building the operator hierarchy never moves the UUID counter backwards |
| EventService.HierarchyItems | backend/src/main/java/com/trinofed/parser/service/QueryEventService.java:220-237 | The first k children give k nodes and use at least k UUIDs |
| EventService.Child | backend/src/main/java/com/trinofed/parser/service/QueryEventService.java:221-236 | Each child node consumes at least one UUID |
| EventService.HierarchyItemsShape | backend/src/main/java/com/trinofed/parser/service/QueryEventService.java:220-237 | Each child node is an OPERATOR with the parent's id, the parent's query id, the child's stats as metadata and its extracted operator type |
| EventService.HierarchyShape | backend/src/main/java/com/trinofed/parser/service/QueryEventService.java:214-239 | A "children" list yields one OPERATOR node per element, linked to the parent and carrying its stats. Anything else yields no children |
| EventService.MetadataStep | backend/src/main/java/com/trinofed/parser/service/QueryEventService.java:155-189 | Each event adds its node id to the node map, and the first event's node becomes the root |
| EventService.MetadataStepReuses | backend/src/main/java/com/trinofed/parser/service/QueryEventService.java:158-185 | A later event with an existing node id keeps that node's identity, state, execution, CPU and wall times, memory, rows, bytes, error, source and metadata, and only appends children. Its stage stats, when present, set the operator type and the STAGE node type; otherwise both stay |
| EventService.NodeIdsMembers | backend/src/main/java/com/trinofed/parser/service/QueryEventService.java:195-198 | The node ids are exactly the generated ids of the events |
| EventService.MetadataFoldNodes | backend/src/main/java/com/trinofed/parser/service/QueryEventService.java:151-193 | The metadata tree has one node per distinct node id, and its root is the first event's node (null for no events) |
| EventService.Enrich | backend/src/main/java/com/trinofed/parser/service/QueryEventService.java:130-146 | Enrichment keeps the number of children of each node |
| EventService.EnrichReachesEveryNode | backend/src/main/java/com/trinofed/parser/service/QueryEventService.java:130-146 | After enrichment every node of the tree carries the event's query id, state and catalog |
| EventService.EnrichKeepsOperators | backend/src/main/java/com/trinofed/parser/service/QueryEventService.java:130-146 | Enrichment leaves the operator names of the tree, in pre-order, unchanged |
| EventService.PlanTreeFromNone | backend/src/main/java/com/trinofed/parser/service/QueryEventService.java:105-125 | No plan tree is found exactly when no remaining event has a plan that parses |
| EventService.PlanTreeFromFirst | backend/src/main/java/com/trinofed/parser/service/QueryEventService.java:108-120 | The tree used is that of the first event whose plan parses, enriched with that event |
| EventService.QueryTreeSpan | backend/src/main/java/com/trinofed/parser/service/QueryEventService.java:75-103 | The query tree holds all the sorted events and has a root. Its start and end bound every event's timestamp, and its state and error come from the latest event |
| EventService.HierarchyItemsThrownLater | backend/src/main/java/com/trinofed/parser/service/QueryEventService.java:220-237 | Once a child throws, building more children still throws |
| EventService.MetadataFoldThrownLater | backend/src/main/java/com/trinofed/parser/service/QueryEventService.java:155-190 | Once an event throws, the whole metadata tree throws |
| EventService.UuidSource.Next | backend/src/main/java/com/trinofed/parser/service/QueryEventService.java:221 | Each UUID drawn is fresh: the next unused number |
| EventService.IndexedKnown | backend/src/main/java/com/trinofed/parser/service/QueryEventService.java:51-62 | Indexing a stored query keeps every index referring only to stored queries |
| EventService.StoreKeepsFiled | backend/src/main/java/com/trinofed/parser/service/QueryEventService.java:39-62 | Storing an event and indexing it keeps events filed under their own query id and the indexes referring to stored queries |
| EventService.SortKeepsFiled | backend/src/main/java/com/trinofed/parser/service/QueryEventService.java:83 | Sorting a query's events keeps them filed and makes them sorted |
| EventService.ResortKeepsSorted | backend/src/main/java/com/trinofed/parser/service/QueryEventService.java:83 | Replacing one query's events by a sorted list keeps all timelines sorted |
| EventService.QueryEventService.constructor | backend/src/main/java/com/trinofed/parser/service/QueryEventService.java:19-33 | The service starts with no events and empty indexes, wired to the given registry, plan decoder and UUID source |
| EventService.QueryEventService.ProcessEvent | backend/src/main/java/com/trinofed/parser/service/QueryEventService.java:35-73 | A null event or query id throws and changes nothing. Otherwise the event is inserted in time order, the three indexes gain the query and the registry takes the event. It throws exactly when the query tree throws |
| EventService.QueryEventService.ProcessQueryEvent | backend/src/main/java/com/trinofed/parser/service/QueryEventService.java:35-73 | For an event with a query id: the whole new state of storage, indexes and registry, and the tree outcome |
| EventService.QueryEventService.Record | backend/src/main/java/com/trinofed/parser/service/QueryEventService.java:39-62 | Appends the event to its query's list and indexes it by catalog, schema and table, keeping every stored event filed |
| EventService.QueryEventService.BuildQueryTree | backend/src/main/java/com/trinofed/parser/service/QueryEventService.java:75-103 | Sorts the query's stored events in place, leaving an already sorted list unchanged and the indexes untouched. It returns the specified tree, or no tree for an unknown query |
| EventService.QueryEventService.BuildTreeFromEvents | backend/src/main/java/com/trinofed/parser/service/QueryEventService.java:105-125 | Computes the specified tree: the first parsable plan, or else the metadata tree |
| EventService.QueryEventService.BuildTreeFromEventMetadata | backend/src/main/java/com/trinofed/parser/service/QueryEventService.java:151-193 | The loop over events computes the specified metadata tree and draws exactly its UUIDs |
| EventService.QueryEventService.ApplyEvent | backend/src/main/java/com/trinofed/parser/service/QueryEventService.java:156-189 | One loop step computes the specified builder step |
| EventService.QueryEventService.BuildOperatorHierarchy | backend/src/main/java/com/trinofed/parser/service/QueryEventService.java:209-240 | Computes the specified children and draws exactly their UUIDs |
| EventService.QueryEventService.BuildChild | backend/src/main/java/com/trinofed/parser/service/QueryEventService.java:221-236 | Computes the specified child node with its own subtree |
| EventService.QueryEventService.GetDatabaseSummary | backend/src/main/java/com/trinofed/parser/service/QueryEventService.java:302-314 | The summary lists the indexed catalogs, schemas and tables, and the number of queries. Each catalog's count is the size of its query set |
| EventService.QueryEventService.GetAllQueryIds | backend/src/main/java/com/trinofed/parser/service/QueryEventService.java:246-248 | Exactly the ids with stored events; in a consistent state each has a non-empty list whose first event belongs to it |
| EventService.QueryEventService.GetAllCatalogs | backend/src/main/java/com/trinofed/parser/service/QueryEventService.java:257-259 | Exactly the catalog index keys; in a consistent state each catalog names only queries with stored events |
| EventService.QueryEventService.GetAllSchemas | backend/src/main/java/com/trinofed/parser/service/QueryEventService.java:261-263 | Exactly the schema index keys; in a consistent state each schema names only queries with stored events |
| EventService.QueryEventService.GetAllTables | backend/src/main/java/com/trinofed/parser/service/QueryEventService.java:265-267 | Exactly the table index keys; in a consistent state each table names only queries with stored events |
| EventService.CountsBounded | backend/src/main/java/com/trinofed/parser/service/QueryEventService.java:307-310 | No catalog's query count exceeds the number of stored queries |
| EventService.SortedKeepsQuery | backend/src/main/java/com/trinofed/parser/service/QueryEventService.java:83 | Sorting a query's events keeps them all of that query |
| PlanParser.OutputsInfo | backend/src/main/java/com/trinofed/parser/service/QueryPlanParser.java:102-112 | One name/type map per output column; it throws exactly when an output is null |
| PlanParser.OutputsEntry | backend/src/main/java/com/trinofed/parser/service/QueryPlanParser.java:102-112 | "outputs" is recorded exactly when the node has a non-empty output list, and building it throws exactly when the list holds a null |
| PlanParser.DetailsEntry | backend/src/main/java/com/trinofed/parser/service/QueryPlanParser.java:115-117 | "details" is recorded exactly when the node has non-empty details, null entries included |
| PlanParser.EstimatesEntry | backend/src/main/java/com/trinofed/parser/service/QueryPlanParser.java:120-129 | "estimates" is recorded exactly when the node has a non-empty estimate list, and building it throws exactly when the first estimate is null |
| PlanParser.DescriptorEntries | backend/src/main/java/com/trinofed/parser/service/QueryPlanParser.java:91-99 | "descriptor" is recorded exactly for a non-empty descriptor, and "table" only for a TableScan whose descriptor has a table |
| PlanParser.Convert | backend/src/main/java/com/trinofed/parser/service/QueryPlanParser.java:78-144 | The tree node keeps the plan node's id and name, is an OPERATOR with the specified metadata, and has one child per plan child |
| PlanParser.ConvertChildren | backend/src/main/java/com/trinofed/parser/service/QueryPlanParser.java:134-141 | Converting the first k children gives k nodes |
| PlanParser.ConvertChildrenEach | backend/src/main/java/com/trinofed/parser/service/QueryPlanParser.java:134-141 | Each converted child is the conversion of the corresponding plan child, which is not null |
| PlanParser.ConvertInFragment | backend/src/main/java/com/trinofed/parser/service/QueryPlanParser.java:87-88 | Every node of a converted fragment records that fragment's id |
| PlanParser.NullChildFails | backend/src/main/java/com/trinofed/parser/service/QueryPlanParser.java:134-137 | A null child makes the conversion fail, so parseJsonPlan returns null |
| PlanParser.MetadataKeys | backend/src/main/java/com/trinofed/parser/service/QueryPlanParser.java:87-129 | The metadata keys are fragmentId plus exactly the optional keys whose data is present |
| PlanParser.FirstEstimateRecorded | backend/src/main/java/com/trinofed/parser/service/QueryPlanParser.java:120-129 | Only the first estimate's costs are recorded, and that estimate is not null |
| PlanParser.MetadataFails | backend/src/main/java/com/trinofed/parser/service/QueryPlanParser.java:87-129 | Building the metadata throws exactly for a TableScan with a null "table" entry, a null output or a null first estimate |
| PlanParser.ConvertKeepsOperators | backend/src/main/java/com/trinofed/parser/service/QueryPlanParser.java:133-141 | Conversion keeps the plan's operator names in pre-order |
| PlanParser.CollectOperators | backend/src/main/java/com/trinofed/parser/service/QueryPlanParser.java:177-189 | Appends the subtree's operator names in pre-order; a null node adds nothing |
| PlanParser.ExtractOperatorList | backend/src/main/java/com/trinofed/parser/service/QueryPlanParser.java:150-172 | The loop over fragments computes the specified operator list, which is empty for a blank or undecodable plan |
| PlanParser.FragmentIndex | backend/src/main/java/com/trinofed/parser/service/QueryPlanParser.java:53-57 | Looking up a present fragment finds an entry with that key |
| PlanParser.RootIndex | backend/src/main/java/com/trinofed/parser/service/QueryPlanParser.java:53-67 | The root is fragment "0" exactly when there is one, and otherwise the first fragment |
| PlanParser.ParseJsonPlan | backend/src/main/java/com/trinofed/parser/service/QueryPlanParser.java:40-73 | A null or blank plan gives null. A tree comes only from a non-empty decoded fragment list, and its root keeps the root fragment's id and name and is an OPERATOR node |
| PlanParser.ParseJsonPlanSucceeds | backend/src/main/java/com/trinofed/parser/service/QueryPlanParser.java:34-73 | parseJsonPlan succeeds exactly when the string is not blank, decodes to a non-empty fragment map, and every fragment converts |
| PlanParser.ParsedPlanRoot | backend/src/main/java/com/trinofed/parser/service/QueryPlanParser.java:53-67 | The parsed tree is the root fragment's ("0" when present), lies in that fragment, and keeps its operators |
| PlanParser.ParsedOperatorsListed | backend/src/main/java/com/trinofed/parser/service/QueryPlanParser.java:150-172 | The parsed tree's operators appear as one contiguous run in extractOperatorList's result |
| PlanParser.FragmentOperatorsListed | backend/src/main/java/com/trinofed/parser/service/QueryPlanParser.java:163-165 | Each fragment's operators appear as one contiguous run in the full operator list |
| PlanParser.FragmentsOperatorsConcat | backend/src/main/java/com/trinofed/parser/service/QueryPlanParser.java:163-165 | The operator list of fragments is the concatenation of the lists of its parts |
| EventWrapper.DetermineEventType | backend/src/main/java/com/trinofed/parser/model/TrinoEventWrapper.java:362-379 | The type is CREATED, COMPLETED or UNKNOWN, or else the given state itself when it is neither active nor ended |
| EventWrapper.DetermineEventTypeCases | backend/src/main/java/com/trinofed/parser/model/TrinoEventWrapper.java:362-379 | The event type is CREATED exactly for the active states (or CREATED itself), COMPLETED exactly for the ended states (or COMPLETED itself), and UNKNOWN for null or UNKNOWN. Any other state is passed through |
| EventWrapper.ParseLong | backend/src/main/java/com/trinofed/parser/model/TrinoEventWrapper.java:347 | A parsed long always lies in the 64-bit range |
| EventWrapper.ParseLongDigits | backend/src/main/java/com/trinofed/parser/model/TrinoEventWrapper.java:347 | A digit string in range parses to its value, with or without a minus sign |
| EventWrapper.ParseLongRendered | backend/src/main/java/com/trinofed/parser/model/TrinoEventWrapper.java:347 | Parsing the decimal rendering of any long gives it back |
| EventWrapper.IntegerPart | backend/src/main/java/com/trinofed/parser/model/TrinoEventWrapper.java:347 | The text before the first dot is no longer than the number |
| EventWrapper.SplitAllFirst | backend/src/main/java/com/trinofed/parser/model/TrinoEventWrapper.java:347 | Splitting at dots gives the integer part first, and a single piece exactly when there is no dot |
| EventWrapper.SplitAllEmpty | backend/src/main/java/com/trinofed/parser/model/TrinoEventWrapper.java:347 | Every piece of the split is empty exactly when the text is all dots |
| EventWrapper.SplitAtDots | backend/src/main/java/com/trinofed/parser/model/TrinoEventWrapper.java:347 | Java's split("\\.") returns an empty array exactly for a non-empty run of dots; otherwise its first element is the integer part |
| EventWrapper.ParseDurationAsWritten | backend/src/main/java/com/trinofed/parser/model/TrinoEventWrapper.java:341-357 | Only a duration ending in "ms" can throw; a null or empty duration returns null |
| EventWrapper.ParseDuration | backend/src/main/java/com/trinofed/parser/model/TrinoEventWrapper.java:341-357 | A null or empty duration gives null, and a value parsed from a duration ending in "ms" lies in Java's long range |
| EventWrapper.ParseDurationMillis | backend/src/main/java/com/trinofed/parser/model/TrinoEventWrapper.java:341-357 | "<n>ms" parses to the integer part of n read as a long, or null |
| EventWrapper.ParseDurationUnits | backend/src/main/java/com/trinofed/parser/model/TrinoEventWrapper.java:341-357 | null or "" gives null. A suffix s scales by 1000, a suffix m by 60000, and any other suffix gives null |
| EventWrapper.ParseDurationDotsThrow | backend/src/main/java/com/trinofed/parser/model/TrinoEventWrapper.java:347 | The code as written throws for "<dots>ms", for example ".ms". When it does not throw, it agrees with the corrected parser |
| EventWrapper.ParseDurationAgrees | backend/src/main/java/com/trinofed/parser/model/TrinoEventWrapper.java:341-357 | Wherever the code as written returns, the corrected parser returns the same value |
| EventWrapper.FirstPresentSpec | backend/src/main/java/com/trinofed/parser/model/TrinoEventWrapper.java:258-279 | The primary name is the first non-null name, and null exactly when all are null |
| EventWrapper.PresentSpec | backend/src/main/java/com/trinofed/parser/model/TrinoEventWrapper.java:258-279 | The name list holds exactly the non-null names, and its head is the primary name |
| EventWrapper.NoteName | backend/src/main/java/com/trinofed/parser/model/TrinoEventWrapper.java:260-277 | One loop step keeps the primary name and name list equal to their specification on the names seen so far |
| EventWrapper.CollectNames | backend/src/main/java/com/trinofed/parser/model/TrinoEventWrapper.java:258-279 | Throws exactly when an input is null. Otherwise it returns the first catalog, schema and table, and the lists of all non-null ones |
| EventWrapper.ColumnMaps | backend/src/main/java/com/trinofed/parser/model/TrinoEventWrapper.java:293-302 | The column loop builds the specified name/type maps, throwing on a null column |
| EventWrapper.InputMaps | backend/src/main/java/com/trinofed/parser/model/TrinoEventWrapper.java:282-307 | The input loop throws exactly when a column is null, and otherwise builds the specified input maps |
| EventWrapper.ToQueryEvent | backend/src/main/java/com/trinofed/parser/model/TrinoEventWrapper.java:230-336 | No payload or no metadata gives null. A null input or column throws, and so does a duration that parseDuration as written throws on (such as ".ms"). Otherwise the result is the specified flattened event |
| EventWrapper.FlattenedNames | backend/src/main/java/com/trinofed/parser/model/TrinoEventWrapper.java:250-279 | The event's catalog is the first input's non-null catalog. Its catalog list holds exactly the inputs' catalogs, and the primary catalog, schema and table head their lists |
| EventWrapper.FlattenedFields | backend/src/main/java/com/trinofed/parser/model/TrinoEventWrapper.java:309-335 | Query id and state come from the metadata, and the event type from the state. A missing createTime means now, and missing statistics mean missing metrics. The inputs map has an "inputs" list, one entry per input, exactly when ioMetadata has inputs |
| TreeTransform.ParentLayout | src/utils/treeTransform.ts:93-109 | A parent is laid out after its children, centred between its first and last child, on its depth's row |
| TreeTransform.CalculateLayout | src/utils/treeTransform.ts:76-110 | The recursion returns the node's x and appends exactly the specified layout of its subtree |
| TreeTransform.TimelineFlow | src/utils/treeTransform.ts:23-73 | One node per event, and one edge from each event to the next |
| TreeTransform.LayoutToFlow | src/utils/treeTransform.ts:120-143 | One flow node per layout node, in order, and the specified parent-child edges |
| TreeTransform.TransformQueryTreeToReactFlow | src/utils/treeTransform.ts:10-146 | No root gives nothing. A childless root with events gives the timeline, and otherwise the tree layout. A lone root with no events sits at x = 160, y = 0 |
| TreeTransform.WidthIsLeafCount | src/utils/treeTransform.ts:112-115 | A subtree's width is its number of leaves, at least 1 |
| TreeTransform.WidthSumIsLeafCount | src/utils/treeTransform.ts:114 | The children's widths sum to their leaf count, at least one per child |
| TreeTransform.SiblingSpansOrdered | src/utils/treeTransform.ts:96-102 | An earlier sibling's span ends before a later sibling's begins |
| TreeTransform.ChildrenSpanParent | src/utils/treeTransform.ts:96-102 | The children's spans tile the parent's span from its left bound to its right bound |
| TreeTransform.LayoutInSpan | src/utils/treeTransform.ts:85-109 | Every node of a subtree lies inside the subtree's span, at least 160 from each edge |
| TreeTransform.ChildInSpan | src/utils/treeTransform.ts:96-102 | Each child's x lies within the children's total span |
| TreeTransform.ChildrenInSpan | src/utils/treeTransform.ts:96-102 | Every node laid out under the children lies within their total span |
| TreeTransform.LayoutIsPostOrder | src/utils/treeTransform.ts:85-108 | The layout lists the subtree's nodes in post-order, each at its depth's row |
| TreeTransform.PostOrderSize | src/utils/treeTransform.ts:89 | The post-order has one entry per node |
| TreeTransform.LayoutEdgeCount | src/utils/treeTransform.ts:131-142 | A subtree's layout yields one edge fewer than it has nodes |
| TreeTransform.TreeFlowCounts | src/utils/treeTransform.ts:117-143 | The tree gives one flow node per tree node and one edge fewer |
| TreeTransform.LayoutPlacesChildren | src/utils/treeTransform.ts:89-108 | The layout places the subtree's root and, for every placed node, all its children |
| TreeTransform.EdgeOrigin | src/utils/treeTransform.ts:131-142 | Every edge goes from a laid-out node to one of its children |
| TreeTransform.TreeEdgesConnectNodes | src/utils/treeTransform.ts:120-143 | Every edge's source and target are ids of emitted nodes |
| TreeTransform.EventIdsDistinct | src/utils/treeTransform.ts:27 | Different event indices give different node ids |
| TreePage.WalkNodes | src/pages/TreePage.tsx:24-51 | The recursive walk computes the specified state: nodes, edges and row counter |
| TreePage.ToReactFlow | src/pages/TreePage.tsx:19-64 | Returns the walk's nodes and edges, and the sanity check finds no dangling edge |
| TreePage.VisitExtends | src/pages/TreePage.tsx:27-46 | Visiting a node appends its subtree in pre-order, the parent link and its own links, and advances the counter once per descendant |
| TreePage.CallExtends | src/pages/TreePage.tsx:46 | A recursive call on a child appends the child's subtree and links and advances the counter by its size |
| TreePage.WalkChildrenExtends | src/pages/TreePage.tsx:46 | Walking the first k children appends their subtrees and their links from the parent |
| TreePage.VisitAllExtends | src/pages/TreePage.tsx:27-47 | The forEach over top-level nodes appends their subtrees with no parent link |
| TreePage.LinksWithin | src/pages/TreePage.tsx:34-44 | Every link of a subtree joins two of its own node ids |
| TreePage.LinkCount | src/pages/TreePage.tsx:34-44 | A subtree with non-empty ids has one link fewer than nodes |
| TreePage.ForestWalk | src/pages/TreePage.tsx:24-53 | The nodes are the forest in pre-order and the edges are exactly its parent links. The row counter ends at one more than the number of non-root nodes |
| TreePage.PreOrderSize | src/pages/TreePage.tsx:27-46 | The pre-order has one entry per node |
| TreePage.ForestEdgeCount | src/pages/TreePage.tsx:27-53 | The edges number the nodes minus the roots |
| TreePage.ForestHasNoDanglingEdges | src/pages/TreePage.tsx:56-61 | The sanity check never warns: every edge's source and target are emitted nodes |
| DirectedEdge.LineCommands | src/components/DirectedEdge.tsx:12 | One L command per point, in order |
| DirectedEdge.PointsToPath | src/components/DirectedEdge.tsx:9-13 | The path is empty exactly for no points, and otherwise starts with a move to the first point |
| DirectedEdge.Shape | src/components/DirectedEdge.tsx:18-49 | Bend points are used exactly when there are more than one. The label then sits at the middle bend point exactly when there is a label. Otherwise the edge is a bezier |
| DirectedEdge.LineToHasOneL | src/components/DirectedEdge.tsx:12 | Each line command holds exactly one L |
| DirectedEdge.JoinCount | src/components/DirectedEdge.tsx:12 | Joining parts with one L each by spaces gives one L per part |
| DirectedEdge.MoveHasNoL | src/components/DirectedEdge.tsx:12 | The initial move command holds no L |
| DirectedEdge.LineCommandCount | src/components/DirectedEdge.tsx:9-13 | A path through n points draws exactly n - 1 lines |
| MetricsPanel.AddEvent | src/components/QueryMetricsPanel.tsx:50-60 | One forEach step computes the specified update of the running totals |
| MetricsPanel.GetEventMetrics | src/components/QueryMetricsPanel.tsx:38-77 | The loop and the final guards compute the specified metrics |
| MetricsPanel.AccumulateTimes | src/components/QueryMetricsPanel.tsx:50-53 | The CPU, wall and queued totals are the sums of the events' truthy times |
| MetricsPanel.AccumulateMemory | src/components/QueryMetricsPanel.tsx:54-56 | The memory figure is the largest truthy peak |
| MetricsPanel.AccumulateCounts | src/components/QueryMetricsPanel.tsx:57-59 | Rows, bytes and splits are the last truthy values, not sums |
| MetricsPanel.SumTruthyAppend | src/components/QueryMetricsPanel.tsx:51 | The sum over two runs of events is the sum of their sums |
| MetricsPanel.SumTruthyPresent | src/components/QueryMetricsPanel.tsx:51 | Each present value adds to the sum, and a missing one adds nothing |
| MetricsPanel.MaxTruthySpec | src/components/QueryMetricsPanel.tsx:54-56 | The maximum is at least 0 and at least every present value, and is 0 or one of the values |
| MetricsPanel.LastTruthySpec | src/components/QueryMetricsPanel.tsx:57-59 | The result is 0 exactly when no value is truthy, and otherwise the last truthy value |
| MetricsPanel.DistinctTruthySpec | src/components/QueryMetricsPanel.tsx:71-72 | The catalog list holds each non-empty catalog once |
| MetricsPanel.DistinctTruthyPrefix | src/components/QueryMetricsPanel.tsx:71-72 | The distinct list of a prefix is a prefix of the whole list, so first appearance decides order |
| MetricsPanel.MetricsKeys | src/components/QueryMetricsPanel.tsx:62-74 | CPU, wall and queued time are their sums when positive. Peak memory is present exactly when some event has a positive peak. Rows, bytes and splits are present exactly when their last truthy value is positive. Catalogs and schemas are present exactly when some event names one |
| MetricsPanel.WithStatistics | src/components/UnifiedMetricsPanel.tsx:12 | The filtered events are exactly the events with statistics |
| MetricsPanel.WithStatisticsAppend | src/components/UnifiedMetricsPanel.tsx:12 | Filtering two runs of events gives the concatenation of their filtered runs |
| MetricsPanel.SelectedEvent | src/components/UnifiedMetricsPanel.tsx:12-13 | The selected event is the chosen event with statistics, and none when no event has statistics |
| Formatting.FormatBytes | src/components/QueryMetricsPanel.tsx:8-16 | Null for a falsy size. Otherwise the amount times the unit's factor is the size, and the unit is KB below 1 MiB, MB below 1 GiB and GB from there on |
| Formatting.FormatCount | src/components/QueryMetricsPanel.tsx:18-21 | Null for a falsy number, and otherwise its localized rendering |
| Formatting.RenderMetricRow | src/components/QueryMetricsPanel.tsx:82-83 | No row exactly for a falsy value, and otherwise its caption and value |
| Formatting.ZeroMetricsHidden | src/components/QueryMetricsPanel.tsx:209-211 | In the query panel a zero or missing count or size shows no row, and any other shows its value |
| Formatting.MissingMetricShownAsNA | src/components/UnifiedMetricsPanel.tsx:26-29 | In the unified panel a missing number still shows a row reading N/A, and 0 shows as 0 |
| Formatting.EventCountRow | src/components/QueryMetricsPanel.tsx:171 | The event-count row is hidden exactly when there are no events |
| DatabaseNode.BorderColorCases | src/components/DatabaseNode.tsx:14-18 | Green exactly for ACTIVE, red exactly for INACTIVE, grey otherwise |
| DatabaseNode.LowerTypeColor | src/components/DatabaseNode.tsx:20-28 | The MongoDB colour goes exactly to "mongodb" |
| DatabaseNode.TypeColorIgnoresCase | src/components/DatabaseNode.tsx:20-28 | The type colour ignores case; MongoDB's colour goes to exactly the types that lower-case to "mongodb" |
| DatabaseNode.TotalsOverAllTables | src/components/DatabaseNode.tsx:30-47 | A relational database's table total is the number of all its tables, and its row total is the sum of their row counts with null as 0 |
| DatabaseNode.RowTotalsNonNegative | src/components/DatabaseNode.tsx:38-47 | With no negative row counts the total is not negative |
| DatabaseNode.MixedCaseMongo | src/components/DatabaseNode.tsx:20-32 | A type spelled "MongoDB" gets the MongoDB colour but its totals come from schemas, since only the colour lower-cases |
| DatabaseNode.FormatNumber | src/components/DatabaseNode.tsx:49-54 | 0 is "0". 1 to 999 are at most three digits reading the number. Thousands and millions are scaled by 1000 and 1000000 |
| DatabaseNode.RowSumAppend | src/components/DatabaseNode.tsx:44-45 | The row total of two table lists is the sum of their totals |
| QueryNode.BackgroundColorCases | src/components/QueryNode.tsx:14-20 | An error message wins; otherwise each colour goes to exactly its states |
| QueryNode.FirstTruthySpec | src/components/QueryNode.tsx:37-43 | The first truthy string of a list, and none exactly when none is truthy |
| QueryNode.DisplayNameFallback | src/components/QueryNode.tsx:37-43 | The title is the first non-empty one of displayName, operatorType, nodeType and eventType, or "Query Event"; never empty |
| QueryNode.OrChainTruthy | src/components/QueryNode.tsx:45-46 | An or-chain is truthy exactly when one of its operands is |
| QueryNode.HasMetricsCases | src/components/QueryNode.tsx:45-46 | The metrics section shows exactly when one of the six metrics is non-zero |
| QueryNode.ErrorPreview | src/components/QueryNode.tsx:174 | Messages of at most 80 characters show whole. Longer ones show their first 80 characters followed by "..." |
| QueryNode.ErrorPreviewCut | src/components/QueryNode.tsx:174 | Two long messages show the same preview exactly when their first 80 characters agree |
| StatusCard.StatusColorDistinct | src/components/Card.tsx:17-32 | The card colour determines the status |
| StatusCard.IconOfBijective | src/components/Card.tsx:34-49 | Every status has its own icon, and every icon belongs to a status |
| StatusCard.Capitalized | src/components/Card.tsx:58 | The first character is upper-cased and the rest kept |
| StatusCard.StatusChip | src/components/Card.tsx:51-59 | No chip exactly without a status; the chip's label is the capitalized status |
| StatusCard.ChipColorCases | src/components/Card.tsx:53-57 | Success exactly for ok, warning exactly for idle, error exactly for failed, default for the rest |
| StatusCard.CapitalizedRoundTrip | src/components/Card.tsx:58 | Lower-casing a capitalized lower-case word gives it back |
| StatusCard.ChipLabelRoundTrip | src/components/Card.tsx:58 | Lower-casing the chip label gives the status back, so labels of different statuses differ |

## Left out

- Concurrency. The backend's ConcurrentHashMaps and the Kafka consumer thread are modelled as sequential calls.
- Logging, the WebSocket send in QueryEventService.processEvent and the REST controllers are not modelled. They have no effect on the state.
- EventService.QueryEventService.Record: Java registers the event's databases (line 42) before it indexes the query (lines 51-62). The model does the indexing first. The two touch disjoint state and neither throws, so the end state is the same.
- Decoded JSON objects are entry sequences in document order. Jackson decodes a JSON object, or an abstract `Map` target, into a LinkedHashMap, which keeps that order. So the root fragment when "0" is missing (QueryPlanParser.java:56 and :67), the fragment order in extractOperatorList (:163) and the order of a column map's entries (DatabaseService.java:309) are those of the document, as modelled.
- The maps the backend builds itself (HashMap, ConcurrentHashMap, HashSet) are read only by key or by size, or turned into a set (GetAllDatabases), so their iteration order is not modelled.
- Jackson's decoding of a JSON plan is a `PlanDecoder` parameter, and its failure is None.
- Instant.now() and System.currentTimeMillis() become parameters (`now`). Instant.parse becomes an `InstantParser` parameter.
- EventWrapper.ParseDurationUnits: Double.parseDouble and the cast to long in the "s" and "m" branches are a `ScaledParser` parameter, because the model has no floating point.
- EventWrapper.ParseLong: Long.parseLong's acceptance of non-ASCII Unicode digits is not modelled; only ASCII digits with an optional sign are accepted.
- EventWrapper.FlattenedFields: the ioMetadata object is copied into the event as it is. Only the inputs map built from it is modelled.
- UUID.randomUUID() is modelled as a counter, class `EventService.UuidSource`. Distinct draws give distinct ids, as the random UUIDs are intended to.
- Enrichment of the parsed tree and the appends to a parent's children list are modelled as functional updates of tree values, not as mutation through shared references.
- EventService.MetadataStep: Java also files each operator child it builds in the node map, under the id `<parent id>-child-<uuid>` (QueryEventService.java:230). The model's node map holds the events' node ids only. The two differ only when an event's own id, `<query id>-<event type>-<millis>`, equals such a child id.
- The queryTrees field of QueryEventService is never read or written by the source, so it is not modelled.
- getQueryTree is BuildQueryTree. getAllQueryIds, getAllCatalogs, getAllSchemas and getAllTables are modelled as the key sets they copy into a list; the list's order is not. getQueriesByCatalog, getQueriesBySchema, getQueriesByTable and getAllQueryTrees are not modelled. They map buildQueryTree over a key set.
- The seed catalogs' Instant.now() is the refresh's `now`; Java calls it once per catalog, so the three may differ by a few milliseconds.
- Catalogs.RefreshResetsUsage: in Java the catalog cache and the registry share the same Database objects. The model keeps values, so later registry updates are not seen through the cache.
- EventService.ExtractOperatorType: JSON numbers in `Value` are integers. Jackson decodes a fractional number as a Double, whose toString (such as "1.5") is not rendered; the same holds wherever `Render` shows a number.
- EventService.SortByTimeSpec: timestamps are whole milliseconds. Java Instants carry nanoseconds, so two events in the same millisecond keep their arrival order in the model where Java orders them by the finer time. The same holds for InsertByTime and InsertByTimeStable.
- Databases.ClassificationIgnoresCase: `ToLower` maps only the ASCII letters. Java's toLowerCase maps all of Unicode and depends on the default locale (in a Turkish locale "I" becomes a dotless "ı"), so the lemma states case-insensitivity for the ASCII mapping only.
- QueryNode.ErrorPreview: strings are sequences of Unicode characters. JavaScript's substring(0, 80) counts UTF-16 code units, so a message with characters outside the Basic Multilingual Plane is cut elsewhere in JavaScript, possibly inside a surrogate pair. ErrorPreviewCut inherits this.
- Integer and Long counters such as totalQueries and the query counts are unbounded. Their 32- and 64-bit wrap-around is not modelled.
- The text of toLocaleString, toFixed(1) and toFixed(2) is not rendered. The formatters return the numbers they would render.
- NaN and Infinity are not modelled; JavaScript numbers are integers or reals.
- The unified panel's formatBytes ('0 B' for falsy sizes), formatTime, formatTimestamp and formatDuration are not modelled. Neither are the query panel's formatTimestamp and formatDuration, which read Date and locale.
- selectedEventIndex is a parameter; the React state hook that holds it is not modelled.
- JSX, styles, hooks and the @xyflow components are not modelled. Only the values they are given are modelled.
- DirectedEdge number formatting is a `fmt` parameter. The bezier fallback path of getBezierPath is an abstract `Bezier` shape.
- The remaining frontend files (StatisticsPanel, QueryPlanPanel, mock data, routing) and the backend controllers and consumer are not part of this model.

## Findings

| source | as written | input that shows it | evidently intended | confidence | as-written member | corrected member |
|---|---|---|---|---|---|---|
| backend/src/main/java/com/trinofed/parser/model/TrinoEventWrapper.java:347 | the "ms" branch reads `split("\\.")[0]` of the number before the unit | the duration ".ms": split gives an empty array, so `[0]` throws ArrayIndexOutOfBoundsException, which the NumberFormatException handler does not catch | null, as for any other unreadable number | not executed | EventWrapper.ParseDurationDotsThrow | EventWrapper.ParseDurationMillis |
