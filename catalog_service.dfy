/** The catalog cache of service/DatabaseCatalogService.java: a map of catalogs by id,
    refreshed with the three default catalogs when it is empty or older than five
    minutes, each catalog also registered with the database service. The clock is the
    parameter `now`, in milliseconds. */
module Catalogs {
  import opened Common
  import opened Strings
  import opened Model
  import opened Databases

  /** CACHE_REFRESH_INTERVAL: five minutes. */
  const CACHE_REFRESH_INTERVAL: int := 300000

  /** shouldRefreshCache, on the cache and the time of the last refresh: an empty cache is
      always refreshed, and a non-empty one is kept for at most five minutes. */
  predicate ShouldRefresh(cache: map<string, Database>, lastRefreshTime: int, now: int): (r: bool)
    ensures |cache| == 0 ==> r
    ensures !r ==> |cache| > 0 && now <= lastRefreshTime + CACHE_REFRESH_INTERVAL
  {
    now - lastRefreshTime > CACHE_REFRESH_INTERVAL || |cache| == 0
  }

  /** A sample column, as the seed catalogs declare it. */
  function SeedColumn(name: string, colType: string, nullable: bool): Column {
    Column(name, Some(colType), Some(nullable), None)
  }

  /** A sample table: its columns are a fixed-size list. */
  function SeedTable(name: string, columns: seq<Column>, rowCount: int, now: Instant): Table {
    Table(name, columns, Some(rowCount), None, Some(now), Some(now), 0, true)
  }

  /** A sample schema; `fixed` says its tables are a fixed-size list rather than an
      empty ArrayList. */
  function SeedSchema(name: string, tables: seq<Table>, fixed: bool, now: Instant): Schema {
    Schema(name, tables, Some(now), Some(now), 0, fixed)
  }

  function CustomerColumns(): seq<Column> {
    [SeedColumn("id", "integer", false), SeedColumn("name", "varchar(100)", false),
     SeedColumn("email", "varchar(100)", false), SeedColumn("city", "varchar(50)", true),
     SeedColumn("country", "varchar(50)", true), SeedColumn("created_at", "timestamp", true)]
  }

  function OrderColumns(): seq<Column> {
    [SeedColumn("id", "integer", false), SeedColumn("customer_id", "integer", false),
     SeedColumn("product", "varchar(100)", false), SeedColumn("amount", "decimal(10,2)", false),
     SeedColumn("order_date", "date", false)]
  }

  function ProductColumns(): seq<Column> {
    [SeedColumn("id", "int", false), SeedColumn("name", "varchar(255)", false),
     SeedColumn("price", "decimal(10,2)", false), SeedColumn("category", "varchar(100)", true)]
  }

  /** createPostgresCatalog: schemas public (customers, orders) and analytics (empty). */
  function PostgresCatalog(now: Instant): Database {
    var publicTables := [
      SeedTable("customers", CustomerColumns(), 1000, now), SeedTable("orders", OrderColumns(), 5000, now)];
    Database(Some("postgres"), Some("PostgreSQL"), Some("postgresql"), Some("localhost"), Some(5432),
             Some("ACTIVE"),
             [SeedSchema("public", publicTables, true, now), SeedSchema("analytics", [], false, now)],
             [], Some(now), Some(now), 0, true)
  }

  /** createMySQLCatalog: schema inventory with table products. */
  function MySqlCatalog(now: Instant): Database {
    Database(Some("mysql"), Some("MySQL"), Some("mysql"), Some("localhost"), Some(3306),
             Some("ACTIVE"),
             [SeedSchema("inventory", [SeedTable("products", ProductColumns(), 2500, now)], true, now)],
             [], Some(now), Some(now), 0, true)
  }

  /** createSystemCatalog: empty schemas metadata and information_schema; no host or port. */
  function SystemCatalog(now: Instant): Database {
    Database(Some("system"), Some("System"), Some("system"), None, None,
             Some("ACTIVE"),
             [SeedSchema("metadata", [], false, now), SeedSchema("information_schema", [], false, now)],
             [], Some(now), Some(now), 0, true)
  }

  /** The cache right after a refresh at `now`. */
  function DefaultCatalogs(now: Instant): map<string, Database> {
    map["postgres" := PostgresCatalog(now), "mysql" := MySqlCatalog(now), "system" := SystemCatalog(now)]
  }

  /** The service's databases after a refresh registered the three default catalogs. */
  function WithDefaults(dbs: map<string, Database>, now: Instant): map<string, Database> {
    dbs["postgres" := PostgresCatalog(now)]["mysql" := MySqlCatalog(now)]["system" := SystemCatalog(now)]
  }

  /** A refresh leaves exactly the ids postgres, mysql and system, each catalog stored
      under its own id. */
  lemma DefaultCatalogIds(now: Instant)
    ensures DefaultCatalogs(now).Keys == {"postgres", "mysql", "system"}
    ensures |DefaultCatalogs(now)| == 3
    ensures IdsMatch(DefaultCatalogs(now))
  {
    var m := DefaultCatalogs(now);
    assert m.Keys == {"postgres", "mysql", "system"};
    assert |{"postgres", "mysql", "system"}| == 3 by {
      assert "postgres" != "mysql" && "mysql" != "system" && "postgres" != "system";
    }
  }

  /** A cache just refreshed at time t needs no refresh until more than five minutes
      have passed, and needs one afterwards. */
  lemma RefreshedCacheLasts(t: Instant, now: int)
    ensures ShouldRefresh(DefaultCatalogs(t), t, now) <==> now > t + CACHE_REFRESH_INTERVAL
  {
    DefaultCatalogIds(t);
  }

  /** A refresh replaces the service's record of each default catalog, so the usage the
      service counted on it (totalQueries, lastSeen, schemas) starts again from zero. */
  lemma RefreshResetsUsage(dbs: map<string, Database>, now: Instant)
    ensures WithDefaults(dbs, now).Keys == dbs.Keys + DefaultCatalogs(now).Keys
    ensures forall id :: id in DefaultCatalogs(now) ==>
      WithDefaults(dbs, now)[id] == DefaultCatalogs(now)[id] && WithDefaults(dbs, now)[id].totalQueries == 0
    ensures forall id :: id in dbs && id !in DefaultCatalogs(now) ==> WithDefaults(dbs, now)[id] == dbs[id]
  {
    DefaultCatalogIds(now);
  }

  /** Registering the default catalogs keeps every database stored under its own id. */
  lemma WithDefaultsKeepsIds(dbs: map<string, Database>, now: Instant)
    requires IdsMatch(dbs)
    ensures IdsMatch(WithDefaults(dbs, now))
  {
  }

  lemma CustomerColumnsUnique()
    ensures UniqueNames(CustomerColumns(), ColumnName)
  {
    var c := CustomerColumns();
    assert c[0].name == "id" && c[1].name == "name" && c[2].name == "email";
    assert c[3].name == "city" && c[4].name == "country" && c[5].name == "created_at";
  }

  lemma OrderColumnsUnique()
    ensures UniqueNames(OrderColumns(), ColumnName)
  {
    var c := OrderColumns();
    assert c[0].name == "id" && c[1].name == "customer_id" && c[2].name == "product";
    assert c[3].name == "amount" && c[4].name == "order_date";
  }

  lemma PostgresCatalogOk(now: Instant)
    ensures DatabaseOk(PostgresCatalog(now))
  {
    CustomerColumnsUnique();
    OrderColumnsUnique();
    var p := PostgresCatalog(now);
    assert TableOk(p.schemas[0].tables[0]) && TableOk(p.schemas[0].tables[1]);
    assert SchemaOk(p.schemas[0]);
  }

  lemma MySqlCatalogOk(now: Instant)
    ensures DatabaseOk(MySqlCatalog(now))
  {
    var c := ProductColumns();
    assert c[0].name == "id" && c[1].name == "name" && c[2].name == "price" && c[3].name == "category";
    assert TableOk(MySqlCatalog(now).schemas[0].tables[0]);
  }

  /** Every default catalog has unique names in each list, holds no collection, and
      its schema list is fixed-size. */
  lemma DefaultCatalogsOk(now: Instant)
    ensures forall id :: id in DefaultCatalogs(now) ==>
      DatabaseOk(DefaultCatalogs(now)[id]) && DefaultCatalogs(now)[id].collections == []
      && DefaultCatalogs(now)[id].schemasFixed
  {
    PostgresCatalogOk(now);
    MySqlCatalogOk(now);
  }

  /** A catalog id without upper-case letters that contains `marker`, a name the guess
      tries before "mongo", is not MongoDB. */
  lemma NotMongo(id: string, marker: string)
    requires marker == "postgres" || marker == "mysql"
    requires forall i :: 0 <= i < |id| ==> !('A' <= id[i] <= 'Z')
    requires Contains(id, marker)
    ensures GuessDbType(id) != "mongodb"
  {
    MongoCatalogs(id);
    assert ToLower(id) == id;
  }

  /** None of the default catalogs' ids reads as MongoDB. */
  lemma DefaultCatalogsRelational(now: Instant)
    ensures forall id :: id in DefaultCatalogs(now) ==> GuessDbType(id) != "mongodb"
  {
    assert OccursAt("postgres", "postgres", 0);
    NotMongo("postgres", "postgres");
    assert OccursAt("mysql", "mysql", 0);
    NotMongo("mysql", "mysql");
    SystemNotMongo();
  }

  lemma SystemNotMongo()
    ensures GuessDbType("system") != "mongodb"
  {
    MongoCatalogs("system");
    assert ToLower("system") == "system";
    assert !OccursAt("system", "mongo", 0) && !OccursAt("system", "mongo", 1);
  }

  /** A refresh keeps names unique and the MongoDB/relational separation. */
  lemma WithDefaultsKeepsInvariants(reg: Registry, now: Instant)
    requires RegistryOk(reg) && KindsSeparate(reg)
    ensures var r := Registry(WithDefaults(reg.databases, now), reg.counts);
      RegistryOk(r) && KindsSeparate(r)
  {
    DefaultCatalogsOk(now);
    DefaultCatalogsRelational(now);
    RefreshResetsUsage(reg.databases, now);
  }

  /** Whatever inputs follow a refresh, each default catalog keeps its fixed-size lists: it
      gains no schema, its sample schemas public and inventory gain no table, and its sample
      tables keep their columns; only analytics, metadata and information_schema can grow. */
  lemma DefaultCatalogsNeverGrow(reg: Registry, now: Instant, inputs: seq<seq<(string, Value)>>, ts: Instant)
    ensures var after := ProcessAll(Registry(WithDefaults(reg.databases, now), reg.counts), inputs, ts).databases;
      forall id :: id in DefaultCatalogs(now) ==>
        id in after && DatabaseKept(DefaultCatalogs(now)[id], after[id])
        && |after[id].schemas| == |DefaultCatalogs(now)[id].schemas|
  {
    var refreshed := Registry(WithDefaults(reg.databases, now), reg.counts);
    DefaultCatalogsOk(now);
    RefreshResetsUsage(reg.databases, now);
    ProcessAllKeepsFixed(refreshed, inputs, ts);
    var after := ProcessAll(refreshed, inputs, ts).databases;
    forall id | id in DefaultCatalogs(now)
      ensures id in after && DatabaseKept(DefaultCatalogs(now)[id], after[id])
    {
      assert refreshed.databases[id] == DefaultCatalogs(now)[id];
    }
  }

  /** DatabaseCatalogService */
  class DatabaseCatalogService {
    const databaseService: DatabaseService
    var catalogCache: map<string, Database>
    var lastRefreshTime: int

    /** The constructor refreshes, so the cache starts with the three default catalogs. */
    constructor(databaseService: DatabaseService, now: Instant)
      modifies databaseService
      ensures this.databaseService == databaseService
      ensures catalogCache == DefaultCatalogs(now) && lastRefreshTime == now
      ensures databaseService.databases == WithDefaults(old(databaseService.databases), now)
      ensures databaseService.queryCounts == old(databaseService.queryCounts)
    {
      this.databaseService := databaseService;
      catalogCache := map[];
      lastRefreshTime := 0;
      new;
      RefreshCatalogCache(now);
    }

    predicate ShouldRefreshCache(now: int)
      reads this
    {
      ShouldRefresh(catalogCache, lastRefreshTime, now)
    }

    /** refreshCatalogCache: clear, add the three default catalogs, record the time. */
    method RefreshCatalogCache(now: Instant)
      modifies this, databaseService
      ensures catalogCache == DefaultCatalogs(now) && lastRefreshTime == now
      ensures databaseService.databases == WithDefaults(old(databaseService.databases), now)
      ensures databaseService.queryCounts == old(databaseService.queryCounts)
    {
      catalogCache := map[];
      AddCatalogToCache(Some(PostgresCatalog(now)));
      AddCatalogToCache(Some(MySqlCatalog(now)));
      AddCatalogToCache(Some(SystemCatalog(now)));
      lastRefreshTime := now;
      assert catalogCache == map[]["postgres" := PostgresCatalog(now)]["mysql" := MySqlCatalog(now)]["system" := SystemCatalog(now)];
    }

    /** addCatalogToCache and addCatalog: a null catalog or one without an id is ignored;
        otherwise it is stored under its id in the cache and in the database service. */
    method AddCatalogToCache(database: Option<Database>)
      modifies this, databaseService
      ensures database.Some? && database.value.id.Some? ==>
        && catalogCache == old(catalogCache)[database.value.id.value := database.value]
        && databaseService.databases == old(databaseService.databases)[database.value.id.value := database.value]
      ensures database.None? || database.value.id.None? ==>
        catalogCache == old(catalogCache) && databaseService.databases == old(databaseService.databases)
      ensures databaseService.queryCounts == old(databaseService.queryCounts)
      ensures lastRefreshTime == old(lastRefreshTime)
    {
      if database.Some? && database.value.id.Some? {
        catalogCache := catalogCache[database.value.id.value := database.value];
        databaseService.AddDatabase(database);
      }
    }

    method AddCatalog(catalog: Option<Database>)
      modifies this, databaseService
      ensures catalog.Some? && catalog.value.id.Some? ==>
        CatalogExists(catalog.value.id.value) && databaseService.DatabaseExists(catalog.value.id.value)
      ensures catalog.Some? && catalog.value.id.Some? ==>
        && catalogCache == old(catalogCache)[catalog.value.id.value := catalog.value]
        && databaseService.databases == old(databaseService.databases)[catalog.value.id.value := catalog.value]
      ensures catalog.None? || catalog.value.id.None? ==>
        catalogCache == old(catalogCache) && databaseService.databases == old(databaseService.databases)
      ensures databaseService.queryCounts == old(databaseService.queryCounts)
      ensures lastRefreshTime == old(lastRefreshTime)
    {
      AddCatalogToCache(catalog);
    }

    /** removeCatalog: the id leaves the cache and the database service. */
    method RemoveCatalog(catalogId: string)
      modifies this, databaseService
      ensures catalogCache == old(catalogCache) - {catalogId}
      ensures databaseService.databases == old(databaseService.databases) - {catalogId}
      ensures databaseService.queryCounts == old(databaseService.queryCounts) - {catalogId}
      ensures !CatalogExists(catalogId) && !databaseService.DatabaseExists(catalogId)
      ensures lastRefreshTime == old(lastRefreshTime)
    {
      catalogCache := catalogCache - {catalogId};
      databaseService.RemoveDatabase(catalogId);
    }

    predicate CatalogExists(catalogId: string)
      reads this
    {
      catalogId in catalogCache
    }

    function GetTotalCatalogs(): (r: nat)
      reads this
      ensures r == |catalogCache.Keys|
    {
      |catalogCache|
    }

    /** getAllDatabases: refresh when due, then every cached catalog; never empty. */
    method GetAllDatabases(now: Instant) returns (r: set<Database>)
      modifies this, databaseService
      ensures old(ShouldRefreshCache(now)) ==> catalogCache == DefaultCatalogs(now) && lastRefreshTime == now
      ensures old(ShouldRefreshCache(now)) ==>
        databaseService.databases == WithDefaults(old(databaseService.databases), now)
      ensures databaseService.queryCounts == old(databaseService.queryCounts)
      ensures !old(ShouldRefreshCache(now)) ==>
        catalogCache == old(catalogCache) && lastRefreshTime == old(lastRefreshTime)
        && databaseService.databases == old(databaseService.databases)
      ensures r == catalogCache.Values && r != {}
    {
      if ShouldRefreshCache(now) {
        RefreshCatalogCache(now);
        assert PostgresCatalog(now) == catalogCache["postgres"];
      } else {
        assert catalogCache != map[];
        var id :| id in catalogCache;
        assert catalogCache[id] in catalogCache.Values;
      }
      r := catalogCache.Values;
    }

    /** getDatabaseById: refresh when due, then the cached catalog of that id. */
    method GetDatabaseById(catalogId: string, now: Instant) returns (r: Option<Database>)
      modifies this, databaseService
      ensures old(ShouldRefreshCache(now)) ==> catalogCache == DefaultCatalogs(now) && lastRefreshTime == now
      ensures old(ShouldRefreshCache(now)) ==>
        databaseService.databases == WithDefaults(old(databaseService.databases), now)
      ensures databaseService.queryCounts == old(databaseService.queryCounts)
      ensures !old(ShouldRefreshCache(now)) ==>
        catalogCache == old(catalogCache) && lastRefreshTime == old(lastRefreshTime)
        && databaseService.databases == old(databaseService.databases)
      ensures r.Some? <==> CatalogExists(catalogId)
      ensures r.Some? ==> r.value == catalogCache[catalogId]
    {
      if ShouldRefreshCache(now) {
        RefreshCatalogCache(now);
      }
      r := if catalogId in catalogCache then Some(catalogCache[catalogId]) else None;
    }
  }
}
