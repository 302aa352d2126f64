/**
 * The Elasticsearch backend adapter: its fixed capability set, the lookup
 * that precedes translation, table-name listing, the cached table describe
 * with recursive field discovery, and source-type resolution.
 */
module Elasticsearch {
  import opened Wrappers
  import opened Json
  import opened EsSchema
  import opened Text

  /** The operations a backend can execute natively. */
  datatype SourceFeatures = SourceFeatures(
    scan: bool, seek: bool, where: bool, groupBy: bool, sort: bool, aggregations: bool)

  /** The adapter's capability set: every flag set. */
  const EsFeatures := SourceFeatures(true, true, true, true, true, true)

  /** The source type this adapter serves. */
  const ListenerType := "elasticsearch"

  /** A configured backend source; an empty `sourceType` is still to be resolved. */
  datatype SourceConfig = SourceConfig(name: string, sourceType: string)

  /** A configured schema: its source type and the names of the sources (nodes) it uses. */
  datatype SchemaConfig = SchemaConfig(name: string, sourceType: string, nodes: seq<string>)

  /** The part of a parsed SELECT the adapter reads: the names of its FROM tables. */
  datatype SqlSelect = SqlSelect(from: seq<string>)

  /** A table of the schema: its fields and its describe rows, appended in place. */
  class Table {
    const name: string
    var fields: seq<Field>
    var values: seq<ValuesRow>

    constructor (name: string)
      ensures this.name == name && fields == [] && values == []
    {
      this.name := name;
      fields := [];
      values := [];
    }

    method AddField(f: Field)
      modifies this`fields
      ensures fields == old(fields) + [f]
    {
      fields := fields + [f];
    }

    method AddValues(row: ValuesRow)
      modifies this`values
      ensures values == old(values) + [row]
    {
      values := values + [row];
    }
  }

  /** A logical database: the table cache and the listed table names. */
  class Schema {
    const db: string
    var tables: map<string, Table>
    var tableNames: seq<string>

    constructor (db: string)
      ensures this.db == db && tables == map[] && tableNames == []
    {
      this.db := db;
      tables := map[];
      tableNames := [];
    }
  }

  /** The configured sources and schemas; source types are resolved in place. */
  class Config {
    var sources: seq<SourceConfig>
    const schemas: seq<SchemaConfig>

    constructor (sources: seq<SourceConfig>, schemas: seq<SchemaConfig>)
      ensures this.sources == sources && this.schemas == schemas
    {
      this.sources := sources;
      this.schemas := schemas;
    }
  }

  /**
   * The type a source named `name` ends up with once the first `n` schemas
   * have been scanned in order, starting from `current`: every schema that
   * lists the name overwrites it.
   */
  function ScannedType(schemas: seq<SchemaConfig>, n: nat, name: string, current: string): string
    requires n <= |schemas|
  {
    if n == 0 then current
    else if name in schemas[n - 1].nodes then schemas[n - 1].sourceType
    else ScannedType(schemas, n - 1, name, current)
  }

  /** The resolved type of a source: kept when set, otherwise scanned from all schemas. */
  function ResolvedType(src: SourceConfig, schemas: seq<SchemaConfig>): string {
    if src.sourceType == "" then ScannedType(schemas, |schemas|, src.name, "") else src.sourceType
  }

  /** Does schema `j` list `name` with no later schema (below `n`) listing it? */
  predicate LastListing(schemas: seq<SchemaConfig>, n: nat, name: string, j: nat)
    requires n <= |schemas|
  {
    j < n && name in schemas[j].nodes && forall k :: j < k < n ==> name !in schemas[k].nodes
  }

  /** The last schema listing a source decides its type; with none, the type stays as it was. */
  lemma {:induction false} LastListingWins(schemas: seq<SchemaConfig>, n: nat, name: string, current: string)
    requires n <= |schemas|
    ensures (forall j :: 0 <= j < n ==> name !in schemas[j].nodes) ==>
      ScannedType(schemas, n, name, current) == current
    ensures forall j: nat :: LastListing(schemas, n, name, j) ==>
      ScannedType(schemas, n, name, current) == schemas[j].sourceType
  {
    if n > 0 {
      LastListingWins(schemas, n - 1, name, current);
      forall j: nat | LastListing(schemas, n, name, j)
        ensures ScannedType(schemas, n, name, current) == schemas[j].sourceType
      {
        if j < n - 1 {
          assert LastListing(schemas, n - 1, name, j);
        }
      }
    }
  }

  /** A source whose type is already set keeps it; an unset one takes the last listing schema's. */
  lemma ResolvedTypeCases(src: SourceConfig, schemas: seq<SchemaConfig>)
    ensures src.sourceType != "" ==> ResolvedType(src, schemas) == src.sourceType
    ensures src.sourceType == "" && (forall j :: 0 <= j < |schemas| ==> src.name !in schemas[j].nodes) ==>
      ResolvedType(src, schemas) == ""
    ensures forall j: nat :: src.sourceType == "" && LastListing(schemas, |schemas|, src.name, j) ==>
      ResolvedType(src, schemas) == schemas[j].sourceType
  {
    LastListingWins(schemas, |schemas|, src.name, "");
  }

  /** Elasticsearch as a data source of one schema. */
  class ElasticsearchDataSource {
    const schema: Schema?
    const conf: Config
    /** How many `_mapping` metadata requests this adapter has issued. */
    ghost var mappingFetches: nat

    constructor (schema: Schema?, conf: Config)
      ensures this.schema == schema && this.conf == conf && mappingFetches == 0
    {
      this.schema := schema;
      this.conf := conf;
      mappingFetches := 0;
    }

    /** The fixed capability set, returned without any I/O. */
    function Features(): (f: SourceFeatures)
      ensures f.scan && f.seek && f.where && f.groupBy && f.sort && f.aggregations
    {
      EsFeatures
    }

    /** Closing never fails. */
    function Close(): (err: Option<EsError>)
      ensures err.None?
    {
      None
    }

    /**
     * The table lookup that precedes translation: the lower-cased name of the
     * first FROM table must be in the schema. `Ok(tbl)` is the table the
     * statement is then translated against.
     */
    method SourceTask(stmt: SqlSelect) returns (r: Result<Table, EsError>)
      requires schema != null && |stmt.from| > 0
      ensures var name := ToLower(stmt.from[0]);
        && (r.Ok? <==> name in schema.tables)
        && (r.Ok? ==> r.value == schema.tables[name])
        && (r.Err? ==> r.error == TableNotFound(schema.db, name))
    {
      var tblName := ToLower(stmt.from[0]);
      if tblName !in schema.tables {
        return Err(TableNotFound(schema.db, tblName));
      }
      r := Ok(schema.tables[tblName]);
    }

    /**
     * Store the keys of the `_aliases` response, sorted, as the schema's
     * table names. A failed request is returned and nothing changes.
     */
    method LoadTableNames(aliases: Result<Json, string>) returns (err: Option<EsError>)
      requires schema != null
      modifies schema`tableNames
      ensures aliases.Err? ==> err == Some(FetchFailed(aliases.error)) && schema.tableNames == old(schema.tableNames)
      ensures aliases.Ok? ==> err.None? && schema.tableNames == SortStrings(Keys(aliases.value))
      ensures aliases.Ok? ==> Sorted(schema.tableNames) && multiset(schema.tableNames) == multiset(Keys(aliases.value))
    {
      if aliases.Err? {
        return Some(FetchFailed(aliases.error));
      }
      var jh := aliases.value;
      var keys := Keys(jh);
      var tables: seq<string> := [];
      var i := 0;
      while i < |keys|
        invariant 0 <= i <= |keys|
        invariant tables == keys[..i]
      {
        tables := tables + [keys[i]];
        i := i + 1;
      }
      assert tables == keys;
      tables := SortStrings(tables);
      schema.tableNames := tables;
      err := None;
    }

    /**
     * Describe `table`: from the cache when present, otherwise from the
     * `_mapping` response `resp` (a failed request is an empty response),
     * caching the result only once discovery is complete.
     */
    method LoadTableSchema(table: string, resp: Json) returns (r: Result<Table, EsError>)
      modifies this`mappingFetches, schema
      ensures schema == null ==> r == Err(NoSchema) && mappingFetches == old(mappingFetches)
      ensures schema != null ==> schema.tableNames == old(schema.tableNames)
      ensures schema != null && table in old(schema.tables) ==>
        && r == Ok(old(schema.tables)[table])
        && schema.tables == old(schema.tables)
        && mappingFetches == old(mappingFetches)
      ensures schema != null && table !in old(schema.tables) ==>
        && mappingFetches == old(mappingFetches) + 1
        && match Describe(table, resp)
           case Err(e) => r == Err(e) && schema.tables == old(schema.tables)
           case Ok(d) =>
             && r.Ok? && fresh(r.value)
             && r.value.name == table && r.value.fields == d.fields && r.value.values == d.rows
             && schema.tables == old(schema.tables)[table := r.value]
    {
      if schema == null {
        return Err(NoSchema);
      }
      // check the cache first
      if table in schema.tables {
        return Ok(schema.tables[table]);
      }
      mappingFetches := mappingFetches + 1;
      r := DescribeFromMapping(table, resp);
      if r.Ok? {
        schema.tables := schema.tables[table := r.value];
      }
    }

    /**
     * Fill in the type of every source that has none from the schemas that
     * list it (the last one wins); sources with a type are left alone.
     */
    method FindEsNodes() returns (err: Option<EsError>)
      modifies conf`sources
      ensures err.None?
      ensures |conf.sources| == |old(conf.sources)|
      ensures forall i :: 0 <= i < |conf.sources| ==>
        conf.sources[i] == old(conf.sources[i]).(sourceType := ResolvedType(old(conf.sources[i]), conf.schemas))
    {
      var n := 0;
      while n < |conf.sources|
        invariant 0 <= n <= |conf.sources| == |old(conf.sources)|
        invariant forall i :: 0 <= i < n ==>
          conf.sources[i] == old(conf.sources[i]).(sourceType := ResolvedType(old(conf.sources[i]), conf.schemas))
        invariant forall i :: n <= i < |conf.sources| ==> conf.sources[i] == old(conf.sources[i])
      {
        var be := conf.sources[n];
        if be.sourceType == "" {
          var s := 0;
          while s < |conf.schemas|
            invariant 0 <= s <= |conf.schemas|
            invariant be.name == old(conf.sources[n]).name
            invariant be.sourceType == ScannedType(conf.schemas, s, be.name, "")
          {
            var schemaConf := conf.schemas[s];
            var k := 0;
            ghost var before := be.sourceType;
            while k < |schemaConf.nodes|
              invariant 0 <= k <= |schemaConf.nodes|
              invariant be.name == old(conf.sources[n]).name
              invariant be.sourceType == if be.name in schemaConf.nodes[..k] then schemaConf.sourceType else before
            {
              if schemaConf.nodes[k] == be.name {
                be := be.(sourceType := schemaConf.sourceType);
              }
              k := k + 1;
            }
            assert schemaConf.nodes[..k] == schemaConf.nodes;
            s := s + 1;
          }
        }
        conf.sources := conf.sources[n := be];
        n := n + 1;
      }
      err := None;
    }
  }

  /**
   * Append to `tbl` a field and a describe row for every non-empty entry of
   * the mapping object `jh`, descending into object entries with the
   * dotted prefix. `depth` is threaded through but never checked.
   */
  method BuildEsFields(tbl: Table, jh: Json, prefix: string, depth: int)
    modifies tbl
    ensures tbl.fields == old(tbl.fields) + Discover(jh, Len(jh), prefix).fields
    ensures tbl.values == old(tbl.values) + Discover(jh, Len(jh), prefix).rows
    decreases jh, 1
  {
    var i := 0;
    while i < Len(jh)
      invariant 0 <= i <= Len(jh)
      invariant tbl.fields == old(tbl.fields) + Discover(jh, i, prefix).fields
      invariant tbl.values == old(tbl.values) + Discover(jh, i, prefix).rows
    {
      AddMember(tbl, jh, i, prefix, depth);
      DiscoverNext(jh, i, prefix, old(tbl.fields), old(tbl.values));
      i := i + 1;
    }
  }

  /**
   * The body of the loop above for member `i` of `jh`: looking its key up
   * as a helper path, a non-empty object gets its field and describe row,
   * typed by its tag.
   */
  method AddMember(tbl: Table, jh: Json, i: nat, prefix: string, depth: int)
    requires i < Len(jh)
    modifies tbl
    ensures tbl.fields == old(tbl.fields) + DiscoverMember(jh, i, prefix).fields
    ensures tbl.values == old(tbl.values) + DiscoverMember(jh, i, prefix).rows
    decreases jh, 0
  {
    var field := jh.members[i].key;
    var h := Helper(jh, field);
    if Len(h) > 0 {
      AddEntry(tbl, h, prefix + field, depth);
    }
  }

  /**
   * The field and describe row of a non-empty entry `h` named `fieldName`,
   * typed by its `type` tag, and for an object its nested properties.
   */
  method AddEntry(tbl: Table, h: Json, fieldName: string, depth: int)
    modifies tbl
    ensures tbl.fields == old(tbl.fields) + DiscoverEntry(h, fieldName).fields
    ensures tbl.values == old(tbl.values) + DiscoverEntry(h, fieldName).rows
    decreases h, 1
  {
    var esType := Str(h, "type");
    // The switch on the type tag: the five mapped cases differ only in the
    // logical type and size, which the mapping table gives.
    match EsTypeMapping(esType) {
      case Some((t, size)) =>
        tbl.AddValues(ValuesRow(fieldName, esType, "YES", "", None, Marshalled(h)));
        tbl.AddField(Field(fieldName, t, size, Marshalled(h)));
      case None =>
        AddObjectEntry(tbl, h, fieldName, depth);
    }
  }

  /** An entry without a known type tag: an object, described by its properties. */
  method AddObjectEntry(tbl: Table, h: Json, fieldName: string, depth: int)
    modifies tbl
    ensures tbl.fields == old(tbl.fields) + NestedOf(h, fieldName).fields
                          + [Field(fieldName, StringType, 2000, ObjectExtra)]
    ensures tbl.values == old(tbl.values) + [ValuesRow(fieldName, ObjectTag, "YES", "", None, ObjectExtra)]
                          + NestedOf(h, fieldName).rows
    decreases h, 0
  {
    tbl.AddValues(ValuesRow(fieldName, ObjectTag, "YES", "", None, ObjectExtra));
    var props := Child(h, "properties"); // a plain key: one step (PropertiesLookup)
    if Len(props) > 0 {
      BuildEsFields(tbl, props, fieldName + ".", depth + 1);
    }
    tbl.AddField(Field(fieldName, StringType, 2000, ObjectExtra));
  }

  /**
   * The uncached part of describing `table`: a new table holding the implicit
   * fields followed by everything discovered under the chosen index type's
   * `properties`, or an error when the mapping has no keys.
   */
  method DescribeFromMapping(table: string, resp: Json) returns (r: Result<Table, EsError>)
    ensures match Describe(table, resp)
      case Err(e) => r == Err(e)
      case Ok(d) =>
        && r.Ok? && fresh(r.value)
        && r.value.name == table && r.value.fields == d.fields && r.value.values == d.rows
  {
    var tbl := new Table(table);
    var respJh := Helper(resp, table + ".mappings");
    var respKeys := Keys(respJh);
    if |respKeys| < 1 {
      return Err(CouldNotDescribe);
    }
    var indexType := ChooseIndexType(respKeys);
    var jh := Child(Helper(respJh, indexType), "properties"); // a plain key: one step
    assert jh == IndexProperties(Mappings(table, resp));

    AddImplicitFields(tbl);
    assert tbl.fields == ImplicitFields && tbl.values == ImplicitRows;
    BuildEsFields(tbl, jh, "", 0);
    assert Describe(table, resp) == Ok(Discovered(tbl.fields, tbl.values));
    r := Ok(tbl);
  }

  /** Adds `_id`, `type` and `_score`, the fields every described table starts with. */
  method AddImplicitFields(tbl: Table)
    modifies tbl
    ensures tbl.fields == old(tbl.fields) + ImplicitFields
    ensures tbl.values == old(tbl.values) + ImplicitRows
  {
    tbl.AddField(IdField);
    tbl.AddField(TypeField);
    tbl.AddField(ScoreField);
    tbl.AddValues(IdRow);
    tbl.AddValues(TypeRow);
    tbl.AddValues(ScoreRow);
  }

  /** The first mapping key that is not `_default_`, else "user". */
  method ChooseIndexType(respKeys: seq<string>) returns (indexType: string)
    ensures indexType == IndexType(respKeys)
  {
    indexType := FallbackIndexType;
    var i := 0;
    while i < |respKeys|
      invariant 0 <= i <= |respKeys|
      invariant forall j :: 0 <= j < i ==> respKeys[j] == DefaultMappingKey
      invariant indexType == FallbackIndexType
    {
      if respKeys[i] != DefaultMappingKey {
        indexType := respKeys[i];
        break;
      }
      i := i + 1;
    }
  }

  /** A second describe of a table that was described successfully returns the same table and fetches nothing. */
  method DescribeTwice(es: ElasticsearchDataSource, table: string, resp1: Json, resp2: Json)
    returns (r1: Result<Table, EsError>, r2: Result<Table, EsError>)
    requires es.schema != null
    modifies es, es.schema
    ensures r1.Ok? ==> r2 == r1 && es.mappingFetches <= old(es.mappingFetches) + 1
  {
    r1 := es.LoadTableSchema(table, resp1);
    r2 := es.LoadTableSchema(table, resp2);
  }
}
