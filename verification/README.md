# Elasticsearch adapter, MySQL system functions and Datastore test entities

This project models three pieces of a SQL federation engine that serves one
MySQL-compatible front end over several backends.

- **The Elasticsearch adapter** (`es_datasource.go`).
  - It advertises a fixed capability set, and closing it never fails.
  - Before translating a SELECT, it looks up the lower-cased name of the first FROM table in the schema.
  - It lists table names as the sorted keys of the `_aliases` response.
  - It describes a table with a cache in front of a `_mapping` request. The index type chosen is the first mapping key that is not `_default_`, falling back to `user`. The table gets three implicit fields (`_id`, `type`, `_score`). Then every mapped property is discovered recursively under a dotted prefix, typed by a fixed tag table.
  - It gives each configured source without a type the type of the last schema that lists it.
- **The MySQL system functions** (`mysql_functions.go`).
  - `DATABASE()` and `CONNECTION_ID()` read a session variable and fall back to a default. A variable of the wrong type counts as missing.
  - `CURRENT_USER()` is always `root`.
  - The loader adds all three to the expression engine's registry once.
- **The Datastore test entities** (`datastore_test.go`).
  - `Article.Save` and `User.Save` lay an entity out as a fixed list of named, indexed or unindexed properties.
  - `User.Load` reads the id back.
  - `Article.Load` maps nothing.

## Files

| file | contents |
|---|---|
| `wrappers.dfy` | `Option` and `Result` |
| `go_types.dfy` | Go's `byte` and `int64` |
| `json.dfy` | JSON response trees and the helper lookups the adapter uses on them (`Helper` with its path segments, `Keys`, `String`) |
| `text.dfy` | ASCII lower-casing and Go's `sort.Strings`, specified as sorted-and-a-permutation and shown to be the only such result |
| `es_schema.dfy` | field discovery as a specification: the type-tag table, the implicit fields, `Discover` and `Describe`, and the lemmas about them |
| `elasticsearch.dfy` | the adapter as a class over the schema's table cache and the configuration, with the describe and discovery methods proved against `es_schema.dfy` |
| `mysql_functions.dfy` | the three system functions and the once-only registry |
| `datastore_entities.dfy` | the Article and User entities with their `Save`/`Load` encoders |

## Model

| member | source | states |
|---|---|---|
| Elasticsearch.ElasticsearchDataSource.Features | pkg/backends/elasticsearch/es_datasource.go:21-28 | the capability set has scan, seek, where, group-by, sort and aggregation all enabled |
| Elasticsearch.ElasticsearchDataSource.Close | pkg/backends/elasticsearch/es_datasource.go:95 | closing always succeeds (no error) |
| Elasticsearch.ElasticsearchDataSource.SourceTask | pkg/backends/elasticsearch/es_datasource.go:72-81 | succeeds exactly when the lower-cased first FROM name is a table of the schema, returning that table; otherwise the not-found error naming the database and the lower-cased table |
| Elasticsearch.ElasticsearchDataSource.LoadTableNames | pkg/backends/elasticsearch/es_datasource.go:103-128 | a failed `_aliases` request is returned and leaves the names untouched; otherwise the schema's table names become the response keys, sorted and with the same multiset |
| Elasticsearch.ElasticsearchDataSource.LoadTableSchema | pkg/backends/elasticsearch/es_datasource.go:130-184 | no schema gives an error; a cached table is returned as is with no metadata request; a miss issues one request and returns (and caches) a fresh table whose fields and rows are exactly `Describe`'s, or returns `Describe`'s error and caches nothing |
| Elasticsearch.DescribeFromMapping | pkg/backends/elasticsearch/es_datasource.go:145-180 | the new table for a mapping response equals `Describe` of it: the no-keys error, or a fresh table named after the request with the described fields and rows |
| Elasticsearch.AddImplicitFields | pkg/backends/elasticsearch/es_datasource.go:172-178 | appends the `_id`, `type` and `_score` fields and their three describe rows |
| Elasticsearch.ChooseIndexType | pkg/backends/elasticsearch/es_datasource.go:160-166 | the loop's result is `IndexType` of the mapping keys |
| Elasticsearch.BuildEsFields | pkg/backends/elasticsearch/es_datasource.go:186-234 | appends exactly `Discover`'s fields and rows for the mapping object under the prefix |
| Elasticsearch.AddMember | pkg/backends/elasticsearch/es_datasource.go:187-232 | one loop iteration appends exactly that member's contribution: nothing when looking its key up as a helper path gives an empty entry |
| Elasticsearch.AddEntry | pkg/backends/elasticsearch/es_datasource.go:189-230 | a non-empty entry appends exactly its `DiscoverEntry` field and row (with its nested fields for an object) |
| Elasticsearch.AddObjectEntry | pkg/backends/elasticsearch/es_datasource.go:216-225 | an untyped entry appends the object row, then the nested properties' fields and rows under `name.`, then the object field |
| Elasticsearch.ElasticsearchDataSource.FindEsNodes | pkg/backends/elasticsearch/es_datasource.go:236-266 | never fails; every source keeps its name; a source with a type keeps it, and one without takes `ResolvedType` of the schemas |
| Elasticsearch.LastListingWins | pkg/backends/elasticsearch/es_datasource.go:240-249 | scanning schemas in order, the last one listing a source decides its type; if none lists it the starting type is kept |
| Elasticsearch.ResolvedTypeCases | pkg/backends/elasticsearch/es_datasource.go:240-249 | a typed source keeps its type; an untyped one gets the last listing schema's type, or stays empty if no schema lists it |
| Elasticsearch.DescribeTwice | pkg/backends/elasticsearch/es_datasource.go:135-138 | after a successful describe, describing the same table again returns the same table, and the two calls issue at most one metadata request |
| EsSchema.Describe | pkg/backends/elasticsearch/es_datasource.go:153-180 | fails, with the describe error, exactly when the table's `mappings` object has no keys; on success fields and rows have the same length, at least three, and begin with the three implicit fields and rows |
| EsSchema.IndexType | pkg/backends/elasticsearch/es_datasource.go:160-166 | all keys `_default_` (or none) gives `user`; otherwise the first key that is not `_default_` |
| EsSchema.FlatDiscovery | pkg/backends/elasticsearch/es_datasource.go:187-215 | when every non-empty entry has a mapped tag, discovery gives exactly one field and one row per member whose key lookup gives a non-empty entry, in member order, each named by the prefix and the member's key; the other members are skipped |
| EsSchema.DiscoverWellFormed | pkg/backends/elasticsearch/es_datasource.go:186-234 | discovery yields one describe row per field, every field name and row name extends the prefix, and every field has a documented type and size |
| EsSchema.EntryWellFormed | pkg/backends/elasticsearch/es_datasource.go:189-227 | the same three facts for one entry under its name |
| EsSchema.EntryContribution | pkg/backends/elasticsearch/es_datasource.go:192-225 | an entry contributes exactly one field and one row under its own name, typed from the tag table (an unknown tag gives the 2000-wide string object); every nested name lies under `name.`; an object without properties contributes just those two |
| Json.Child | pkg/backends/elasticsearch/es_datasource.go:168-170 | one lookup step: the object stored under the key when there is one, and the empty object otherwise; when non-empty it is a strict sub-tree of the input |
| Json.Helper | pkg/backends/elasticsearch/es_datasource.go:153 | following a key's path segments always gives an object, and a non-empty one is a strict sub-tree of the input |
| Json.PlainHelper | pkg/backends/elasticsearch/es_datasource.go:168-170 | a key without `.` or `/` is looked up in one step |
| Json.SplitJoin | pkg/backends/elasticsearch/es_datasource.go:153 | splitting a key into segments loses nothing: joining them back with the separator gives the key |
| Json.DottedPairHelper | pkg/backends/elasticsearch/es_datasource.go:153 | `a.b` with plain `a` and `b` is the lookup of `a`, then of `b` |
| Json.DottedKeyMissing | pkg/backends/elasticsearch/es_datasource.go:153 | a dotted key whose first segment is not a key of the object finds the empty helper, whatever the object holds under the full key |
| Json.PlainMemberHelper | pkg/backends/elasticsearch/es_datasource.go:187-189 | in an object with distinct keys, looking a member's plain key up gives that member's value when it is an object, and the empty helper otherwise, so iterating the members and looking each key up agree |
| EsSchema.PlainMappings | pkg/backends/elasticsearch/es_datasource.go:153 | for a table name without `.` or `/`, the mappings object is the `mappings` member of the table's member |
| EsSchema.DottedIndexNotDescribed | pkg/backends/elasticsearch/es_datasource.go:153-158 | an index whose name holds a dot gets the describe error when the response has no member named by the part before the first dot, even if it holds the index under its full name |
| EsSchema.DottedFieldSkipped | pkg/backends/elasticsearch/es_datasource.go:187-189 | a mapping entry whose key holds a dot contributes nothing when the object has no member named by the part before the first dot |
| Json.Keys | pkg/backends/elasticsearch/es_datasource.go:154 | one key per member of an object, in member order, and none for a non-object |
| Json.Str | pkg/backends/elasticsearch/es_datasource.go:195 | for a plain key: the string stored under the key when there is one, and the empty string otherwise |
| Text.ToLower | pkg/backends/elasticsearch/es_datasource.go:75 | same length; each ASCII capital letter becomes its lower-case letter and every other character is kept |
| Text.ToLowerIdempotent | pkg/backends/elasticsearch/es_datasource.go:75 | lower-casing twice is lower-casing once |
| Text.SortStrings | pkg/backends/elasticsearch/es_datasource.go:115 | the result is sorted and a permutation of the input |
| Text.SortedPermutationUnique | pkg/backends/elasticsearch/es_datasource.go:115 | two sorted permutations of the same strings are equal, so the sorted table names do not depend on the response's key order |
| Text.LessEqTotal | pkg/backends/elasticsearch/es_datasource.go:115 | the string order used by the sort is total |
| Text.LessEqTransitive | pkg/backends/elasticsearch/es_datasource.go:115 | the string order is transitive |
| Text.LessEqAntisymmetric | pkg/backends/elasticsearch/es_datasource.go:115 | the string order is antisymmetric |
| MySqlFunctions.DatabaseName | frontends/mysqlfe/mysql_functions.go:30-39 | always ok; the `@@database` value when it is a string, otherwise the empty string |
| MySqlFunctions.ConnectionId | frontends/mysqlfe/mysql_functions.go:45-53 | always ok; the `@@connection_id` value when it is an integer, otherwise 1 |
| MySqlFunctions.CurrentUser | frontends/mysqlfe/mysql_functions.go:59-66 | `"root"`, ok, for every context |
| MySqlFunctions.DatabaseWrongTypeIsAbsent | frontends/mysqlfe/mysql_functions.go:31-38 | a non-string `@@database` gives the same result as no `@@database` at all: the empty string |
| MySqlFunctions.ConnectionIdWrongTypeIsAbsent | frontends/mysqlfe/mysql_functions.go:46-52 | a non-integer `@@connection_id` gives the same result as none at all: 1 |
| MySqlFunctions.SessionVariablesRoundTrip | frontends/mysqlfe/mysql_functions.go:30-53 | setting `@@database` to a string or `@@connection_id` to an integer and calling the function returns exactly that value |
| MySqlFunctions.OtherVariablesIrrelevant | frontends/mysqlfe/mysql_functions.go:30-66 | the results do not depend on any other session variable |
| MySqlFunctions.Call | frontends/mysqlfe/mysql_functions.go:20-22 | each registered builtin, called through the registry, gives its function's value and ok |
| MySqlFunctions.WithMySqlFunctionsEntries | frontends/mysqlfe/mysql_functions.go:20-22 | registration adds exactly `current_user`, `connection_id` and `database`, each bound to its function, and keeps every other entry |
| MySqlFunctions.WithMySqlFunctionsIdempotent | frontends/mysqlfe/mysql_functions.go:18-24 | registering twice gives the same registry as registering once |
| MySqlFunctions.FunctionRegistry.LoadMySqlFunctions | frontends/mysqlfe/mysql_functions.go:18-24 | the first call registers the three functions (three additions) and marks the registry loaded; any later call changes nothing |
| MySqlFunctions.LoadTwice | frontends/mysqlfe/mysql_functions.go:18-24 | two loads perform at most three registrations, and on a fresh registry leave `database` calling DATABASE() |
| DatastoreEntities.Article.Save | backends/datastore/datastore_test.go:536-557 | no error; eleven properties named title, author, count, count64, deleted, category, created, updated, f, embedded, body in that order; exactly category, embedded and body unindexed; each carries its field, and a missing body is an empty byte string |
| DatastoreEntities.Article.Load | backends/datastore/datastore_test.go:527-535 | no error, and the article is unchanged for any property list |
| DatastoreEntities.User.Save | backends/datastore/datastore_test.go:585-596 | no error; six properties id, name, deleted, roles, created, updated in that order; only roles unindexed; both id and name carry the id |
| DatastoreEntities.User.Load | backends/datastore/datastore_test.go:574-584 | no error; the id becomes `LoadedId` of the properties and nothing else changes |
| DatastoreEntities.LoadedIdIsLast | backends/datastore/datastore_test.go:575-582 | the loaded id is the value of the last `id` property |
| DatastoreEntities.LoadedIdWithoutId | backends/datastore/datastore_test.go:575-582 | without an `id` property the id is left as it was |
| DatastoreEntities.SaveThenLoad | backends/datastore/datastore_test.go:574-596 | loading the properties a user saved restores the same id |
| DatastoreEntities.LookupFindsByName | backends/datastore/datastore_test.go:537-554 | a property of the layout, not an operation of the source: in a property list with distinct names, looking up a property's name yields its value |
| DatastoreEntities.SavedArticleLookups | backends/datastore/datastore_test.go:537-554 | a property of the layout: every saved article field can be found under its own property name |
| DatastoreEntities.SavedUserLookups | backends/datastore/datastore_test.go:586-594 | a property of the layout: every saved user field can be found under its own property name |

## Left out

- The HTTP requests are not modelled. The `_aliases` and `_mapping` responses are inputs: a failed `_aliases` request is a `Result` error. A failed `_mapping` request is only logged by the adapter and is modelled as an empty response, which then meets the no-keys describe error.
- The SQL-to-Elasticsearch translation and query in `SourceTask` (`NewSqlToEs`, `Query`) are not part of this model. `SourceTask` stops at the table lookup and returns the table.
- Logging (`u.Debugf`, `u.Warnf`, `u.Errorf`) is left out. So is the `ListenerType` branch of `findEsNodes`, which only logs, and the backend choice and address check in `loadTableSchema`, which only build the request URL or log.
- Discovery iterates the members and looks each key up again with `jh.Helper(field)`, as the source does. For a plain key in an object with distinct keys (as a Go map has) that finds the member's own value (`Json.PlainMemberHelper`). For a repeated key it finds the first member with that key, and for a dotted key it follows the path (`EsSchema.DottedFieldSkipped`).
- Go map iteration order is unspecified. A JSON object is a sequence of members, and discovery and `Keys` follow that one order; the table names are sorted, so their result does not depend on it.
- Json.Helper: the gou `JsonHelper` library is not part of this model. Its key is modelled as a path: split on `/` when the key holds one (a leading `/` dropped), otherwise on `.`, with each segment looked up in the object reached so far; a missing segment or a non-object value along the way gives the empty helper. Array-index segments such as `name[0]` are not modelled. So an index whose name holds a dot (a daily index `logstash-2015.05.18`, or `.kibana`) is looked up by its segments and usually meets the describe error (`EsSchema.DottedIndexNotDescribed`), and a mapping field whose key holds a dot is usually skipped (`EsSchema.DottedFieldSkipped`).
- Json.Str is one lookup step; the adapter only reads the plain key `type`, for which gou's path lookup is the same. It gives the string stored under the key, or the empty string otherwise. gou also renders numbers and booleans as text; no such text equals one of the type tags the adapter tests, so the branch taken is the same.
- `json.Marshal` of a mapping entry and of the datastore entity parts is symbolic (`Marshalled(h)`, `JsonStrings`, `JsonEmbedded`). The bytes themselves are not modelled.
- The models package (`Table`, `Schema`, `Field`, `NewField`, `Config`) is not part of this model. `AddField` and `AddValues` are plain appends, and the schema's table cache is a map. `Config.Sources` is assumed to hold pointers (`[]*SourceConfig`), so that the write to `be.SourceType` at es_datasource.go:245 updates the configured source; with a slice of values `findEsNodes` would change nothing, and `FindEsNodes`'s contract would not hold.
- Text.ToLower: only ASCII letters are lower-cased. Go's `strings.ToLower` also folds other Unicode letters.
- Text.LessEq compares code points. That is the same order as Go's byte-wise comparison of the UTF-8 encodings.
- Elasticsearch.ElasticsearchDataSource.LoadTableNames requires a schema. `NewElasticsearchDataSource` already reads the schema's `Conf` (es_datasource.go:49), so an adapter with a nil schema is never constructed. Without a schema, a failed `_aliases` request would return its error before the nil check at line 118, and a successful one would panic at line 121; neither case is modelled.
- Elasticsearch.ElasticsearchDataSource.SourceTask requires a schema, for the same reason, and a FROM table, because the source indexes `From[0]`.
- Elasticsearch.ElasticsearchDataSource.SourceTask reads the schema's table map directly. The source calls `Schema.Table` (es_datasource.go:77) from the models package, which is not part of this model. The contract assumes `Schema.Table` is a plain lookup in the same `Tables` map that `loadTableSchema` writes at line 181.
- Elasticsearch.ElasticsearchDataSource.Features returns an immutable value. The source returns a pointer to the one package variable `esFeatures` (line 94), so every caller shares, and could mutate, the same object; that aliasing is not modelled.
- DatastoreEntities.Lookup has no counterpart in the entities' code, which never looks a property up by name. It and the lemmas about it (`LookupFindsByName`, `SavedArticleLookups`, `SavedUserLookups`) state a property of the two layouts, that every name is used once, not behaviour of the source.
- DatastoreEntities.Article.Save and DatastoreEntities.User.Save require an update time, which the source dereferences.
- DatastoreEntities.User.Load requires every `id` property to hold a string; the source's type assertion panics otherwise.
- The depth counter of the recursive discovery is passed along but never checked. Its bound is the depth of the response tree.
- `nested` is mapped to a 2000-wide string field without recursion. Only entries whose tag is unknown (including `object` and a missing tag) recurse into their `properties`.
- The `sync.Once` guard is a `loaded` flag. Concurrent callers are not modelled, nor is the package `init` that calls the loader.
- The property list of `Save` is built as a local sequence updated by index, rather than a heap slice; it does not escape until it is returned.
- The warnings `Load` logs for unmapped properties are left out; the loops have no other effect.
- `Roles.Value()` is modelled as the JSON encoding of the role strings. Its type is not part of this model.
- Go's `int` and `int64` are 64-bit signed integers. `float64` is kept as its bit pattern, and `time.Time` as an uninterpreted instant.
- The rest of the Datastore test file is left out: the emulator, the client setup, the test data and the SQL tests.
