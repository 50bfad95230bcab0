# A verified model of the query-shaping layer of `simple`

`simple` is a Go toolkit of thin wrappers around a MongoDB driver, the GORM ORM and the
Iris web framework. This project models the parts of it that compute something of their
own, rather than delegating to one of those libraries. It proves what each of those parts
promises.

- **Document-store condition builder** (`mongo.Cnd`). Chained calls gather filter
  entries, sort keys, selected columns and a paging descriptor. `BuildFindOptions` turns
  them into find options, and `AggregateWithConditions` into extra pipeline stages.
  Module `MongoCnd`.
- **Relational condition builder** (`sqls.Cnd`). Chained calls gather `(query, args)`
  pairs, order-by columns and a paging descriptor that is updated in place. `Build`
  replays them onto a GORM chain, modelled as the trace of calls made on it.
  Modules `SqlCnd`, `SqlUtils` and `FindInSetSql`.
- **Index-tag parsing** of the document store (`extractIndexes`). There are two variants:
  the full parser (module `MongoIndexes`) and the simpler `mdu` one (module `MduIndexes`).
  A model struct is described by its fields' `index`, `bson` and `ttlSeconds` tags.
- **Request-parameter helpers** (`web/params`): lookups, defaults, comma-separated lists,
  paging clamps and date layouts. The form is a map from a name to its first value.
  Module `Params`.
- **JSON response envelopes** (`web`): the `{code, msg, data, success}` constructors, the
  coded-error lookup, the in-place map builder and the filtering list conversion.
  Module `JsonResult`.
- **Collection helpers** of the document store: the aggregation pipeline, ID preparation
  before an insert, the outcome of `simpleAggregateFirst` and the `FindByID` filter.
  Module `MongoCollection`. `appendNotNull` of the query builder is module `BuilderUtil`.

Shared modules:
- `Wrappers`: `Option` and `Result`.
- `Values`: a Go `interface{}` value, `bson.E`, `bson.D` and `bson.M`.
- `GoStd`: the exact behaviour the core relies on from Go's standard library.
  - 64- and 32-bit integer conversions;
  - `strings.Split` and `strings.TrimSpace`;
  - `strconv.ParseInt`, `strconv.FormatInt` and `strconv.ParseBool`.

Builders that the source mutates in place are classes. Their methods carry `modifies`
clauses and state the whole new state. The loops of the source are `for` loops proved
against recursive specification functions. The lemmas prove what those functions mean.

Functions the shown source calls but does not define become parameters:
- `strs.IsBlank` is `isBlank`;
- `Paging.Offset()` of the relational store is `offsetOf`;
- the `cast` converters are `convert` or `toInt64`;
- `dates.Parse` is `parse`;
- `Model.PrepareID` is `prepareID`;
- `utils.IsNil` is `isNil`;
- the driver's aggregation is `aggregate`, and cursor decoding is `decode`.

`builder.S` stays symbolic: it is the pipeline element `Built(op)`.

## Model

| member | source | states |
|---|---|---|
| MongoCnd.Operator | mongo/cnd.go:40-78 | a comparison filter value is a document with exactly the one operator key, bound to the value |
| MongoCnd.Cnd.constructor | mongo/cnd.go:24-26 | a new condition has no filter, columns, sort or paging |
| MongoCnd.Cnd.Cols | mongo/cnd.go:28-33 | the columns are appended in order (none: nothing changes); filter, sort and paging are unchanged |
| MongoCnd.Cnd.AddFilter | mongo/cnd.go:35-78 | exactly one entry keyed by the column is appended to the filter; nothing else changes |
| MongoCnd.Cnd.Eq | mongo/cnd.go:35-38 | appends `(column, value)` with the raw value; columns, sort and paging unchanged |
| MongoCnd.Cnd.NotEq | mongo/cnd.go:40-43 | appends `(column, {$ne: value})`; nothing else changes |
| MongoCnd.Cnd.Gt | mongo/cnd.go:45-48 | appends `(column, {$gt: value})`; nothing else changes |
| MongoCnd.Cnd.Gte | mongo/cnd.go:50-53 | appends `(column, {$gte: value})`; nothing else changes |
| MongoCnd.Cnd.Lt | mongo/cnd.go:55-58 | appends `(column, {$lt: value})`; nothing else changes |
| MongoCnd.Cnd.Lte | mongo/cnd.go:60-63 | appends `(column, {$lte: value})`; nothing else changes |
| MongoCnd.Cnd.Like | mongo/cnd.go:65-68 | appends `(column, {$regex: str, $options: "i"})`; nothing else changes |
| MongoCnd.Cnd.In | mongo/cnd.go:70-73 | appends `(column, {$in: params})`; nothing else changes |
| MongoCnd.Cnd.NotIn | mongo/cnd.go:75-78 | appends `(column, {$nin: params})`; nothing else changes |
| MongoCnd.Cnd.Asc | mongo/cnd.go:80-83 | appends the sort key `(column, 1)`; filter, columns and paging unchanged |
| MongoCnd.Cnd.Desc | mongo/cnd.go:85-88 | appends the sort key `(column, -1)`; filter, columns and paging unchanged |
| MongoCnd.Cnd.Page | mongo/cnd.go:90-93 | the paging descriptor is replaced wholesale by `(page, limit)`; nothing else changes |
| MongoCnd.Projection | mongo/cnd.go:99-105 | one entry per selected column, in order, each mapped to 1 |
| MongoCnd.ProjectionKeys | mongo/cnd.go:99-105 | the projection's keys are exactly the selected columns in selection order |
| MongoCnd.LimitOf | mongo/cnd.go:117-120 | a limit is set iff there is paging with a positive size, and it is that size |
| MongoCnd.SkipOf | mongo/cnd.go:121-124 | a skip is set iff page and size are both positive, and it is `(page-1)*limit` modulo 2^64 |
| MongoCnd.SkipIsEarlierPages | mongo/cnd.go:121-124 | without overflow the skip is exactly the number of records on the earlier pages: never negative, 0 on page 1 |
| MongoCnd.PagingExamples | mongo/cnd.go:117-125 | page 2 of 10 skips 10 and takes 10; page 0 sets no skip; size 0 sets neither; no paging sets neither |
| MongoCnd.Cnd.BuildFindOptions | mongo/cnd.go:95-128 | projection iff columns were selected; the sort keys in call order iff any; limit and skip as LimitOf and SkipOf; the condition is not changed |
| MongoCnd.Cnd.FindRequest | mongo/cnd.go:130-132 | `Find` sends the filter with the options of BuildFindOptions |
| MongoCnd.Cnd.FindOneRequest | mongo/cnd.go:144-165 | `FindOne` sends the filter with projection and sort, and never a skip or limit |
| MongoCnd.Cnd.CountRequest | mongo/cnd.go:173-174 | `Count` sends the filter alone |
| MongoCnd.LastIndexOf | mongo/cnd.go:204-208 | the position of the last sort key named `k`, or none when no key is named `k` |
| MongoCnd.SortSpecLastWins | mongo/cnd.go:204-208 | the `$sort` document has a key iff some sort call named it, and its value is the direction of the last such call |
| MongoCnd.TrailingStagesOrder | mongo/cnd.go:204-221 | after the caller's stages: at most one sort stage, the limit stage iff a limit is set, then the skip stage iff a skip is set, the skip stage last |
| MongoCnd.Cnd.AggregatePipeline | mongo/cnd.go:197-221 | a `$match` stage of the filter in front iff the filter is non-empty, the caller's stages unchanged, then the sort, limit and skip stages |
| MongoCnd.AggregateStagesCarryFindValues | mongo/cnd.go:95-128 | the aggregation's stages carry the same values as a find on the same condition: the `$match` stage holds the filter, the caller's stages follow, the `$limit` stage sits right after the optional sort stage with the find's limit, and the `$skip` stage is last with the find's skip (the order in which they apply differs; see Findings) |
| MongoCnd.AsWrittenLaterPagesEmpty | mongo/cnd.go:213-221 | with the limit stage before the skip stage, every page from 2 on (when `(page-1)*limit` fits 64 bits) yields no documents, while a find with the same options returns the page's documents whenever there are more than `(page-1)*limit` |
| MongoCnd.IntendedMatchesFind | mongo/cnd.go:115-124 | the skip-then-limit stages return exactly the documents a find with the same skip and limit returns, and their sort stage keeps the sort keys in call order |
| MongoCnd.IntendedPage | mongo/cnd.go:120-123 | in the intended order, page `p` of size `l` is exactly the records from `(p-1)*l` up to `p*l`, cut at the end of the collection |
| MongoCnd.AsWrittenSortForgetsOrder | mongo/cnd.go:204-209 | as written, sorting by `a` then `b` and by `b` then `a` give the same `$sort` stage, while the sort the find sends tells them apart |
| SqlUtils.SqlNullString | sqls/sqls_utils.go:9-14 | the string is always the value; it is valid iff the value is non-empty |
| SqlUtils.KeywordWrap | sqls/sqls_utils.go:16-21 | a blank keyword is unchanged; any other is enclosed in backticks, two characters longer |
| SqlUtils.UnquoteKeywordWrap | sqls/sqls_utils.go:20 | quoting loses nothing: removing the backticks gives the keyword back, so distinct keywords stay distinct |
| SqlUtils.KeywordWrapNotIdempotent | sqls/sqls_utils.go:20 | quoting an already quoted non-blank name adds a second pair of backticks |
| SqlCnd.StringSlice | sqls/cnd.go:107-122 | a `[]string` argument holds the values in order |
| SqlCnd.WrapAll | sqls/cnd.go:170-173 | each selected column quoted, in order |
| SqlCnd.Cnd.constructor | sqls/cnd.go:28-30 | a new condition has no columns, pairs, orders or paging |
| SqlCnd.Cnd.Cols | sqls/cnd.go:32-37 | the columns are appended in order; nothing else changes |
| SqlCnd.Cnd.Where | sqls/cnd.go:136-139 | exactly one `(query, args)` pair is appended; nothing else changes |
| SqlCnd.Cnd.Eq | sqls/cnd.go:39-42 | appends ``quoted(column) = ?`` with ONE argument, the slice of the call's arguments; nothing else changes |
| SqlCnd.Cnd.NotEq | sqls/cnd.go:44-47 | appends ``quoted(column) <> ?`` with the argument slice as one argument; nothing else changes |
| SqlCnd.Cnd.Gt | sqls/cnd.go:49-52 | appends ``quoted(column) > ?`` with the argument slice as one argument; nothing else changes |
| SqlCnd.Cnd.Gte | sqls/cnd.go:54-57 | appends ``quoted(column) >= ?`` with the argument slice as one argument; nothing else changes |
| SqlCnd.Cnd.Lt | sqls/cnd.go:59-62 | appends ``quoted(column) < ?`` with the argument slice as one argument; nothing else changes |
| SqlCnd.Cnd.Lte | sqls/cnd.go:64-67 | appends ``quoted(column) <= ?`` with the argument slice as one argument; nothing else changes |
| SqlCnd.Cnd.Like | sqls/cnd.go:69-72 | appends a LIKE pair whose argument is `%str%`; nothing else changes |
| SqlCnd.Cnd.Starting | sqls/cnd.go:74-77 | appends a LIKE pair whose argument is `str%`; nothing else changes |
| SqlCnd.Cnd.Ending | sqls/cnd.go:79-82 | appends a LIKE pair whose argument is `%str`; nothing else changes |
| SqlCnd.Cnd.In | sqls/cnd.go:84-87 | appends ``quoted(column) in (?) `` with the parameters as one argument; nothing else changes |
| SqlCnd.Cnd.NotIn | sqls/cnd.go:89-92 | appends ``quoted(column) not in (?) `` with the parameters as one argument; nothing else changes |
| SqlCnd.Cnd.FindInSet | sqls/cnd.go:95-99 | appends one pair, the corrected token-membership query with the value as its argument (see Findings); nothing else changes |
| SqlCnd.Cnd.NotFindInSet | sqls/cnd.go:101-104 | appends one pair, the corrected negated query with the value as its argument (see Findings); nothing else changes |
| SqlCnd.Cnd.PgArrayContainsAll | sqls/cnd.go:107-110 | appends ``quoted(column) @> ?::text[]`` with the values as one slice argument; nothing else changes |
| SqlCnd.Cnd.PgArrayOverlaps | sqls/cnd.go:113-116 | appends ``quoted(column) && ?::text[]`` with the values as one slice argument; nothing else changes |
| SqlCnd.Cnd.PgArrayContainedBy | sqls/cnd.go:119-122 | appends ``quoted(column) <@ ?::text[]`` with the values as one slice argument; nothing else changes |
| SqlCnd.Cnd.PgAnyEqual | sqls/cnd.go:125-128 | appends ``? = ANY(quoted(column))`` with the value; nothing else changes |
| SqlCnd.Cnd.PgNotInAll | sqls/cnd.go:131-134 | appends ``? <> ALL(quoted(column))`` with the value; nothing else changes |
| SqlCnd.Cnd.Asc | sqls/cnd.go:141-144 | appends the quoted column as ascending; nothing else changes |
| SqlCnd.Cnd.Desc | sqls/cnd.go:146-149 | appends the quoted column as descending; nothing else changes |
| SqlCnd.Cnd.Page | sqls/cnd.go:156-164 | creates the paging descriptor when there is none, otherwise overwrites both fields of the same descriptor in place |
| SqlCnd.Cnd.Limit | sqls/cnd.go:151-154 | `Limit(n)` is `Page(1, n)` |
| SqlCnd.QuoteCols | sqls/cnd.go:169-175 | the selection loop yields every selected column quoted, in order |
| SqlCnd.ReplayWheres | sqls/cnd.go:178-182 | the where loop adds one `Where` call per stored pair, in accumulation order |
| SqlCnd.ReplayOrders | sqls/cnd.go:185-193 | the order loop adds one `Order` call per column, `col ASC` or `col DESC`, in call order |
| SqlCnd.ApplyPaging | sqls/cnd.go:195-203 | `Limit` iff there is paging with a positive size, then `Offset` iff the offset is positive |
| SqlCnd.Cnd.Build | sqls/cnd.go:166-205 | the chain gains the selection (if any columns), every where, the orders, the limit and the offset, in that order; the condition is not changed |
| SqlCnd.WhereCallsReplay | sqls/cnd.go:178-182 | one where call per pair, query and arguments unchanged, in order |
| SqlCnd.OrderCallsReplay | sqls/cnd.go:185-193 | one order call per order-by column, ASC or DESC by its direction, in order |
| SqlCnd.BuildTraceRanked | sqls/cnd.go:166-205 | the kinds of call Build makes never go backwards: select, where, order, limit, offset |
| SqlCnd.PagingCallsIff | sqls/cnd.go:195-203 | a `Limit(n)` call appears iff there is paging with positive size n; an `Offset(n)` call iff the offset is n and positive |
| SqlCnd.Cnd.FindOneRequest | sqls/cnd.go:213-214 | `FindOne` leaves the paging at page 1, size 1 whatever it was, in the same descriptor, then builds |
| SqlCnd.FindOneLimitsToOne | sqls/cnd.go:213-214 | the chain `FindOne` builds always limits to one row |
| SqlCnd.Cnd.CountRequest | sqls/cnd.go:220-228 | `Count` selects the model and replays only the where pairs, ignoring columns, orders and paging |
| FindInSetSql.AsWrittenNeverMatches | sqls/cnd.go:97 | the query as written matches no column value without a `!`, whatever the argument |
| FindInSetSql.AsWrittenMissesToken | sqls/cnd.go:97 | the column value `a,b` does not match the argument `a` as written, but does under the intended query |
| FindInSetSql.MatchesPieces | sqls/cnd.go:96 | `,v,` occurs in the comma-enclosed list of comma-free pieces iff v is one of the pieces |
| FindInSetSql.MatchesIffToken | sqls/cnd.go:96 | the intended query matches iff the argument (free of commas and of LIKE's `%`, `_` and `\`) is one of the comma-separated tokens of the column |
| MongoIndexes.KeyValue | mongo/connection.go:163-191 | exactly the attributes `1`, `-1`, `text`, `hashed`, `ttl`, `2dsphere` and `2d` define a key |
| MongoIndexes.ApplyAttr | mongo/connection.go:163-194 | one turn of the attribute switch, on the trimmed attribute |
| MongoIndexes.ParseIndexTag | mongo/connection.go:156-195 | the attribute loop over the comma-separated pieces of the tag, stopping at the first fatal attribute |
| MongoIndexes.ExtractFieldIndex | mongo/connection.go:147-205 | the index one field contributes, if any, or the fatal error |
| MongoIndexes.ExtractIndexes | mongo/connection.go:131-209 | the indexes of the fields in field order; a pointer is followed once; anything but a struct is fatal |
| MongoIndexes.StepMeaning | mongo/connection.go:163-194 | an attribute is fatal iff it is `ttl` with a missing or non-integer `ttlSeconds`; a key attribute replaces the keys with its own; `unique`, `sparse` and `ttl` set their option (`ttl` with the 32-bit truncation of `ttlSeconds`); anything else changes nothing |
| MongoIndexes.ParseAttrsMeaning | mongo/connection.go:160-195 | pieces are trimmed; fatal iff some piece is `ttl` and `ttlSeconds` is missing or not an integer; otherwise the key is that of the last key attribute, unique iff some piece is `unique`, sparse iff some piece is `sparse`, expiring iff some piece is `ttl` |
| MongoIndexes.HasAttrLast | mongo/connection.go:162 | an attribute occurs in a list iff it occurs in its first part or is its last piece |
| MongoIndexes.FieldIndexMeaning | mongo/connection.go:148-205 | a field with an empty index tag, or an empty or `-` bson tag, gives none; otherwise an index iff some key attribute occurs, unique iff `unique` occurs |
| MongoIndexes.IndexesAppend | mongo/connection.go:146-207 | the indexes of two runs of fields are those of the first followed by those of the second; the first fatal field decides |
| MongoIndexes.IndexesAtMostOnePerField | mongo/connection.go:146-207 | at most one index per field |
| MongoIndexes.ParseAttrsFailurePersists | mongo/connection.go:181-186 | a fatal attribute ends the loop with that error |
| MongoIndexes.IndexesFailurePersists | mongo/connection.go:181-186 | a fatal field ends the extraction with that error |
| MongoIndexes.ExampleAscUnique | mongo/connection.go:159-200 | `1,unique` gives one ascending unique index on the bson tag |
| MongoIndexes.ExampleNoKey | mongo/connection.go:168-171 | `unique` or `sparse` alone give no index |
| MongoIndexes.ExampleLastKeyWins | mongo/connection.go:163-173 | in `-1, text` the later, trimmed `text` key wins |
| MongoIndexes.ExampleNotStruct | mongo/connection.go:134-144 | a pointer to a struct is dereferenced once; a pointer to a pointer is not a struct and is fatal |
| MongoIndexes.ExampleFatal | mongo/connection.go:176-186 | `ttl` with a missing, or a non-integer, `ttlSeconds` is fatal, each with its own reason |
| MduIndexes.ExtractIndexes | mongo/mdu/connection.go:127-147 | one index per field whose index tag is non-empty, in field order; anything but a struct fails |
| MduIndexes.Tagged | mongo/mdu/connection.go:134 | only fields whose index tag is non-empty, and each of them |
| MduIndexes.TaggedSingle | mongo/mdu/connection.go:134 | one field is kept iff its index tag is non-empty |
| MduIndexes.TaggedAppend | mongo/mdu/connection.go:133-146 | the tagged fields of a concatenation are those of the first part followed by those of the second: the selection keeps field order and multiplicity |
| MduIndexes.IndexesOfTagged | mongo/mdu/connection.go:131-145 | exactly one index per tagged field: always the ascending key on the bson tag (empty or not), unique iff the tag is exactly `unique`, no other option |
| MduIndexes.UniqueDiffersFromFullParser | mongo/mdu/connection.go:137-139 | `1,unique` is not unique here, while the full parser makes it unique |
| Params.FormValueDefault | web/params/params.go:157-159 | the value when the name is present, otherwise the default |
| Params.FormValue | web/params/params.go:145-147 | empty iff the name is absent or its value is empty |
| Params.Get | web/params/params.go:50-53 | the value, and ok iff it is non-empty |
| Params.GetConverted | web/params/params.go:55-89 | the converted value and ok iff the value is non-empty and converts; otherwise the zero value and not ok |
| Params.FormValueRequired | web/params/params.go:149-155 | an error naming the parameter iff the value is empty, otherwise the value |
| Params.FormValueInt64 | web/params/params.go:161-182 | a missing value is the `paramError` of the name; otherwise the result of `strconv.ParseInt` |
| Params.FormValueBool | web/params/params.go:231-237 | a missing value is the `paramError` of the name; otherwise the result of `strconv.ParseBool` |
| Params.Int64DefaultMeaning | web/params/params.go:169-189 | the default iff the value is missing or does not parse, otherwise the parsed value; a number sent in decimal comes back |
| Params.BoolDefaultMeaning | web/params/params.go:239-249 | the default iff `FormValueBool` fails, otherwise its value; a boolean sent as text comes back |
| Params.TrimmedPieces | web/params/params.go:221-227 | at most one element per piece, each non-empty and trimmed |
| Params.FormValueStringArray | web/params/params.go:211-229 | nil for an empty value; otherwise the comma-separated pieces trimmed, empty ones dropped, in order |
| Params.TrimmedPiecesOfClean | web/params/params.go:221-227 | already trimmed non-empty pieces are kept as they are |
| Params.StringArrayRoundTrip | web/params/params.go:211-229 | a list of trimmed, non-empty, comma-free strings sent joined by commas comes back unchanged |
| Params.StringArrayCommaFree | web/params/params.go:216-227 | no returned element holds a comma |
| Params.ConvertedPieces | web/params/params.go:200-207 | at most one number per piece |
| Params.ConvertAll | web/params/params.go:200-207 | the loop keeps, in order, exactly the pieces that convert |
| Params.FormValueInt64Array | web/params/params.go:191-209 | nil for an empty value; otherwise the comma-separated pieces that parse as base-10 int64, in order |
| Params.Int64ArrayRoundTrip | web/params/params.go:191-209 | a list of numbers sent in decimal, joined by commas, comes back unchanged |
| Params.Int64ArrayNoTrim | web/params/params.go:202-205 | pieces are not trimmed: a blank before the digits drops the piece |
| Params.GetInt64Arr | web/params/params.go:129-143 | nil when the value is empty; otherwise the comma-separated pieces that convert, in order |
| Params.GetPaging | web/params/params.go:266-276 | page and limit are always at least 1: the sent value when positive, otherwise 1 and 20 |
| Params.PagingMeaning | web/params/params.go:266-276 | a page that does not parse reads as the default 1; a page and a size sent in decimal are read back as sent |
| Params.ParseFirstLayout | web/params/params.go:120-126 | the layout loop returns the first parse that succeeds, trying the layouts in order |
| Params.GetTime | web/params/params.go:115-127 | nil for a blank value, otherwise the first layout's successful parse |
| Params.FormDate | web/params/params.go:252-264 | nil for a blank value, otherwise the first layout's successful parse |
| Params.FirstParseMeaning | web/params/params.go:120-126 | nil iff no layout parses; otherwise the parse under a layout before which every layout failed |
| JsonResult.Json | web/json_result.go:16-23 | the four arguments, unchanged |
| JsonResult.JsonData | web/json_result.go:25-31 | code 0, success, the data unchanged |
| JsonResult.JsonItemList | web/json_result.go:33-39 | code 0, success, the items as the data |
| JsonResult.JsonPageData | web/json_result.go:41-46 | a success envelope holding a page result with the results and total unchanged |
| JsonResult.JsonCursorData | web/json_result.go:48-54 | a success envelope holding a cursor result with its three fields unchanged |
| JsonResult.JsonSuccess | web/json_result.go:56-62 | code 0, success, no data |
| JsonResult.FindCodeError | web/json_result.go:65-66 | a coded error of the chain when there is one, and none iff the chain holds none |
| JsonResult.JsonError | web/json_result.go:64-80 | never a success |
| JsonResult.JsonErrorMeaning | web/json_result.go:64-80 | the code, message and data of the coded error found in the chain; otherwise code 0, the error's text, no data; wrapping never hides a coded error |
| JsonResult.WrappedCodeErrorFound | web/json_result.go:65-72 | a coded error under any number of wrappers is found and reported |
| JsonResult.JsonErrorMsg | web/json_result.go:82-89 | code 0, the message, no data, failure |
| JsonResult.JsonErrorCode | web/json_result.go:90-97 | the code and message, no data, failure |
| JsonResult.JsonErrorData | web/json_result.go:99-106 | the code, message and data, failure |
| JsonResult.RspBuilder.constructor | web/json_result.go:112-122 | the builder starts from the given map |
| JsonResult.RspBuilder.Put | web/json_result.go:124-127 | sets or overwrites exactly one key, keeps every other key, returns the same builder |
| JsonResult.RspBuilder.Build | web/json_result.go:129-131 | the map itself |
| JsonResult.RspBuilder.JsonResult | web/json_result.go:133-135 | the map as the data of a success envelope |
| JsonResult.Kept | web/json_result.go:137-144 | no more items than were given |
| JsonResult.ConvertList | web/json_result.go:137-144 | the converted items, in order, without those converted to nil |
| JsonResult.KeptAppend | web/json_result.go:138-142 | converting two runs gives the kept items of the first followed by those of the second |
| JsonResult.KeptAll | web/json_result.go:138-142 | when no conversion is nil, every item is kept in its place |
| JsonResult.KeptFromItems | web/json_result.go:139-140 | every kept map is the conversion of some item |
| MongoCollection.SimpleAggregatePipeline | mongo/collection.go:177-186 | the pipeline the loop builds from the stages |
| MongoCollection.PipelineElementwise | mongo/collection.go:178-186 | one element per stage, in order: an operator becomes `builder.S` of it, anything else passes unchanged |
| MongoCollection.PipelineInverse | mongo/collection.go:181-185 | the stages can be read back from the pipeline |
| MongoCollection.PipelineAppend | mongo/collection.go:180-186 | the pipeline of two runs of stages is the two pipelines one after the other |
| MongoCollection.AggregateFirst | mongo/collection.go:132-141 | found iff the aggregation succeeded with a document; then the error is that of decoding the first; a failed aggregation returns its error; `(false, nil)` iff there is no document |
| MongoCollection.SimpleAggregateFirst | mongo/collection.go:132-141 | the outcome is AggregateFirst of the aggregation of the pipeline of the stages |
| MongoCollection.CreateWithCtx | mongo/collection.go:52-60 | a `PrepareID` error is returned with the model's ID and the collection unchanged; otherwise the prepared ID is set on the model before the insert, and the stored document carries it |
| MongoCollection.Model.SetID | mongo/collection.go:58 | the model's ID becomes the given ID |
| MongoCollection.Collection.Insert | mongo/collection.go:59 | the model, as it is now, is appended to the collection |
| MongoCollection.FindByIDFilter | mongo/collection.go:22-29 | the single key `_id`, bound to the ID as given |
| BuilderUtil.AppendedNotNull | mongo/builder/util.go:9-13 | a nil value leaves the map unchanged; otherwise the key is bound to the value; no other key is added, removed or changed; at most one entry is added |
| BuilderUtil.AppendedNotNullIdempotent | mongo/builder/util.go:9-13 | appending the same entry twice is appending it once |
| BuilderUtil.AppendedNotNullOverwrites | mongo/builder/util.go:11 | a later non-nil value for a key overwrites an earlier one |
| BuilderUtil.BsonM.AppendNotNull | mongo/builder/util.go:9-13 | the caller's map is changed in place to AppendedNotNull of it |
| GoStd.Wrap64 | mongo/cnd.go:122 | a Go 64-bit result: congruent to the exact value modulo 2^64, and equal to it when it fits |
| GoStd.Wrap32 | mongo/connection.go:187 | `int32(x)`: within 32 bits, congruent to x modulo 2^32, and equal to x when it fits |
| GoStd.TrimSpace | web/params/params.go:222 | no longer than the input, with no space at either end; empty iff the input is all space |
| GoStd.JoinSplit | web/params/params.go:216 | joining the pieces of a split gives the text back |
| GoStd.SplitJoin | web/params/params.go:196 | splitting a join of separator-free pieces gives the pieces back |
| GoStd.ParseFormatInt | web/params/params.go:181 | parsing a decimal integer gives it back |
| GoStd.ParseBool | web/params/params.go:236 | true for exactly `1 t T TRUE true True`, false for exactly `0 f F FALSE false False`, an error otherwise |

## Left out

- `Init` of both document-store connections is left out. It covers TLS files, connecting, pinging, and creating collections and indexes, which is all I/O. `log.Fatalf` inside `extractIndexes` is modelled as the `Failure` outcome.
- `getCollectionName` and `collName` are left out: they use reflection and a pluralisation library that cannot be seen.
- The query execution of `Find`, `FindOne`, `Count` and `Aggregate` is left out. The driver or GORM calls, cursor iteration and result decoding are not modelled; only the request each one builds is.
- `mongo/mdu/operation.go` and `mongo/mdu/collection.go` are not part of this model. They are hooks around single driver calls, and their create duplicates `createWithCtx`.
- `ReadForm` is left out: it decodes a form by reflection.
- `GetFloat32` and `GetFloat64` are left out because they use floating point. They are `GetConverted` with a float converter.
- The `cast` converters, `strs.IsBlank`, `dates.Parse` and the relational `Paging.Offset()` are not part of this model. They are parameters.
- The layout constants are named, not spelled out.
- The definition of `CodeError` is not part of this model. It is taken to carry a code, a message and data.
- The operator and field-name constants are taken as MongoDB's standard names (`$ne`, `$match`, `_id`, …).
- Go map aliasing is not modelled:
  - the maps returned by `RspBuilder.Build` and placed in a `$sort` stage are values here;
  - `*gorm.DB` chaining is a trace of calls.
- A nil slice and an empty slice are the same empty sequence.
- `errors.Join` (an error wrapping several errors) is not modelled; a chain has one cause per link.
- `NewRspBuilder` and `NewRspBuilderExcludes` take the map `structs.StructToMap` makes as the constructor's argument. `structs.StructToMap` is not part of this model.
- MongoCollection.CreateWithCtx: the result and error of the driver's insert (`create`, with its hooks) are not modelled. The insert is taken to store the model.
- MongoCollection.SimpleAggregateFirst: the cursor is the sequence of its documents. An error that makes `cur.Next` stop early reads as an empty cursor, as the source returns `(false, nil)` there too. Decoding into `result` is the `decode` parameter, and only its error is modelled.
- SqlCnd.Cnd.FindInSet: it uses the corrected query of the Findings table, not the query as written. The as-written text is `FindInSetSql.QueryAsWritten`.
- SqlCnd.Cnd.NotFindInSet: the same as FindInSet, for the negated query.
- GoStd.Wrap64: Go's `int` is taken to be 64 bits wide, so `strconv.Atoi` is `strconv.ParseInt(s, 10, 64)` and `int` products wrap at 64 bits.
- Params.FormValueDefault: the Iris form is a map from a name to its first value. Repeated values and the URL query/body merge are not modelled.
- FindInSetSql.MatchesIffToken: SQL `LIKE` is taken as literal, case-sensitive containment. The wildcards `%` and `_` and the escape `\` inside the argument, and the case-insensitive collations MySQL uses by default, are not modelled, so the lemma is stated only for arguments without `%`, `_` or `\`.
- JsonResult.JsonError: a nil error is not modelled (the source panics at `err.Error()` there); `Error` has no nil case.
- MongoCnd.Cnd.AggregatePipeline: it builds the stages as written, with `$limit` before `$skip` and the sort as a map. The corrected stages are `MongoCnd.TrailingStagesIntended`. A Go map's iteration order is not modelled, so the order of the keys in the as-written `$sort` document is left open.
- MongoCnd.ApplyStage: only what `$limit` and `$skip` do to the documents is modelled; matching, sorting and the caller's own stages are not executed.
- MduIndexes.ExtractIndexes: a non-struct model makes `reflect` panic in the source. Here that is the `NotStruct` failure.

## Findings

| source | as written | input that shows it | evidently intended | confidence | as-written member | corrected member |
|---|---|---|---|---|---|---|
| sqls/cnd.go:97 | ``fmt.Sprintf("… LIKE CONCAT('%,', ?, ',%%')", …)``: Go's `fmt` reads `%,` as a verb with no operand and prints `%!,(MISSING)`, so the pattern is `%!,(MISSING)<value>,%` (the same at line 102 for `NotFindInSet`) | column value `a,b`, argument `a`: `FindInSet` does not match it (and `NotFindInSet` keeps it) | the query in the comment at line 96, `CONCAT('%,', ?, ',%')`: taking LIKE as literal, case-sensitive containment, it matches iff an argument without `%`, `_` or `\` is one of the comma-separated tokens of the column | not executed | FindInSetSql.AsWrittenMissesToken | FindInSetSql.MatchesIffToken |
| mongo/cnd.go:213-221 | `AggregateWithConditions` appends the `$limit` stage and after it the `$skip` stage; an aggregation applies stages in order, so the skip drops documents the limit already kept | page 2, limit 10, 25 matching documents: the limit keeps 10, the skip of 10 drops them all and the result is empty, while `Find` returns documents 10 to 19 | skip before limit, as `Find` applies them: page `p` is the records `(p-1)*limit` up to `p*limit` | not executed | MongoCnd.AsWrittenLaterPagesEmpty | MongoCnd.IntendedMatchesFind |
| mongo/cnd.go:204-209 | the `$sort` stage is a `bson.M`, a Go map, so the order of the sort keys is lost and a repeated key keeps only its last direction | `Sort("a", 1)` then `Sort("b", -1)` and the same calls swapped give the same stage, while `Find` sorts by `a` first in one case and by `b` first in the other | a `bson.D` in call order, as `BuildFindOptions` uses at lines 108-113 | not executed | MongoCnd.AsWrittenSortForgetsOrder | MongoCnd.IntendedMatchesFind |
