# raiden-dynamo core, modelled in Dafny

raiden-dynamo generates typed DynamoDB clients for annotated Rust structs.
This project models the run-time behaviour of four of its parts:

- **batch_get.** The generated `batch_get` call turns the caller's keys into
  attribute values. Its builder's `run` loop then works through them:
  - it drains the pending keys from the front, at most 100 per request;
  - it sends one request per batch;
  - it decodes every item the store returns for the table;
  - it collects the store's unprocessed keys into a result list, and does not
    put them back into the pending queue.
- **update.** The generated `update` call and its builder keep four
  append-only lists: ADD, SET, REMOVE and DELETE. `build_expression` drains
  the lists into three things:
  - an update expression;
  - a `#name` alias table;
  - a `:valueN` value table, whose ids come from a process-wide counter.
- **expand_attr_to_item.** This is the code generated per field to read a
  returned item back into the entity:
  - the key is the explicit rename, else the entity-wide policy applied to the
    identifier, else the identifier;
  - a missing optional field decodes to `None`;
  - a missing required field gives `AttributeValueNotFoundError`;
  - a value that does not convert gives `AttributeConvertError`.
- **Condition expressions.** A condition is a tree of predicates
  (`attribute_exists`, `attribute_not_exists`, `attribute_type`,
  `begins_with`, comparisons) combined with NOT, AND and OR. It renders to:
  - the expression text;
  - the alias table of every attribute it names;
  - the table of every literal it binds.

  `A.and(B)` renders as `A AND (B)`, so chains nest to the right.

Files:
- `attribute.dfy`: the store's attribute values, items and the error type.
- `placeholders.dfy`: the `#name` and `:valueN` placeholders, decimal
  rendering, and the id counter as a class.
- `shared.dfy`: field decoding.
- `batch_get.dfy`: key conversion, the per-pass specification `Pass`, the loop
  specification `RunSpec`, and the imperative `Run` proved equal to it.
- `update.dfy`: the builder class, the imperative `build_expression` proved
  equal to the specification `Compile`, and lemmas on `Compile`.
- `condition.dfy`: the condition tree, its renderer, lemmas on it, and one
  lemma per pinned test case.

Where the code's behaviour may surprise a reader, the model follows the
code:
- **Empty key list.** The batch loop checks for an empty pending list *after*
  a request. So an empty key list still sends one request, and a run sends
  max(1, ceil(n / 100)) requests.
- **Update `run`.** It installs the name and value tables but drops the
  compiled expression (see Findings).
- **Id order.** Update ids are taken in SET, ADD, REMOVE, DELETE order, while
  the text is emitted in ADD, SET, REMOVE, DELETE order. A REMOVE entry
  consumes an id it never binds.

## Model

| member | source | states |
|---|---|---|
| Shared.ExplicitRenameWins | raiden-derive/src/ops/shared.rs:10-12 | An explicit `rename` is the attribute key, and the entity-wide policy cannot change it. |
| Shared.PolicyThenIdentifier | raiden-derive/src/ops/shared.rs:13-17 | Without a rename, the key is the policy applied to the identifier. With no policy, the key is the identifier. |
| Shared.DecodeField | raiden-derive/src/ops/shared.rs:18-47 | Each outcome holds exactly in its own case: `None` iff optional and absent; `AttributeValueNotFoundError` iff required and absent; `AttributeConvertError` iff present but not convertible. Otherwise the result is the converted value, and every error names the resolved key. |
| Shared.DecodeReadsOnlyResolvedKey | raiden-derive/src/ops/shared.rs:21-36 | Decoding a field depends only on the entry under its resolved key. |
| Shared.DecodeFields | raiden-derive/src/ops/shared.rs:8-48 | The struct decodes iff every field does, with values in declaration order. Otherwise the error is that of the first failing field. |
| Shared.DecodeItem | raiden-derive/src/ops/batch_get.rs:124-126 | A returned item becomes a record iff every field decodes. The record holds the fields' values in declaration order. Otherwise the error is that of the first failing field. |
| BatchGet.BatchGetKeys | raiden-derive/src/ops/batch_get.rs:40-43 | One converted key per caller key, in order. |
| BatchGet.BatchGetCompositeKeys | raiden-derive/src/ops/batch_get.rs:62-65 | One converted (partition, sort) pair per caller pair, in order. |
| BatchGet.KeyMapOf | raiden-derive/src/ops/batch_get.rs:73-89 | A key map holds exactly the partition-key name, plus the sort-key name for a pair. The sort key is inserted second, so it wins if the two names coincide. |
| BatchGet.BuildKeyMaps | raiden-derive/src/ops/batch_get.rs:107-118 | The conversion loop yields one key map per drained key, in order. The request names only this table. |
| BatchGet.DecodeAll | raiden-derive/src/ops/batch_get.rs:121-127 | On success: one record per returned item, in order. On failure: the error of the first item that does not decode, every earlier item having decoded. |
| BatchGet.DecodeInto | raiden-derive/src/ops/batch_get.rs:123-127 | The push loop appends the decoded items after the existing ones, or returns the first decode error. |
| BatchGet.Pass | raiden-derive/src/ops/batch_get.rs:120-139 | A transport error passes through unchanged. No `responses` gives `ResourceNotFound("resource not found")`. No entry for the table gives `ResourceNotFound("'<t>' table not found or not active")`. When the table is in the response, the pass completes iff every item decodes. It then carries the decoded items, this table's unprocessed keys and the capacity report. Otherwise it fails with the first failing item's decode error. |
| BatchGet.BatchesPartition | raiden-derive/src/ops/batch_get.rs:112 | The batches concatenate back to the keys in order. All but the last hold 100 keys, and there are max(1, ceil(n / 100)) of them. |
| BatchGet.Batches250 | raiden-derive/src/ops/batch_get.rs:112 | 250 keys are sent as 100, 100 and 50. |
| BatchGet.SentFollowsBatches | raiden-derive/src/ops/batch_get.rs:106-149 | Every request carries the next batch of the original keys, so unprocessed keys are never re-queued. At least one request is sent. A successful run sends exactly max(1, ceil(n / 100)). |
| BatchGet.RunFailsWithLastPass | raiden-derive/src/ops/batch_get.rs:120-133 | A run fails iff the last pass it sent failed, and it fails with that pass's error. Items from earlier passes are not returned with it. |
| BatchGet.RunOkCompleted | raiden-derive/src/ops/batch_get.rs:142-147 | A successful run completed every pass. Its capacity report is the last response's. |
| BatchGet.RunOkCollects | raiden-derive/src/ops/batch_get.rs:123-127 | A successful run returns every pass's decoded items, in request order. |
| BatchGet.RunOkUnprocessed | raiden-derive/src/ops/batch_get.rs:135-139 | A successful run returns every pass's unprocessed keys for the table, in request order. |
| BatchGet.RunSpec | raiden-derive/src/ops/batch_get.rs:106-149 | On success the unprocessed-key list is present, and nothing collected before is lost: the items and the unprocessed keys gathered so far are prefixes of the result's. |
| BatchGet.BatchGetItemBuilder.constructor | raiden-derive/src/ops/batch_get.rs:21-27 | The builder holds the table configuration and the converted keys, in order. |
| BatchGet.BatchGetItemBuilder.Run | raiden-derive/src/ops/batch_get.rs:102-149 | The loop returns `RunSpec` of the original keys, with the n-th request as call n. On success the key list is drained. The log of the requests it hands to the client is exactly one `BatchRequest` per batch of `SentBatches`, in order. With `SentFollowsBatches`, it sends max(1, ceil(n / 100)) requests on success and never re-sends a key. |
| Placeholders.AliasInjective | raiden-derive/src/ops/update.rs:99 | Distinct attribute names get distinct `#` aliases. |
| Placeholders.AliasMapSize | raiden-derive/src/ops/update.rs:99-100 | An alias table has one entry per distinct name. |
| Placeholders.ParseNatToString | raiden-derive/src/ops/update.rs:98 | The decimal text of an id parses back to the id. |
| Placeholders.ValuePlaceholderInjective | raiden-derive/src/ops/update.rs:98 | `:value<a>` equals `:value<b>` iff a = b. |
| Placeholders.PlaceholderRangeSize | raiden-derive/src/ops/update.rs:98 | n consecutive ids give n distinct placeholders. |
| Placeholders.InPlaceholderRange | raiden-derive/src/ops/update.rs:98 | An id's placeholder is among a range's placeholders iff the id is in the range. |
| Placeholders.ValueIdCounter.constructor | raiden-derive/src/ops/update.rs:98 | A fresh counter hands out id 0 first. |
| Placeholders.ValueIdCounter.Generate | raiden-derive/src/ops/update.rs:98 | Returns the current id and advances the counter by one. |
| Placeholders.ValueIdCounter.Reset | raiden/tests/all/condition.rs:174 | After a reset the next id handed out is 0. |
| Update.UpdateItemBuilder.constructor | raiden-derive/src/ops/update.rs:28-43 | `update(key)` produces four empty lists and a key map holding only the partition key. The other request fields are unset. |
| Update.UpdateItemBuilder.RawInput | raiden-derive/src/ops/update.rs:57-60 | Replaces the request and leaves the lists alone. |
| Update.UpdateItemBuilder.Add | raiden-derive/src/ops/update.rs:62-65 | Appends to the ADD list only. |
| Update.UpdateItemBuilder.Set | raiden-derive/src/ops/update.rs:67-70 | Appends to the SET list only. |
| Update.UpdateItemBuilder.Remove | raiden-derive/src/ops/update.rs:72-75 | Appends to the REMOVE list only. |
| Update.UpdateItemBuilder.Delete | raiden-derive/src/ops/update.rs:77-80 | Appends to the DELETE list only. |
| Update.UpdateItemBuilder.SortKey | raiden-derive/src/ops/update.rs:82-86 | Inserts or overwrites the sort-key entry of the key map. Nothing else changes. |
| Update.JoinEmpty | raiden-derive/src/ops/update.rs:103 | A join of non-empty parts is empty iff there are no parts. |
| Update.ClauseTextEmpty | raiden-derive/src/ops/update.rs:97-126 | A clause text is empty iff its list is. |
| Update.ExpressionEmpty | raiden-derive/src/ops/update.rs:128-141 | The update expression is empty iff nothing is pending. |
| Update.ExpressionAllClauses | raiden-derive/src/ops/update.rs:128-141 | With all four lists non-empty, the expression is `ADD … SET … REMOVE … DELETE …`, single-space separated. Each clause uses the ids of its own range. |
| Update.AliasesTable | raiden-derive/src/ops/update.rs:99-100 | Inserting aliases one by one gives the union with the alias table of the names. |
| Update.CompileNames | raiden-derive/src/ops/update.rs:97-126 | The name table is `#n -> n` for exactly the names the four lists refer to. Its size is the number of distinct names. |
| Update.BindKeys | raiden-derive/src/ops/update.rs:101 | Binding values adds exactly the placeholders of their id range. |
| Update.BindAt | raiden-derive/src/ops/update.rs:101 | The i-th bound value sits under `:value<start+i>`. |
| Update.BindKeeps | raiden-derive/src/ops/update.rs:101 | Entries outside the new id range are unchanged. |
| Update.ValueTableKeys | raiden-derive/src/ops/update.rs:97-126 | The value table's keys are the placeholders of the SET, ADD and DELETE id ranges. |
| Update.ValueTableSkipsRemoves | raiden-derive/src/ops/update.rs:113-118 | The ids REMOVE consumes are never bound. |
| Update.ValueTableSize | raiden-derive/src/ops/update.rs:97-126 | One value per SET, ADD and DELETE entry. |
| Update.ValueTableSets | raiden-derive/src/ops/update.rs:97-103 | The k-th SET value is bound under the k-th id from the start. |
| Update.ValueTableAdds | raiden-derive/src/ops/update.rs:105-111 | The k-th ADD value is bound under the k-th id after the SET range. |
| Update.ValueTableDeletes | raiden-derive/src/ops/update.rs:120-126 | The k-th DELETE value is bound under the k-th id after the REMOVE range. |
| Update.CompileClause | raiden-derive/src/ops/update.rs:97-103 | One clause loop produces three things: the clause text, the updated alias table, and the updated value table (REMOVE binds none). It advances the counter by the list length. |
| Update.JoinClauses | raiden-derive/src/ops/update.rs:128-141 | Keyword-prefixed non-empty clauses, in ADD, SET, REMOVE, DELETE order, joined by one space. |
| Update.CompileTables | raiden-derive/src/ops/update.rs:88-143 | What `build_expression` returns has three parts. The expression is empty iff nothing is pending. The name table is `#n -> n` for exactly the referenced names. The value table has one entry under each id of the SET, ADD and DELETE ranges, and none for REMOVE. |
| Update.CompileAll | raiden-derive/src/ops/update.rs:97-141 | The four clause loops together give the specification's expression, name table and value table. |
| Update.UpdateItemBuilder.BuildExpression | raiden-derive/src/ops/update.rs:88-143 | Drains the four lists and returns `Compile` of what was pending. It advances the counter by the number of entries and leaves the request unchanged. |
| Update.AsWrittenDropsExpression | raiden-derive/src/ops/update.rs:146-153 | With anything pending, `run` as written sends a non-empty name table but no update expression, although the expression it computed is not empty. |
| Update.SentCarriesExpression | raiden-derive/src/ops/update.rs:146-153 | The corrected request carries the compiled expression, which is empty iff nothing is pending. It also carries the name table of exactly the names referred to and one value per SET, ADD and DELETE entry. |
| Update.UpdateItemBuilder.RunAsWritten | raiden-derive/src/ops/update.rs:146-153 | Sends `SentAsWritten`: the request plus the two tables. |
| Update.UpdateItemBuilder.Run | raiden-derive/src/ops/update.rs:146-153 | Sends `Sent`: the request plus the expression and the two tables. |
| Condition.TypePlaceholderInjective | raiden/tests/all/condition.rs:74-96 | `:type<T>` is shared by every test of type T, and different types never share it. |
| Condition.DigestInjective | raiden/tests/all/condition.rs:98-119 | Different prefixes never share a digest. |
| Condition.BeginsWithPlaceholderInjective | raiden/tests/all/condition.rs:98-119 | Two `begins_with` placeholders are equal iff their prefixes are. |
| Condition.PlaceholderKindsDiffer | raiden/tests/all/condition.rs:74-119 | `:value`, `:type` and `:begins_with_` placeholders never collide. |
| Condition.PredicateNames | raiden/tests/all/condition.rs:18-55 | A predicate registers the alias of each attribute it names. |
| Condition.RenderNames | raiden/tests/all/condition.rs:121-157 | A rendered condition's alias table is `#n -> n` for exactly the attributes it refers to. |
| Condition.RenderNamesCount | raiden/tests/all/condition.rs:138-157 | An attribute referred to several times has one alias entry. |
| Condition.RenderValues | raiden/tests/all/condition.rs:74-119 | The value table binds exactly the condition's literal placeholders: `:type<T>` to the type code T, and a `begins_with` placeholder to its prefix. |
| Condition.RenderLiterals | raiden/tests/all/condition.rs:172-193 | With distinct ids, each `value(...)` literal is bound under its own `:value<id>`. |
| Condition.LiteralKeyOrigin | raiden/tests/all/condition.rs:172-193 | Every `:value<id>` key comes from a literal with that id. |
| Condition.ValueOperand | raiden/tests/all/condition.rs:174-176 | `value(v)` takes the counter's next id. |
| Condition.AndChainRender | raiden/tests/all/condition.rs:138-157 | A chain of n conjuncts renders as its parts joined by ` AND (` and closed by n - 1 parentheses. |
| Condition.AttrExistsExample | raiden/tests/all/condition.rs:18-27 | `attribute_exists(#name)` with `{#name: name}`. |
| Condition.NotAttrExistsExample | raiden/tests/all/condition.rs:29-41 | `NOT (attribute_exists(#name))`. |
| Condition.AttrNotExistsExample | raiden/tests/all/condition.rs:43-55 | `attribute_not_exists(#name)`. |
| Condition.NotExistsAndExample | raiden/tests/all/condition.rs:57-72 | `attribute_not_exists(#name) AND (attribute_not_exists(#id))` with both aliases. |
| Condition.AttrTypeExample | raiden/tests/all/condition.rs:74-96 | `attribute_type(#id, :typeS)` with `{:typeS: S("S")}`. |
| Condition.BeginsWithExample | raiden/tests/all/condition.rs:98-119 | `begins_with(#name, <placeholder of "boku">)` with that placeholder bound to `S("boku")`. |
| Condition.AndExample | raiden/tests/all/condition.rs:121-136 | `attribute_exists(#name) AND (attribute_exists(#id))`. |
| Condition.ThreeAndExample | raiden/tests/all/condition.rs:138-157 | The right-nested three-`AND` text, with two alias entries. |
| Condition.AttrEqAttrExample | raiden/tests/all/condition.rs:159-170 | `#name = #name` with one alias entry. |
| Condition.ValueEqAttrExample | raiden/tests/all/condition.rs:172-193 | After a reset, `:value0 = #name` with `{:value0: S("bokuweb")}`. |

## Left out

- The code generation itself (token streams, trait and struct definitions) is not modelled; the model covers what the generated code does at run time.
- Transport: the client is a function of the request index and the request. Asynchrony, retries inside the transport, and its error contents are not modelled.
- The contents of the consumed-capacity report are not modelled; it is passed through as an opaque value.
- `rename`, `find_rename_value`, `is_option`, `IntoAttribute` and `FromAttribute` are parameters. Their internals are outside the modelled core.
- Attribute-name enums (`UserAttrNames::Name`) are represented by the attribute names they convert to.
- Placeholders.ValueIdCounter.Generate: the counter is a process-wide atomic in the library. The model passes it explicitly, and does not model atomicity or wrap-around at the machine word size.
- Condition.BeginsWithPlaceholderInjective: the library derives the `begins_with` placeholder from an md5 digest of the prefix. The model uses an injective code-point encoding instead. It therefore does not reproduce the digest text `17d8e2e8233d9a6ae428061cb2cdf226`, and proves collision-freedom that md5 only makes likely.
- Condition builder API: the fluent builder (`condition().attr(..).eq_attr(..)`, `not()`, `and(..)`) is represented by the tree it builds. The library's condition module source is not part of this model, so its behaviour is taken from the pinned test cases. `Or` and the comparators other than `=` follow DynamoDB's condition-expression syntax; no test pins them.
- Builders are consumed by value in Rust and cannot be reused. The model's builder objects can be called again; after `BuildExpression` their lists are empty.
- Update.UpdateItemBuilder.Run: the update `run` returns `Ok(())` whatever the store answers and only logs the answer. The model returns the request it sends instead of that result.
- The composite condition lemmas state the expected text as a concatenation of literal pieces (`"attribute_exists(#name)" + " AND (" + …`) rather than as one literal.

## Findings

| source | as written | input that shows it | evidently intended | confidence | as-written member | corrected member |
|---|---|---|---|---|---|---|
| raiden-derive/src/ops/update.rs:146-153 | `run` computes the update expression, then stores only the name and value tables in the request. The expression is dropped, so the store receives aliases and placeholders with no expression that uses them. | With the counter at 0, one `set(Name, "bokuweb")` sends `{#name: name}` and `{:value0: S("bokuweb")}` but no update expression. | Store the compiled expression as the request's update expression. | high; not executed | Update.AsWrittenDropsExpression | Update.SentCarriesExpression |
