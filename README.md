# Eloquent repository: request policy model

A Dafny model of the request policy of a generic Eloquent repository (a PHP
library). The repository offers find, list, filtered-list, update, delete and
soft-delete/restore operations for one entity type. It can be cache-aware: a
repository that implements `Cacheable` reads `all()` and `find($id)` through
the cache, and invalidates a model's cache before `update` or `delete` writes
it. It also has an `EagerLoad` criterion that adds relation names to a query.

The model has three parts:

- **Cache-aware reads and writes.** `EloquentRepository.Repository` is a class
  with these parts:
  - the stored rows (`store`) and the soft-deleted keys (`trashed`);
  - the cache (`cache`), a map from key to value and TTL;
  - two flags fixed at construction: `cacheable` and `softDeletes`;
  - a ghost `trace` of what was asked of the cache and of the store, in order.

  Every method states its result, the new state and the events it adds to the
  trace. That is how "invalidate before write" and "never touches the cache"
  are stated.
- **Error rules.** Results are `Ok`, `NotFound(Option<Id>)` (the id is present
  only for lookups by id) or `BadMethodCall`. `BadMethodCall` comes from
  soft-delete operations on an entity without soft deletes, a check that runs
  before any lookup. It also comes from `fill` or `delete` called on a
  collection.
- **Query construction.** `Queries.Query` records what is asked of the query
  builder: projection, conditions, orders, skip/take window, eager-loaded
  relations. Results are not computed from SQL. Executing a query is a
  parameter of the repository (`Orm`). Lookup by primary key and the row
  writes are modelled on a map keyed by the id's string form (`Store`), so the
  integer 7 and the string "7" name the same row, as they name the same cache
  key.

Collaborators defined elsewhere in the library (the base `EloquentRepository`
class and the ORM) are parameters fixed at construction. They are:

- `cacheKey()` (`prefix`);
- `cacheTTLValue()` (`ttl`, an opaque number);
- `getKeyName()` (`keyName`);
- `invalidateCache($model)` (`invalidate`, a function of the cache and the
  value passed to it, a model or a collection, that nothing is assumed about);
- the ORM's `get`, `first` and `paginate` (`orm`).

Cache `remember` is a plain read-through:

- a hit returns the stored value and runs nothing else;
- a miss runs the producer, stores its value with the TTL and returns it.

`throwModelNotFoundException` is modelled as the `NotFound` result: it carries
the id when one is passed (SelectsEntity.php:81, DeletesEntity.php:80) and no
id otherwise (SelectsEntity.php:146, 165, 202).

Three behaviours of the code are worth stating outright:

- `restore` does not invalidate the cache (DeletesEntity.php:93-100);
- the `*First` lookups raise NotFound without any description of the query
  (SelectsEntity.php:145-149);
- `paginate` passes the page size on without checking it (SelectsEntity.php:94-97).

Files:

- `domain.dfy`: ids, values, entities and the id-to-string rendering.
- `flattening.dfy`: `Arr::flatten`.
- `queries.dfy`: the query value and the sorted builder.
- `cache_keys.dfy`: the two key shapes.
- `criteria.dfy`: `Criterion` and `EagerLoad`.
- `store.dfy`: the row store.
- `repository.dfy`: the repository class.

## Model

| member | source | states |
|---|---|---|
| Domain.Fill | src/Repository/Concerns/UpdatesEntity.php:45 | filling keeps the id; the given properties overwrite or add attributes; all other attributes are kept |
| Domain.IntToString | src/Repository/Concerns/SelectsEntity.php:70 | an int renders as an optional minus sign followed by digits, never empty, and so never as "*" |
| Domain.IntToStringInjective | src/Repository/Concerns/SelectsEntity.php:70 | different integers render to different strings (the sign is the first character, and the digits are injective) |
| Domain.Changes | src/Repository/Concerns/UpdatesEntity.php:45 | the attributes a save writes are exactly the given properties that are new or differ from the value the model was loaded with |
| Domain.FillByChanges | src/Repository/Concerns/UpdatesEntity.php:45 | writing only those changes onto the loaded attributes gives exactly the filled model |
| Domain.RefillChangesNothing | src/Repository/Concerns/UpdatesEntity.php:45 | after a fill, filling the same properties again leaves nothing to write |
| Domain.IdString | src/Repository/Concerns/SelectsEntity.php:70 | a string id is used unchanged in the key; the only id whose string form is "*" is the string id "*" |
| Flattening.Flatten | src/Repository/Concerns/SelectsEntity.php:50 | `Arr::flatten` of the variadic arguments (also at EagerLoad.php:23); FlattenAppend, FlattenKeepsDuplicates, FlattenOfNames and FlattenEmpty below state its order, multiplicities and emptiness |
| Flattening.FlattenAppend | src/Repository/Eloquent/Criteria/EagerLoad.php:23 | flattening distributes over concatenation of the arguments, so the result keeps the arguments' left-to-right order |
| Flattening.FlattenKeepsDuplicates | src/Repository/Eloquent/Criteria/EagerLoad.php:23 | flattening does not deduplicate: each name occurs in the result as often as it occurs in the nested arguments |
| Flattening.FlattenOfNames | src/Repository/Concerns/SelectsEntity.php:50 | arguments that are already flat come out unchanged, position by position |
| Flattening.FlattenEmpty | src/Repository/Concerns/SelectsEntity.php:50-52 | the flattened list is empty exactly when no name occurs at any depth |
| Queries.Projection | src/Repository/Concerns/SelectsEntity.php:50-54 | `get` projects `["*"]` when flattening leaves no column, and otherwise exactly the flattened columns in their order |
| Queries.GetQuery | src/Repository/Concerns/SelectsEntity.php:48-57 | the query `get` runs is the base query with that projection and nothing else |
| Queries.WhereCondition | src/Repository/Concerns/SelectsEntity.php:109-113 | the array form of `getWhere` becomes one condition on all the pairs and ignores `value`; the column form compares the column with `value` |
| Queries.EffectiveSort | src/Repository/Concerns/SelectsEntity.php:181 | the sort is `sortedBy` when it is non-empty, and exactly `[(keyName, "desc")]` when it is null or empty |
| Queries.OrderedWhere | src/Repository/Concerns/SelectsEntity.php:179-187 | the built query has exactly one added `where` holding all the conditions and the effective sort appended in iteration order; nothing else changes |
| CacheKeys.ListKey | src/Repository/Concerns/SelectsEntity.php:30 | the list-all key is the prefix, then `.`, then `*`, and nothing more |
| CacheKeys.ItemKeyParts | src/Repository/Concerns/SelectsEntity.php:70 | the per-id key `ItemKey` is the prefix, then `.`, then exactly the id's string form; ListAndItemKeys and ItemKeysCoincide below say when two keys coincide |
| CacheKeys.ListAndItemKeys | src/Repository/Concerns/SelectsEntity.php:30-70 | the list-all key and a per-id key coincide exactly when the id's string form is "*", that is, only for the string id "*" |
| CacheKeys.ItemKeysCoincide | src/Repository/Concerns/SelectsEntity.php:70 | two per-id keys coincide exactly when the ids render to the same string |
| CacheKeys.IntIdKeysDistinct | src/Repository/Concerns/SelectsEntity.php:70 | different integer ids never share a per-id key |
| CacheKeys.IntIdsMissListKey | src/Repository/Concerns/SelectsEntity.php:30-70 | no integer id's key is the list-all key |
| Criteria.NewEagerLoad | src/Repository/Eloquent/Criteria/EagerLoad.php:21-24 | the criterion holds every relation name given, at any depth, as many times as given |
| Criteria.EagerLoad.Apply | src/Repository/Eloquent/Criteria/EagerLoad.php:31-34 | `apply(q)` adds exactly the stored relations after those already requested and changes nothing else in the query |
| Criteria.EagerLoad.AsCriterion | src/Repository/Criteria/Criterion.php:12 | as a query-to-query criterion, EagerLoad gives every query the stored relations after its own and changes nothing else in it |
| Criteria.CriteriaInSequence | src/Repository/Criteria/Criterion.php:12 | the criterion built from `a` followed by the one built from `b` acts on any query as the single criterion built from `a + b` |
| Criteria.ApplyRepeatedly | src/Repository/Eloquent/Criteria/EagerLoad.php:14-34 | applying the criterion n times adds its stored list n times over and changes nothing else, since `apply` never changes the stored list |
| Criteria.ApplyInSequence | src/Repository/Eloquent/Criteria/EagerLoad.php:21-34 | applying EagerLoad(a) and then EagerLoad(b) requests the same relations, in the same order, as EagerLoad(a, b) |
| Criteria.EmptyEagerLoad | src/Repository/Eloquent/Criteria/EagerLoad.php:21-34 | with no arguments (or only empty arrays) the criterion holds no relation and `apply` returns the query unchanged |
| Store.FindLive | src/Repository/Concerns/SelectsEntity.php:77 | lookup by id finds a row exactly when a row is stored under the id's string form and not trashed, and returns that row, whose own id has the same string form |
| Store.FindTrashed | src/Repository/Concerns/DeletesEntity.php:77 | lookup in the trashed scope finds a row exactly when a row is stored under the id's string form and trashed |
| Store.WithUpdated | src/Repository/Concerns/UpdatesEntity.php:45 | a save writes the changed attributes onto the stored row and keeps its other attributes; an id that is not stored changes nothing; every other row and every trashed mark is unchanged, and validity is kept |
| Store.WithDeleted | src/Repository/Concerns/DeletesEntity.php:47 | a soft delete marks the row trashed and keeps it; a hard delete removes it; either way a live lookup then fails and no other row changes |
| Store.WithRestored | src/Repository/Concerns/DeletesEntity.php:99 | a restore removes the trashed mark only; a live lookup then finds the row |
| Store.UpdatesAccumulate | src/Repository/Concerns/UpdatesEntity.php:45 | two saves to the same row, even from models loaded before either, keep both change sets; the later one wins only on the attributes it changes |
| Store.FreshModelUpdate | src/Repository/Concerns/UpdatesEntity.php:45 | a model loaded from the row it saves to leaves exactly the filled model in that row |
| Store.SoftDeleteThenRestore | src/Repository/Concerns/DeletesEntity.php:41-100 | a soft delete followed by a restore of a live row gives back the original table |
| EloquentRepository.AsFetched | src/Repository/Concerns/SelectsEntity.php:72-77 | a store lookup yields null exactly when nothing is found, and otherwise the model found |
| EloquentRepository.CheckFound | src/Repository/Concerns/SelectsEntity.php:80-84 | `find` raises NotFound carrying the id exactly when the value is null, and otherwise returns the value |
| EloquentRepository.CheckFirst | src/Repository/Concerns/SelectsEntity.php:145-149 | a `*First` lookup raises NotFound without an id exactly when nothing is found, and otherwise returns the entity found |
| EloquentRepository.Repository.Remember | src/Repository/Concerns/SelectsEntity.php:29-35 | read-through: a hit returns the cached value, leaves the cache alone and runs no producer; a miss runs the producer, stores its value with the TTL and returns it |
| EloquentRepository.Repository.Get | src/Repository/Concerns/SelectsEntity.php:48-57 | runs the base query with the projection, and records only that store run (no cache operation) |
| EloquentRepository.Repository.All | src/Repository/Concerns/SelectsEntity.php:26-39 | without a cache it is `get()` with no columns and no cache operation; with one it reads key `prefix.*`, so a hit does not consult the store and a miss stores and returns `get()` |
| EloquentRepository.Repository.AllTwice | src/Repository/Concerns/SelectsEntity.php:28-35 | two consecutive cacheable `all()` calls return the same value and run the store listing at most once |
| EloquentRepository.Repository.SameStringSameLookup | src/Repository/Concerns/SelectsEntity.php:66-77 | two ids with the same string form are one lookup: same value found, same cache afterwards |
| EloquentRepository.Repository.Find | src/Repository/Concerns/SelectsEntity.php:66-85 | with a cache it reads through key `prefix.id`; without one it goes straight to the store; NotFound(id) exactly when the value is null |
| EloquentRepository.Repository.Paginate | src/Repository/Concerns/SelectsEntity.php:94-97 | passes the page size to the ORM's paginate on the base query, with no cache operation |
| EloquentRepository.Repository.GetWhere | src/Repository/Concerns/SelectsEntity.php:107-114 | runs one `where` (array form ignoring `value`) with no cache operation |
| EloquentRepository.Repository.GetWhereIn | src/Repository/Concerns/SelectsEntity.php:124-127 | runs one `whereIn` with no cache operation |
| EloquentRepository.Repository.GetWhereFirst | src/Repository/Concerns/SelectsEntity.php:137-150 | the first match of the `where` query, or NotFound without an id exactly when there is none; no cache operation |
| EloquentRepository.Repository.GetWhereInFirst | src/Repository/Concerns/SelectsEntity.php:160-169 | the first match of the `whereIn` query, or NotFound without an id exactly when there is none |
| EloquentRepository.Repository.GetWhereFirstWithSorted | src/Repository/Concerns/SelectsEntity.php:197-205 | the first row of the sorted query (one `where`, effective sort), or NotFound without an id exactly when there is none |
| EloquentRepository.Repository.GetWhereWithSorted | src/Repository/Concerns/SelectsEntity.php:217-221 | runs the sorted query with skip = offset and take = limit (defaults 0 and 5000), with no cache operation |
| EloquentRepository.Repository.Update | src/Repository/Concerns/UpdatesEntity.php:39-48 | invalidates strictly before the save when cacheable, and does no cache operation otherwise; writes only the model's changed attributes onto its stored row; returns the refreshed row, which is the filled model when the model was fresh, and NotFound without an id when the row is no longer stored; a later find sees it unless the cache still holds the key |
| EloquentRepository.Repository.FindAndUpdate | src/Repository/Concerns/UpdatesEntity.php:24-29 | find, then update: on a null lookup NotFound(id), with no invalidation and no write; on a cached collection, invalidation of that collection and then BadMethodCall, with no write; on a model, the find's read-through, then invalidate, then a save of the changes; without a cache the result is the filled model |
| EloquentRepository.Repository.Delete | src/Repository/Concerns/DeletesEntity.php:41-48 | invalidates before the store delete when cacheable, and does no cache operation otherwise; the result is the store's delete result |
| EloquentRepository.Repository.FindAndDelete | src/Repository/Concerns/DeletesEntity.php:26-31 | find, then delete: on a null lookup NotFound(id), with no invalidation and no delete; on a cached collection, invalidation of that collection and then BadMethodCall, with no delete; on a model, invalidate and then delete |
| EloquentRepository.Repository.FindFromTrashed | src/Repository/Concerns/DeletesEntity.php:71-84 | BadMethodCall without soft deletes, before any lookup; otherwise it searches trashed rows only, never via the cache, and raises NotFound(id) exactly when there is no match |
| EloquentRepository.Repository.Restore | src/Repository/Concerns/DeletesEntity.php:93-100 | BadMethodCall without soft deletes; otherwise it clears the trashed mark, with no cache operation |
| EloquentRepository.Repository.FindAndRestore | src/Repository/Concerns/DeletesEntity.php:57-62 | BadMethodCall whatever the id without soft deletes, with no change; NotFound(id) and nothing restored when no trashed row matches; otherwise the row is restored |

## Left out

- `create` (src/Repository/Concerns/CreatesEntity.php) is a one-line pass-through to the ORM and has no policy; it is not modelled.
- Framework bootstrapping (src/ServiceProvider.php) has no logic of its own.
- `withCriteria` is only declared (src/Repository/Criteria/Criteria.php:12); the fold that applies the registered criteria lives in the base `EloquentRepository` class, which is not part of this model. Only the `Criterion` shape (query to query) and EagerLoad are modelled, so nothing is proved about the order in which registered criteria run.
- `invalidateCache`, `cacheKey` and `cacheTTLValue` are defined in the base class, and `getKeyName` is a method of the ORM model (SelectsEntity.php:181); all four are parameters here. In particular, nothing is claimed about which keys `invalidateCache` removes. Whether the `prefix.*` list key goes stale after a write is therefore not decided.
- The ORM is a parameter: SQL generation, how `first`, `get` and `paginate` pick rows, `fill` mass-assignment rules, and the merge rules of `with()`. The ORM merges relations by name; the model records each requested list in order.
- Cache backend internals are not modelled: TTL expiry, serialisation, and the cache's treatment of a stored null. The backend treats a stored null as a miss; the model's read-through returns it as a hit.
- Concurrent callers racing on cache population are not modelled.
- Domain.Fill: the primary key is kept apart from the attributes, and the given properties are assumed not to name the primary-key column. A property that does is written as an ordinary attribute; the model's key does not change.
- Store.WithUpdated: a change set is assumed not to set the primary-key column, so re-keying a row (an `UPDATE … SET id = 8 WHERE id = 7`) is not modelled: the row stays under its old key. UpdatesAccumulate and FreshModelUpdate rest on the same assumption.
- EloquentRepository.Repository.FindAndUpdate: inherits the assumption that the properties do not name the primary-key column. After an update that sets it, the source finds the row under the new key only; the model keeps it under the old one.
- EloquentRepository.Repository.Update: the properties are assumed not to name the primary-key column, so re-keying the row and `refresh()` reloading it under its new key are not modelled. The method takes the model as a value, and every value is taken to be a loaded, persisted model. An entity value carries no `exists` flag, so the insert `save()` performs for a model that was never saved is not modelled: such a model writes nothing here and gets NotFound. Saving and updating model events (and a listener vetoing the save) are not modelled either. The source also fills the caller's model object in place (aliasing); here the refreshed value is returned instead. The `updated_at` timestamp a save also writes is not modelled.
- EloquentRepository.Repository.Delete: every value is taken to be a loaded, persisted model. The source's `delete()` returns null without any query for a model whose `exists` flag is false, and a `deleting` listener returning false stops the delete; neither is modelled, and the model deletes or trashes the stored row whenever one is stored under the key. The result is whether that row is stored, not the source's result from the model object.
- EloquentRepository.Repository.Restore: the result is whether the row is stored. The source returns the result of the model's `save()`, and restoring events are not modelled.
- Store.FindLive: keys are compared by their decimal string form. A database's own coercions, such as "07" or "7.0" matching 7 on an integer key column, are not modelled.
- Store.FindTrashed: keys are compared by their decimal string form, as for live lookups.
- Query windows record the values given to `skip` and `take`. The ORM's treatment of null or negative values is not modelled, and neither is the order of the two calls.
- Sort arrays are sequences of (column, direction) pairs and may repeat a column, which a PHP array cannot.
- Conditions of the array form of `where` are column/value pairs. Nested `[column, operator, value]` entries are not modelled.
- Ids are integers or strings; other PHP key types are not modelled.
