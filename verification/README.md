# active_denormalize consistency engine, in Dafny

`active_denormalize` adds a `denormalize: true` option to ActiveRecord's
`belongs_to`. A target row can then keep cached copies of its source record's
columns: `supplier_name` caches `name`, `supplier_id` caches `id`, and
`supplier_denormalized_at` stores the time of the last copy. This project models
the engine that keeps those copies consistent. It works over abstract rows,
which are maps from column name to value. Every operation is a pure function
that returns the update it issues, or the exception it raises.

- `records.dfy` (`Records`) holds the building blocks. Column values,
  `Record` (the attributes plus `created_at`) and the source model's metadata
  (`SourceType`: the prefix, the ordered column names, the primary key and the
  enum tables). It also has the errors a callback raises, the `Write` it issues
  (`NoWrite` or one `Update`), and `Persisted`, the target row once the callback
  has finished.
- `column_mapping.dfy` (`ColumnMapping`) is the mapping resolver
  `denormalized_column_mapping`. It is an insertion-ordered hash from target
  column to source column, plus its class-level memo.
- `projector.dfy` (`Projector`) holds `denormalize(target)` and
  `clear_denormalized_{prefix}`.
- `callbacks.dfy` (`Callbacks`) holds the `after_create_commit`,
  `after_update_commit` and `before_destroy` hooks, and the choice of a
  replacement source.
- `scenarios.dfy` (`Scenarios`) states what the engine does to concrete rows
  of a `Supplier` source.

A source is *current* for a target when the target's `{prefix}_{pk}` column
holds the source's primary key. The model proves the following:

- A successful projection makes its source current. This holds when the
  target has the `{prefix}_{pk}` column and the primary key is neither an
  enum column nor named `denormalized_at` (`Callbacks.KeyIsCopied`). Then
  `{prefix}_{pk}` is one of the mapped columns and receives the raw key.
- Updates of a source that is not current change nothing.
- Destroying the current source, under the same conditions on the target and
  the primary key, repoints the target at the newest replacement when that
  replacement's projection succeeds. If there is no replacement, it nils the
  target's cached columns.

Reading an attribute a record does not have (Ruby's `NoMethodError` from
`send`/`public_send`) and a value missing from an enum table (`KeyError` from
`fetch`) are modelled as errors. They are not excluded by preconditions.

## Model

| member | source | states |
|---|---|---|
| ColumnMapping.ColumnKeysInjective | lib/active_denormalize/associations/extension.rb:70-72 | two source columns with the same `{prefix}_{column}` key are the same column, so `index_by` never merges two columns |
| ColumnMapping.Insert | lib/active_denormalize/associations/extension.rb:73 | hash assignment keeps the key list duplicate-free and in step with the hash, and sets exactly that key; a new key goes last, an existing key keeps its place |
| ColumnMapping.IndexBy | lib/active_denormalize/associations/extension.rb:70-72 | the keys are exactly `{prefix}_{c}` for the columns `c`, and each maps back to its own column; for distinct columns the i-th key is that of the i-th column |
| ColumnMapping.IndexOneMore | lib/active_denormalize/associations/extension.rb:70-72 | indexing one more column adds its key and keeps every earlier key mapped to its own column |
| ColumnMapping.IndexOneMoreInOrder | lib/active_denormalize/associations/extension.rb:70-72 | indexing one more distinct column appends its key after the keys of the earlier columns |
| ColumnMapping.DenormalizedColumnMapping | lib/active_denormalize/associations/extension.rb:66-75 | one key `{prefix}_{c}` → `c` per source column, plus `{prefix}_denormalized_at` → the timestamp sentinel, and no other keys; every value is a source column or the sentinel |
| ColumnMapping.SentinelKeyIsNew | lib/active_denormalize/associations/extension.rb:70-73 | the sentinel assignment hits an existing key exactly when a source column is named `denormalized_at` |
| ColumnMapping.ResolvedKeyOrder | lib/active_denormalize/associations/extension.rb:66-75 | the keys follow `column_names` order, and the sentinel key comes last unless a source column is itself named `denormalized_at` |
| ColumnMapping.CachedMappingIsStable | lib/active_denormalize/associations/extension.rb:67 | the first lookup builds the mapping; every later lookup returns that identical mapping and leaves the memo unchanged |
| Projector.Intersect | lib/active_denormalize/associations/extension.rb:42 | `keys & columns` holds exactly the keys that are also columns |
| Projector.IntersectKeepsOrder | lib/active_denormalize/associations/extension.rb:42 | `keys & columns` lists its elements in the order in which they occur in `keys` |
| Projector.IntersectKeepsDistinct | lib/active_denormalize/associations/extension.rb:42 | `keys & columns` has no repeats when `keys` has none |
| Projector.DenormalizedColumns | lib/active_denormalize/associations/extension.rb:42 | the mapping keys kept for a target are exactly the mapping keys that are columns of the target, each once, in mapping order |
| Projector.ValueForRejects | lib/active_denormalize/associations/extension.rb:46-52 | reading a mapped column raises exactly when it is not the sentinel and the source lacks it or its enum table lacks the value |
| Projector.ValueForValues | lib/active_denormalize/associations/extension.rb:46-55 | the sentinel yields the write time; any other column yields the source's value, translated through its enum table when one exists |
| Projector.Attributes | lib/active_denormalize/associations/extension.rb:43-56 | the attribute hash has exactly the given keys with each key's value, and it fails iff some key fails |
| Projector.AttributesRaiseFirstError | lib/active_denormalize/associations/extension.rb:43-56 | when building the hash fails, the error is that of the first failing key, and every earlier key reads successfully |
| Projector.Project | lib/active_denormalize/associations/extension.rb:41-63 | no update and no error iff mapping keys ∩ target columns is empty; otherwise one update over exactly that set, or an error iff some targeted column is rejected |
| Projector.ProjectedValues | lib/active_denormalize/associations/extension.rb:44-55 | each written column holds the write time (sentinel), or the source's value, or that value's enum label |
| Projector.ProjectRaisesFirstError | lib/active_denormalize/associations/extension.rb:43-56 | a failed projection raises the error of the first targeted column, in mapping order, that fails |
| Projector.ProjectionFrame | lib/active_denormalize/associations/extension.rb:42-63 | after projecting, the target keeps its column set and `created_at`, and every column outside the targeted set keeps its value |
| Projector.EnumMissLeavesTargetUnchanged | lib/active_denormalize/associations/extension.rb:50-62 | a targeted enum column whose value is missing from its table makes the projection raise before `update!`, so the target is unchanged |
| Projector.ClearDenormalized | lib/active_denormalize/associations/extension.rb:26-29 | always issues one update that sets exactly mapping keys ∩ target columns to nil |
| Projector.ClearIsIdempotent | lib/active_denormalize/associations/extension.rb:26-29 | clearing touches no other column, and clearing a cleared target changes nothing |
| Callbacks.IsCurrentMeaning | lib/active_denormalize/associations/extension.rb:86-90 | the id comparison succeeds iff both ids can be read, and it is true iff the target's `{prefix}_{pk}` equals the source's primary key |
| Callbacks.ResolvedMappingCopiesKey | lib/active_denormalize/associations/extension.rb:82 | when the primary key is a plain source column, the resolved mapping sends `{prefix}_{pk}` to it |
| Callbacks.ProjectionMakesCurrent | lib/active_denormalize/associations/extension.rb:82 | when the mapping sends `{prefix}_{pk}` to the primary key and the target caches it, a successful projection leaves the source current on the target |
| Callbacks.AfterCreateCommit | lib/active_denormalize/associations/extension.rb:101-105 | projects iff the record opts in and has a target; otherwise issues nothing |
| Callbacks.CreateMakesCurrent | lib/active_denormalize/associations/extension.rb:101-105 | a created record that opts in becomes the current source of its target |
| Callbacks.AfterUpdateCommit | lib/active_denormalize/associations/extension.rb:107-115 | projects iff the updated record is current; raises when an id cannot be read; writes nothing otherwise |
| Callbacks.UpdateOfStaleSourceIsNoOp | lib/active_denormalize/associations/extension.rb:109-113 | updating a record that is not current leaves the target row unchanged, both when the id comparison is false and when reading an id raises |
| Callbacks.Replacements | lib/active_denormalize/associations/extension.rb:91 | keeps exactly the siblings in the `denormalize` scope whose primary key differs from the destroyed id |
| Callbacks.Newest | lib/active_denormalize/associations/extension.rb:91 | none iff there are no candidates; otherwise a candidate whose `created_at` is maximal |
| Callbacks.BeforeDestroy | lib/active_denormalize/associations/extension.rb:84-99 | no-op unless the destroyed record is current; then it projects a replacement with maximal `created_at`, or clears the target when no replacement exists |
| Callbacks.DestroyProjectsUniqueNewest | lib/active_denormalize/associations/extension.rb:91-93 | a replacement strictly newer than all the others is the one projected |
| Callbacks.DestroyRepointsTarget | lib/active_denormalize/associations/extension.rb:89-93 | when a replacement exists and its projection succeeds, the destroyed record is no longer current and a replacement is |
| Callbacks.DestroyWithoutReplacementClears | lib/active_denormalize/associations/extension.rb:94-96 | with no replacement, every targeted column becomes nil, including the cached foreign key when the mapping covers it |
| Scenarios.SupplierMapping | lib/active_denormalize/associations/extension.rb:66-75 | for prefix `supplier` and columns id, name, status, the keys `supplier_id`, `supplier_name`, `supplier_status`, `supplier_denormalized_at` map, in that order, to id, name, status and the sentinel |
| Scenarios.SupplierRowAccepted | lib/active_denormalize/associations/extension.rb:49-52 | a supplier row whose status has a label is rejected by no mapped column |
| Scenarios.SupplierPersisted | lib/active_denormalize/associations/extension.rb:41-63 | projecting such a row writes each cached column from its source column, the status as its label, and leaves the target's own `id` alone |
| Scenarios.EnumValueIsTranslated | lib/active_denormalize/associations/extension.rb:44-56 | raw status 2 is cached as "closed", next to the name and the write time |
| Scenarios.OnlyStatusRaises | lib/active_denormalize/associations/extension.rb:49-52 | for a supplier row, the only mapped column that can raise is `status`, with the enum miss for its value |
| Scenarios.UnknownEnumValueWritesNothing | lib/active_denormalize/associations/extension.rb:50-62 | the error raised for status 5 is exactly the `status` enum miss, and the target is unchanged |
| Scenarios.DestroyChoosesSecond | lib/active_denormalize/associations/extension.rb:89-93 | destroying current supplier 1, whose siblings are 2 (newest) and 3, projects supplier 2 |
| Scenarios.SecondIsCached | lib/active_denormalize/associations/extension.rb:41-63 | projecting supplier 2 caches its id and name on the target |
| Scenarios.DestroyPromotesNewestSibling | lib/active_denormalize/associations/extension.rb:84-99 | after supplier 1 is destroyed the target's `supplier_id` is 2 |
| Scenarios.UpdateOfOtherSupplierIsNoOp | lib/active_denormalize/associations/extension.rb:107-114 | updating supplier 2 while the target caches supplier 1 issues no write |

## Behaviour worth knowing

- Column collisions. The resolver does not reject colliding keys: `index_by`
  and the sentinel assignment (extension.rb:70-73) just overwrite. Keys
  `{prefix}_{c}` never collide for distinct columns (`ColumnKeysInjective`).
  The one overlap is a source column named `denormalized_at`. Its key is then
  the sentinel key, and that target column receives the write time.
- Replacement filter. The destroy hook picks replacements through the
  `denormalize` scope (extension.rb:35, 91; `Callbacks.Replacements`, the
  abstract `eligible` predicate). It does not consult the per-instance opt-in
  `denormalize?`, which only the create hook reads (extension.rb:102). By
  default that scope selects every record.
- Clearing. The clearer always calls `update!`, even when no column is targeted
  (`ClearDenormalized` always returns `Update`). The projector skips the write
  when its attribute set is empty.
- Foreign key. When there is no replacement, the cached foreign key becomes nil
  only because `{prefix}_{pk}` is one of the mapped columns
  (`DestroyWithoutReplacementClears`).

## Left out

- Registration into ActiveRecord's association builder, `build`,
  `valid_options` and the `class_eval`/`define_method` plumbing
  (lib/active_denormalize.rb:6, extension.rb:8-25, 33). These are framework
  wiring with no behaviour of their own.
- The memo lookup inside the projector, the clearer and the hooks. Each takes
  the source model's mapping as an argument instead: any mapping whose key
  list and hash agree (`ColumnMapping.Valid`). `ColumnMapping.CachedMapping`
  is what supplies it at run time, and `Callbacks.ResolvedMappingCopiesKey`
  shows that the resolved mapping meets the hooks' foreign-key condition.
- Debug logging (extension.rb:59, 61). It is a side effect only.
- `Time.zone.now` is the `now` parameter. Timestamps are integers.
- Association traversal. The target (`public_send(reflection.name)`) is an
  `Option<Record>` argument. The sibling collection is a sequence in storage
  order. The `denormalize` scope (an empty lambda, so "all records") is the
  `eligible` predicate. `denormalize?` is the `optedIn` flag of the create hook.
- `where.not(id: …)` is taken to compare the primary-key column. The code
  reads the key through `primary_key` everywhere else.
- Callbacks.Newest: ties on `created_at` are left open by the source. The
  function picks the earliest in storage order. Its contract states only
  maximality.
- ColumnMapping.IndexBy: the key order is stated only for distinct column
  names. Database column names are distinct, and with a repeated name
  `index_by` would keep the first key's place, which the model does but no
  contract states.
- Subclasses. `denormalize` looks the mapping up through `self.class`
  (extension.rb:42, 44), so under single-table inheritance a subclass would
  build its own memo, with its own `model_name` as prefix (extension.rb:67-68).
  The clearer and the hooks use the declaring `model` (extension.rb:27, 81-82).
  The model takes every source record to be an instance of the declaring model
  itself, so one `SourceType` and one mapping serve all of them.
- `update!` itself. Validation failures (the persistence error), the automatic
  `updated_at` touch, transactions, commit-hook delivery and races between
  concurrent writers belong to the persistence layer. An `Update` is applied
  as a plain map overwrite.
- The direction of an enum table (label to raw or raw to label). It is treated
  as an opaque finite map from value to value.
