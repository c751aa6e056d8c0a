# use-case-manager, modelled in Dafny

A model of the storage-and-query core of the use-case catalog. The catalog is a
personal tool: it tracks ideas for AI use cases, each with a title, category,
priority, effort/benefit scores, tags and a lifecycle status. It keeps them
either in a local JSON file or in a remote NocoDB table. The model has three parts:

- **The record** (`use_case.dfy`, module `UseCases`). `new UseCase(data)` fills
  every field from the input when it is truthy and from its default otherwise.
  The key is `case_id`, else the legacy `id`, else a generated `uc_…` id.
  `update` is a shallow merge that then refreshes `updatedAt`. `toJSON` emits
  the 18 fields and `fromJSON` is the constructor. The main theorem
  (`UseCases.RoundTrip`) says that `fromJSON(toJSON(u))` gives back `u`
  exactly when no field of `u` holds a falsy value the constructor would
  replace.
- **The catalog** (`use_case_manager.dfy`, module `Catalog`). The class
  `UseCaseManager` owns the records in insertion order. It models the
  AND-combined filter chain, lookup by key, create with rollback, delete with
  re-insertion, the sorted distinct categories and tags, and the frequency
  tables of `getStats`.
- **The remote store** (`nocodb_store.dfy`, module `NocoDB`). The class
  `NocoDBStore` models the one-way switch to the local fallback store, the
  table URL, and the list edits of the fallback branches: append, merge at
  the first match, splice out the first match. It also models the "Record not
  found" lookup of the remote branches.

Helper modules:

- `Json`: JSON objects as ordered key/value pairs, with last-wins lookup and
  spread/`Object.assign` as concatenation.
- `Seqs`: `findIndex`, `splice` and subsequences.
- `Text`: string order, sorting into a set, ASCII lower-casing, substring
  search and base 36.
- `Results`: `Option` and `Result`.

Everything the program takes from outside is a parameter:

- The clock: `now` for `new Date().toISOString()` and `millis` for `Date.now()`.
- The random id digits: `random`.
- The contents of the local JSON file: the `file` fields.
- The outcome of each write: `Outcome`, or `write`.
- The reachability of the NocoDB server and the rows and responses its HTTP
  API returns; a failed request is a transport error, distinct from "Record
  not found" and "not a function".

Two behaviours of the code are worth knowing:

- `update` does not protect `case_id` or `createdAt`: a patch that carries
  them overwrites them (src/UseCase.js:30).
- `getCategories` and `getTags` return the empty string when a record holds
  it; `update` with `category: ""` produces one (src/UseCase.js:30,
  src/UseCaseManager.js:143-150).

## Model

| member | source | states |
|---|---|---|
| UseCases.New | src/UseCase.js:2-23 | the key is the truthy `case_id`, else the truthy legacy `id`, else the generated id; with a non-empty clock every constructed record is well formed (no field holds a falsy value the constructor would replace) |
| UseCases.NewFields | src/UseCase.js:4-22 | every field but the key holds the input's value when it is truthy and of the field's type, and otherwise its default: "general", "active", "medium", "backlog", the clock, "", [], 5, or null for the grid |
| UseCases.GenerateId | src/UseCase.js:25-27 | a generated id is longer than three characters and starts with "uc_" |
| UseCases.ToJSON | src/UseCase.js:34-55 | exactly 18 pairs, the i-th pair is the i-th field under its own key, and there is no `id` key |
| UseCases.KeysComplete | src/UseCase.js:34-55 | the serialised keys list every field of the record exactly once |
| UseCases.KeyNamedName | src/UseCase.js:36-53 | each field's JSON key names that field and no other |
| UseCases.GetSerialised | src/UseCase.js:34-55 | reading any field's key from `toJSON(u)` gives that field's value |
| UseCases.FromJSON | src/UseCase.js:57-59 | `fromJSON` is the constructor; with a non-empty clock its result is well formed |
| UseCases.RoundTrip | src/UseCase.js:2-59 | `fromJSON(toJSON(u)) == u` if and only if `u` is well formed, whatever clock and random digits the second construction sees |
| UseCases.WellFormedRoundTrips | src/UseCase.js:2-59 | a well-formed record survives serialising and re-constructing |
| UseCases.IllFormedChanges | src/UseCase.js:2-59 | a record with a falsy key, category, status, priority, implementation status, timestamp, score or zero grid position does not survive: that field comes back defaulted |
| UseCases.WellFormedFieldSurvives | src/UseCase.js:4-22 | the constructor's defaulting rule leaves each field of a well-formed record as it is |
| UseCases.ConstructedRoundTrips | src/UseCase.js:2-59 | every record the constructor builds survives `fromJSON(toJSON(u))` with all 18 fields |
| UseCases.Update | src/UseCase.js:29-32 | `updatedAt` ends as the given time, even when the patch carries its own |
| UseCases.UpdateFields | src/UseCase.js:29-32 | every other field, `case_id` and `createdAt` included, takes the patch's value when the patch has one of the field's type, and keeps its own otherwise |
| Json.Assign | src/NocoDBStore.js:104 | after a spread merge every key of the update reads the update's value and every other key reads the original's |
| Json.GetMeaning | src/UseCase.js:3-22 | reading `data.k` gives undefined exactly when no pair has key `k`, and otherwise the value of the last pair with that key |
| Seqs.FirstIndex | src/UseCaseManager.js:119 | `findIndex`: the result is absent exactly when no element matches, and otherwise is a matching index with no match before it |
| Seqs.RemoveAt | src/UseCaseManager.js:121 | `splice(i, 1)` keeps the elements before `i` and shifts the ones after it down by one |
| Seqs.InsertAt | src/UseCaseManager.js:130 | `splice(i, 0, x)` puts `x` at `i` and shifts the rest up by one |
| Seqs.SpliceBack | src/UseCaseManager.js:121-130 | splicing an element out and back in at the same index gives back the original sequence |
| Text.LessIrreflexive | src/UseCaseManager.js:144 | the sort order never puts a string before itself |
| Text.LessTransitive | src/UseCaseManager.js:144 | the sort order is transitive |
| Text.LessTotal | src/UseCaseManager.js:144 | any two different strings are ordered one way or the other |
| Text.LessAsymmetric | src/UseCaseManager.js:144 | no two strings are each before the other |
| Text.Insert | src/UseCaseManager.js:143-144 | adding a string to a strictly ascending list keeps it strictly ascending and adds exactly that string |
| Text.SortDistinct | src/UseCaseManager.js:143-144 | `Array.from(new Set(s)).sort()` is strictly ascending and holds exactly the strings of `s` |
| Text.SortedUnique | src/UseCaseManager.js:143-144 | two strictly ascending lists with the same members are equal |
| Text.LowerIdempotent | src/UseCaseManager.js:81-85 | lower-casing an already lower-cased term or text changes nothing |
| Catalog.SearchIgnoresCase | src/UseCaseManager.js:80-87 | the search keeps the same records whatever the ASCII case of the term |
| Text.Contains | src/UseCaseManager.js:83-85 | `includes` holds exactly when the term occurs at some position |
| Text.DigitValue | src/UseCase.js:26 | each base-36 digit decodes to the value it encodes |
| Text.Base36RoundTrip | src/UseCase.js:26 | the clock written in base 36 parses back to the same number |
| UseCases.GeneratedIdsDiffer | src/UseCase.js:25-27 | ids generated with the same random digits at different milliseconds differ |
| Catalog.SelectIsSubsequence | src/UseCaseManager.js:53-90 | the query result keeps the order of the records it keeps |
| Catalog.SelectMembers | src/UseCaseManager.js:53-90 | the query keeps exactly the records that pass every active filter |
| Catalog.StagesMeaning | src/UseCaseManager.js:56-87 | a record passes the seven `if` stages exactly when it matches every truthy filter, AND-combined |
| Catalog.ChainIsSelect | src/UseCaseManager.js:53-90 | running the stages one after another equals one pass that keeps the records matching all filters |
| Catalog.SelectEverything | src/UseCaseManager.js:54-89 | when every record of the collection passes the active filters, the query returns the whole collection |
| Catalog.IndexOf | src/UseCaseManager.js:119 | the first index whose record has the key, or none exactly when no record has it |
| Catalog.CategoriesOf | src/UseCaseManager.js:143 | the mapped categories are exactly the categories of the records |
| Catalog.TagsOf | src/UseCaseManager.js:149 | the flattened tags are exactly the tags of all records |
| Catalog.TallyCounts | src/UseCaseManager.js:159-163 | each frequency table maps exactly the values present to the number of records holding them |
| Catalog.TotalRemove | src/UseCaseManager.js:159-163 | a table's total is any one entry's count plus the total of the rest |
| Catalog.TotalBump | src/UseCaseManager.js:160-162 | `table[k] = (table[k] \|\| 0) + 1` raises the table's total by one |
| Catalog.TallyTotal | src/UseCaseManager.js:153-171 | the counts of each frequency table add up to the number of records |
| Catalog.Serialize | src/UseCaseManager.js:24 | saving writes one object per record |
| Catalog.Revive | src/UseCaseManager.js:15 | loading builds one record per stored item |
| Catalog.SaveThenLoad | src/UseCaseManager.js:12-30 | loading what was saved gives back the catalog when its records are well formed |
| Catalog.UseCaseManager.constructor | src/UseCaseManager.js:6-10 | the backend is remote exactly when asked for, and the collection starts empty |
| Catalog.UseCaseManager.LoadUseCases | src/UseCaseManager.js:12-20 | a full replace: the collection becomes the revived backend data, and is empty when the backend throws |
| Catalog.UseCaseManager.SaveUseCases | src/UseCaseManager.js:22-30 | a successful local write stores every record's JSON; the answer is whether the write succeeded |
| Catalog.UseCaseManager.Create | src/UseCaseManager.js:32-51 | appends exactly the new record at the end; on a remote failure the collection and file are exactly as before and the error propagates |
| Catalog.UseCaseManager.GetAll | src/UseCaseManager.js:53-90 | an order-preserving subsequence holding exactly the records matching every truthy filter; with no filter, or when every record matches, the whole collection; conflicting `implementation` and `implementationStatus` give nothing |
| Catalog.UseCaseManager.GetById | src/UseCaseManager.js:92-94 | the first record with the key, or absent exactly when no record has it |
| Catalog.UseCaseManager.Update | src/UseCaseManager.js:96-116 | with no match: null, nothing changes; otherwise only the first match is replaced by its merge, and a remote failure propagates without rollback |
| Catalog.UseCaseManager.Delete | src/UseCaseManager.js:118-140 | with no match: null, nothing changes; otherwise the first match is removed and returned; on a remote failure it is back at its index and the collection is unchanged |
| Catalog.UseCaseManager.GetCategories | src/UseCaseManager.js:142-145 | strictly ascending, holding exactly the categories present |
| Catalog.UseCaseManager.GetTags | src/UseCaseManager.js:147-151 | strictly ascending, holding exactly the tags present, and equal to sorting the distinct flattened tags |
| Catalog.UseCaseManager.GetStats | src/UseCaseManager.js:153-171 | `total` is the number of records, each table is the frequency table of its field, and each table's counts add up to `total` |
| NocoDB.Render | src/NocoDBStore.js:41 | a set table id renders as itself |
| NocoDB.TableUrl | src/NocoDBStore.js:41 | the URL is the base URL, "/api/v2/tables/", the table id, then "/records" |
| NocoDB.FindRecord | src/NocoDBStore.js:102 | the first entry whose `case_id` or `id` is the key, or none exactly when no entry has it |
| NocoDB.Lookup | src/NocoDBStore.js:112-117 | "Record not found" exactly when no loaded row has the key as `case_id` or `id`; otherwise the first such row |
| NocoDB.MergeAt | src/NocoDBStore.js:104 | only the entry at the index changes; each of its keys reads the update's value where the update has the key, and its own otherwise |
| NocoDB.MergeKeepsMatch | src/NocoDBStore.js:102-104 | an update naming neither `case_id` nor `id` leaves the entry findable under the same key |
| NocoDB.NocoDBStore.constructor | src/NocoDBStore.js:5-22 | the corrected constructor (see ## Findings): as the code, the base URL defaults to "http://localhost:8080" and fallback is chosen exactly when the token or the table id is unset or empty; unlike line 12, fallback then holds a store instance |
| NocoDB.NocoDBStore.AsWritten | src/NocoDBStore.js:5-22 | the constructor as written: the same defaults and fallback decision, with the store class itself kept in fallback (line 12) |
| NocoDB.NocoDBStore.GetTableUrl | src/NocoDBStore.js:40-42 | the store's own table URL |
| NocoDB.NocoDBStore.EnsureTable | src/NocoDBStore.js:24-38 | in fallback: true, nothing changes; otherwise an unreachable server switches to a fresh local store for good and answers false |
| NocoDB.NocoDBStore.FallbackLoad | src/NocoDBStore.js:48 | the stored class has no `loadData` and throws; an instance reads the file, or nothing |
| NocoDB.NocoDBStore.LoadData | src/NocoDBStore.js:44-59 | fallback stays set once set; in fallback the fallback store's contents, otherwise the listed rows or nothing |
| NocoDB.NocoDBStore.CreateRecord | src/NocoDBStore.js:79-95 | in fallback the record is appended after every stored entry and the list saved; remotely the response or its error |
| NocoDB.NocoDBStore.UpdateRecord | src/NocoDBStore.js:97-130 | in fallback the first match is merged and the list saved, or false without saving; remotely "Record not found" when no row matches, else the response or its error |
| NocoDB.NocoDBStore.DeleteRecord | src/NocoDBStore.js:132-164 | in fallback the first match is spliced out and the list saved, or false without saving; remotely "Record not found" when no row matches, else the response or its error |
| NocoDB.UnconfiguredCreateFails | src/NocoDBStore.js:10-14 | as written, a store built without credentials fails every create with "not a function" |
| NocoDB.UnconfiguredCreateAppends | src/NocoDBStore.js:10-14 | with the fallback store instantiated, the same create appends to the local file |

## Left out

- Reading and writing files, HTTP requests, logging and `backup()` (src/UseCaseManager.js:173-175, src/NocoDBStore.js:166-186) are I/O. The file's contents, the success of each write, and the rows and responses of the NocoDB API are inputs.
- The PATCH and DELETE URLs built from a row's `Id` (src/NocoDBStore.js:121, 156) and the request headers are not modelled; the remote response is an input.
- `saveData` of the remote store (src/NocoDBStore.js:61-77) is not modelled. The catalog never calls it on the remote path.
- NocoDB.NocoDBStore.EnsureTable: the server's reachability is a parameter. In the code, the check only builds a string (src/NocoDBStore.js:29) and never fails, so the switch to fallback there does not happen in practice.
- The un-awaited load in the constructor of `UseCaseManager` is a separate call, `LoadUseCases`. Concurrent requests are not modelled; every operation runs to completion before the next starts.
- Catalog.UseCaseManager.Update: the record is replaced at its index. In the code it is mutated in place through an object that other references also see.
- Record fields are typed. An input value of the wrong JSON type counts as absent in the constructor and is not applied by `update`. Arrays hold strings only. Keys that are not fields (`id`, `Id`, other keys from the store) are not carried on records.
- Catalog.UseCaseManager.GetStats: frequency tables are maps. A value named like an inherited `Object.prototype` member (`constructor`, `toString`, `__proto__`) is counted here from zero. The code's `{}` reads the inherited member first.
- Text.Lower folds ASCII letters only; JavaScript's `toLowerCase` folds all of Unicode.
- Text.Less compares characters by code. JavaScript's default sort compares UTF-16 code units, which differs only for characters outside the Basic Multilingual Plane.
- The clock is read once per construction and once per load: `createdAt` and `updatedAt` of one record take the same `now`, and every item of one load shares `now` and `millis`. The code reads the clock separately for each (src/UseCase.js:11-12), so two defaulted timestamps can differ there.
- Numbers are reals. NaN, infinities and the string form of `Date.now()` beyond its base-36 digits are not modelled.

## Findings

| source | as written | input that shows it | evidently intended | confidence | as-written member | corrected member |
|---|---|---|---|---|---|---|
| src/NocoDBStore.js:12 | without a token or table id the constructor keeps `require('./DataStore')`, the class itself, as the fallback store, so `this.fallbackStore.loadData()` is not a function | `NOCODB_API_TOKEN` unset, then `createRecord(record)` (and so every `create` of the server's catalog, which is built on the NocoDB store) | keep an instance, `new (require('./DataStore'))()`, as `ensureTable` does at line 34 | high; not executed | NocoDB.UnconfiguredCreateFails | NocoDB.UnconfiguredCreateAppends |
