# MemStorage in Dafny

This project models the in-memory entity store of a small business dashboard.
The store is `MemStorage` in `storage.ts`, over the record shapes declared in `schema.ts`.
It holds five id-keyed tables: clients, projects, quotes, leads and portfolio items.
For each kind of record it offers:

- list: every record, in insertion order;
- get: the record for an id, or absent;
- create: the insert fields plus a fresh id and a creation time;
- update: a shallow merge onto the stored record, or absent for an unknown id;
- delete: whether a record was removed.

Projects add two things:

- a filter by owning client;
- a completion stamp: an update that sets the status to `"completed"` records the completion time, but only when none is recorded yet.

The dashboard query derives four figures from the tables: the client count, the active-project count, the sent-quote count and the revenue of projects completed since the start of the month.

Files:

- `wrappers.dfy`: `Option`.
- `list_ops.dfy` (`ListOps`): `Array.prototype.filter` and the summing `reduce`, with their laws.
- `tables.dfy` (`Tables`): a JavaScript `Map` as a key sequence in insertion order plus a `map`.
  - `Put` is `set`: an existing key keeps its place and a new key goes last.
  - `Remove` is `delete`.
  - `Values` is `Array.from(map.values())`.
  - The lemmas say how `get`, `size`, `values()` and filtered counts and sums move under `set` and `delete`.
- `schema.dfy` (`Schema`): the five records, the insert shapes (no `id` or `createdAt`, and for projects no `completedAt`) and the partial shapes, with the object-spread merges.
- `storage.dfy` (`Storage`):
  - the class `MemStorage`, whose five tables are fields, whose mutators are methods and whose readers are functions;
  - the completion stamp, the dashboard figures and how each mutation moves them;
  - the seed data;
  - the dashboard scenario: seed, add a project with budget 45000, then complete it this month.

Representation choices:

- `null` and a missing property are both `None`.
- In a partial shape, a nullable field is `Option<Option<T>>`, so a patch can set the field to `null`.
- Ids and clock readings come from the caller.
  - `create*` takes the id `randomUUID()` would have returned, and requires it to be unused in that table.
  - `create*` and `updateProject` take the time `new Date()` would have read, as an integer.
  - `GetDashboardStats` takes the first instant of the current month.

Where the code departs from what its declarations suggest, the model follows the code:

- The columns declare defaults, and the store never applies them. The defaults are client and project status `"active"`, urgency `"1.0"`, quote status `"pending"`, lead status `"new"` and featured `false` (`schema.ts:13`, `22`, `33`, `35`, `46`, `58`).
  - `MemStorage` spreads whatever it receives (`storage.ts:146-150`).
  - So a defaulted field is optional in the stored record too, and `Schema.NoDefaultsApplied` shows that the defaults are not stored.
- Nothing is validated. The allowed status and category values exist only as comments in `schema.ts`, and no operation checks them.
- The revenue filter has a lower bound and no upper bound: `completedAt >= thisMonth` (`storage.ts:318`).
  - A completion time later than the current month also counts.
  - Projects whose budget is `0` are dropped as well as those with no budget; either way they add nothing to the sum.
  - The model states exactly this filter (`Storage.EarnsRevenue`).

## Model

| member | source | states |
|---|---|---|
| Tables.Empty | storage.ts:57-61 | a new table is well formed, has no rows and lists no values |
| Tables.Get | storage.ts:141 | `map.get(k)`: the row stored under `k`, or absent when there is none |
| Tables.Size | storage.ts:310 | `map.size`: the number of stored rows |
| Tables.Put | storage.ts:151 | `map.set` keeps the table well formed: keys distinct and exactly the row keys |
| Tables.Remove | storage.ts:165 | `map.delete` keeps the table well formed |
| Tables.Values | storage.ts:137 | `Array.from(map.values())` lists one value per key, the i-th being the row of the i-th key in insertion order |
| Tables.ValuesMembers | storage.ts:137 | a value is listed if and only if some key maps to it |
| Tables.GetPut | storage.ts:151 | after `set(k, v)`, `get(k)` is `v` and every other key answers as before |
| Tables.GetRemove | storage.ts:165 | after `delete(k)`, `get(k)` is absent and every other key answers as before |
| Tables.PutRows | storage.ts:151 | the rows after `set(k, v)` are the old rows with `k` bound to `v` |
| Tables.SizePut | storage.ts:151 | `set` grows the size by one exactly when the key was new |
| Tables.SizeRemove | storage.ts:165 | `delete` shrinks the size by one exactly when the key was present |
| Tables.PutExistingKeepsKeys | storage.ts:160 | overwriting a present key keeps the key order and the key set |
| Tables.KeyedPut | storage.ts:151 | storing a record under its own id keeps every record stored under its own id |
| Tables.KeyedRemove | storage.ts:165 | deleting keeps every record stored under its own id |
| Tables.ValuesPutNew | storage.ts:151 | setting a new key appends its value at the end of `values()` |
| Tables.ValuesPutExisting | storage.ts:160 | overwriting a key replaces its value in place; every other position is kept |
| Tables.ValuesRemove | storage.ts:165 | deleting a key removes its value from its position; the others keep their order |
| Tables.SizeIsValuesLength | storage.ts:310 | `map.size` equals the length of `Array.from(map.values())` |
| Tables.FilterValuesCount | storage.ts:311 | the length of the filtered values is the number of keys whose record satisfies the predicate |
| Tables.Hit | storage.ts:311 | what the record stored under a key adds to a filtered count: 1 when it exists and passes, else 0 |
| Tables.Share | storage.ts:317-319 | what the record stored under a key adds to a filtered sum: its value when it exists and passes, else 0 |
| Tables.FilterCountPut | storage.ts:311 | after `set(k, v)` the filtered count loses the old record's hit and gains `v`'s |
| Tables.FilterCountPutExisting | storage.ts:311 | the same for a key already present |
| Tables.FilterCountRemove | storage.ts:311 | after `delete(k)` the filtered count loses the removed record's hit |
| Tables.FilterSumPut | storage.ts:317-319 | after `set(k, v)` the filtered sum loses the old record's share and gains `v`'s |
| Tables.FilterSumPutExisting | storage.ts:317-319 | the same for a key already present |
| Tables.FilterSumRemove | storage.ts:317-319 | after `delete(k)` the filtered sum loses the removed record's share |
| Tables.FilterValuesPutNew | storage.ts:178 | after setting a new key the filtered list is the old one, followed by `v` if it passes |
| ListOps.Filter | storage.ts:178 | `filter` never returns more elements than it is given |
| ListOps.FilterMembers | storage.ts:178 | `filter` keeps every element that passes, as often as it occurs, and nothing else |
| ListOps.FilterAppend | storage.ts:178 | `filter` keeps relative order: it distributes over concatenation |
| ListOps.FilterSingleton | storage.ts:178 | a one-element list passes the filter exactly when its element does |
| ListOps.Sum | storage.ts:319 | `reduce((sum, x) => sum + f(x), 0)`: a left fold from 0, the last element added last |
| ListOps.SumAppend | storage.ts:319 | the summing `reduce` of a concatenation is the sum of the parts |
| ListOps.SumSingleton | storage.ts:319 | the summing `reduce` of one element is that element's value |
| ListOps.FilterSpliceLength | storage.ts:311 | one element's contribution to a filtered count is one exactly when it passes |
| ListOps.FilterSpliceSum | storage.ts:317-319 | one element's contribution to a filtered sum is its value exactly when it passes |
| Schema.NewClient | storage.ts:146-150 | a created client carries the given id and time and exactly the insert fields |
| Schema.ClientFields | schema.ts:62-65 | the `Client` record (schema.ts:6-15) without `id` and `createdAt`, which is the `InsertClient` shape; `ClientPatch` has each of these fields optional |
| Schema.MergeClient | storage.ts:159 | the merged client keeps `id` and `createdAt` |
| Schema.NewProject | storage.ts:183-188 | a created project carries the id, the time and the insert fields, and `completedAt` is null whatever the status |
| Schema.ProjectFields | schema.ts:67-71 | the `Project` record (schema.ts:17-26) without `id`, `createdAt` and `completedAt`, which is the `InsertProject` shape; `ProjectPatch` has each of these fields optional |
| Schema.MergeProject | storage.ts:197 | the merged project keeps `id`, `createdAt` and `completedAt` |
| Schema.NewQuote | storage.ts:220-224 | a created quote carries the given id and time and exactly the insert fields |
| Schema.QuoteFields | schema.ts:73-76 | the `Quote` record (schema.ts:28-37) without `id` and `createdAt`, which is the `InsertQuote` shape; `QuotePatch` has each of these fields optional |
| Schema.MergeQuote | storage.ts:233 | the merged quote keeps `id` and `createdAt` |
| Schema.NewLead | storage.ts:253-257 | a created lead carries the given id and time and exactly the insert fields |
| Schema.LeadFields | schema.ts:78-81 | the `Lead` record (schema.ts:39-49) without `id` and `createdAt`, which is the `InsertLead` shape; `LeadPatch` has each of these fields optional |
| Schema.MergeLead | storage.ts:266 | the merged lead keeps `id` and `createdAt` |
| Schema.NewPortfolioItem | storage.ts:286-290 | a created item carries the given id and time and exactly the insert fields |
| Schema.PortfolioItemFields | schema.ts:83-86 | the `PortfolioItem` record (schema.ts:51-60) without `id` and `createdAt`, which is the `InsertPortfolioItem` shape; `PortfolioItemPatch` has each of these fields optional |
| Schema.MergePortfolioItem | storage.ts:299 | the merged item keeps `id` and `createdAt` |
| Schema.Spread | storage.ts:159 | one property of `{ ...was, ...given }`: the supplied value if any, else the stored one |
| Schema.SpreadDefaulted | storage.ts:159 | the same for a property with a declared default, which may be unset in the stored record |
| Schema.SpreadLaws | storage.ts:159 | in a spread a supplied property wins, an unsupplied one is kept, and spreading the same value twice changes nothing more |
| Schema.EmptyPatchesChangeNothing | storage.ts:159 | merging an empty partial record yields the stored record unchanged, for all five kinds |
| Schema.MergesAreIdempotent | storage.ts:159 | merging the same partial record twice equals merging it once, for all five kinds |
| Schema.RecordsRebuildFromFields | schema.ts:62-86 | a record is exactly its insert fields plus the store-assigned `id` and `createdAt`, and for a project `completedAt` |
| Schema.NoDefaultsApplied | schema.ts:13 | a status, urgency or featured flag left out of an insert is not stored with its declared default |
| Schema.LocationUpdateKeepsPhone | storage.ts:159 | updating only a client's location changes that field alone |
| Storage.UpdatedProject | storage.ts:197-200 | apart from `completedAt` the result is the shallow merge; `completedAt` changes if and only if the update sets status `"completed"` and none was recorded, and then it becomes `now` |
| Storage.CompletionIsNeverClearedOrRestamped | storage.ts:198-200 | a recorded completion time survives every later update |
| Storage.ReopenKeepsFirstCompletion | storage.ts:193-203 | completing, reopening and completing again keeps the first completion time |
| Storage.ByClientMembers | storage.ts:178 | the client filter holds exactly the stored projects carrying that client id |
| Storage.IsActive | storage.ts:311 | `p.status === "active"` |
| Storage.IsSent | storage.ts:312 | `q.status === "sent"` |
| Storage.OwnedBy | storage.ts:178 | `p.clientId === clientId` |
| Storage.EarnsRevenue | storage.ts:318 | a completion time is set and not before the month start, and the budget is set and nonzero; the current status plays no part |
| Storage.BudgetOrZero | storage.ts:319 | `p.budget || 0` |
| Storage.Contribution | storage.ts:317-319 | what one project adds to the revenue: its budget when it earns revenue, else 0 |
| Storage.MonthlyRevenue | storage.ts:317-319 | the `reduce` of budgets over the `filter` of earning projects |
| Storage.RevenueIsTotalContribution | storage.ts:317-319 | the filter-then-reduce revenue equals the plain sum of every project's contribution, an independent definition of the same figure |
| Storage.Stats | storage.ts:309-327 | the four figures: client map size, length of the active filter, length of the sent filter, monthly revenue |
| Storage.StatsAfterPutClient | storage.ts:310 | storing a client raises the client count by one exactly when its id is new and leaves the other figures |
| Storage.StatsAfterRemoveClient | storage.ts:310 | deleting a client lowers the client count by one exactly when it was present |
| Storage.StatsAfterPutProject | storage.ts:309-327 | storing a project moves only the active count and the revenue: the old record's active hit and revenue share are swapped for the new record's |
| Storage.StatsAfterRemoveProject | storage.ts:309-327 | deleting a project moves only the active count and the revenue, each losing the removed record's share |
| Storage.StatsAfterPutQuote | storage.ts:309-327 | storing a quote moves only the sent count: the old record's sent hit is swapped for the new record's |
| Storage.StatsAfterRemoveQuote | storage.ts:309-327 | deleting a quote moves only the sent count, which loses the removed record's hit |
| Storage.CreatedProjectEarnsNothing | storage.ts:181-191 | a newly created project adds no revenue, whatever its status |
| Storage.CompletionAddsBudget | storage.ts:317-319 | completing an unstamped project during the month adds exactly its budget to the revenue, nothing when the budget is null or zero |
| Storage.SampleProject1 | storage.ts:89-95 | the first sample project for the first client: active, budget 45000 (the two sample clients and the sample lead, storage.ts:70-86 and 116-123, are the constants `SampleClient1`, `SampleClient2` and `SampleLead`) |
| Storage.SampleProject2 | storage.ts:97-103 | the second sample project for the second client: pending, budget 30000 |
| Storage.SampleQuote | storage.ts:106-113 | the sample quote for the first client: two services, 27000 base and total, urgency `"1.0"`, status `"sent"` |
| Storage.SampleItem | storage.ts:126-132 | the sample portfolio item for the first client, featured |
| Storage.SeededClients | storage.ts:68-133 | the clients table after seeding: the two sample clients under their ids, in creation order |
| Storage.SeededProjects | storage.ts:68-133 | the projects table after seeding: the two sample projects under their ids, in creation order |
| Storage.SeededQuotes | storage.ts:68-133 | the quotes table after seeding: the sample quote under its id |
| Storage.SeededLeads | storage.ts:68-133 | the leads table after seeding: the sample lead under its id |
| Storage.SeededItems | storage.ts:68-133 | the portfolio table after seeding: the sample item under its id |
| Storage.SeededKeys | storage.ts:68-133 | the seed sequence leaves two clients, two projects, one quote, one lead and one portfolio item, under the ids handed out |
| Storage.SeededProjectFigures | storage.ts:89-103 | of the two seeded projects one is active and neither earns revenue |
| Storage.SeededSentCount | storage.ts:106-113 | the seeded quote counts as sent |
| Storage.SeededStats | storage.ts:68-133 | right after seeding the dashboard shows 2 clients, 1 active project, 1 sent quote and no revenue |
| Storage.MemStorage.constructor | storage.ts:63-66 | a new store is well formed, each table holds exactly the seeded records under the ids handed out, and the dashboard shows 2, 1, 1, 0 for every month start |
| Storage.MemStorage.InitializeSampleData | storage.ts:68-133 | the seed runs seven creates in order, each record under its fresh id |
| Storage.MemStorage.GetClients | storage.ts:136-138 | lists every stored client, one per id |
| Storage.MemStorage.GetClient | storage.ts:140-142 | present exactly for a stored id, and then the client with that id |
| Storage.MemStorage.CreateClient | storage.ts:144-153 | stores and returns the insert fields plus id and time; get returns it; the list gains it at the end; nothing else changes |
| Storage.MemStorage.UpdateClient | storage.ts:155-162 | an unknown id returns absent and changes nothing; otherwise stores and returns the merge, keeping the key set and every other entry |
| Storage.MemStorage.DeleteClient | storage.ts:164-166 | returns whether the id was present; afterwards get is absent and every other entry is kept |
| Storage.MemStorage.GetProjects | storage.ts:169-171 | lists every stored project, one per id |
| Storage.MemStorage.GetProject | storage.ts:173-175 | present exactly for a stored id, and then the project with that id |
| Storage.MemStorage.GetProjectsByClientId | storage.ts:177-179 | exactly the stored projects with that client id, one per id; empty when none match |
| Storage.MemStorage.CreateProject | storage.ts:181-191 | stores and returns the insert fields plus id, time and a null completion time; nothing else changes |
| Storage.MemStorage.UpdateProject | storage.ts:193-203 | an unknown id returns absent and changes nothing; otherwise stores and returns the merge with the completion stamp |
| Storage.MemStorage.DeleteProject | storage.ts:205-207 | returns whether the id was present; afterwards get is absent and every other entry is kept |
| Storage.MemStorage.GetQuotes | storage.ts:210-212 | lists every stored quote, one per id |
| Storage.MemStorage.GetQuote | storage.ts:214-216 | present exactly for a stored id, and then the quote with that id |
| Storage.MemStorage.CreateQuote | storage.ts:218-227 | stores and returns the insert fields plus id and time; nothing else changes |
| Storage.MemStorage.UpdateQuote | storage.ts:229-236 | an unknown id returns absent and changes nothing; otherwise stores and returns the merge |
| Storage.MemStorage.DeleteQuote | storage.ts:238-240 | returns whether the id was present; afterwards get is absent and every other entry is kept |
| Storage.MemStorage.GetLeads | storage.ts:243-245 | lists every stored lead, one per id |
| Storage.MemStorage.GetLead | storage.ts:247-249 | present exactly for a stored id, and then the lead with that id |
| Storage.MemStorage.CreateLead | storage.ts:251-260 | stores and returns the insert fields plus id and time; nothing else changes |
| Storage.MemStorage.UpdateLead | storage.ts:262-269 | an unknown id returns absent and changes nothing; otherwise stores and returns the merge |
| Storage.MemStorage.DeleteLead | storage.ts:271-273 | returns whether the id was present; afterwards get is absent and every other entry is kept |
| Storage.MemStorage.GetPortfolioItems | storage.ts:276-278 | lists every stored portfolio item, one per id |
| Storage.MemStorage.GetPortfolioItem | storage.ts:280-282 | present exactly for a stored id, and then the item with that id |
| Storage.MemStorage.CreatePortfolioItem | storage.ts:284-293 | stores and returns the insert fields plus id and time; nothing else changes |
| Storage.MemStorage.UpdatePortfolioItem | storage.ts:295-302 | an unknown id returns absent and changes nothing; otherwise stores and returns the merge |
| Storage.MemStorage.DeletePortfolioItem | storage.ts:304-306 | returns whether the id was present; afterwards get is absent and every other entry is kept |
| Storage.MemStorage.GetDashboardStats | storage.ts:309-327 | clients of any status; the number of projects whose status is `"active"`; the number of quotes whose status is `"sent"`; the filtered revenue sum, which equals the sum of every stored project's contribution |
| Storage.ScenarioProjectFacts | storage.ts:197-200 | the scenario project, whenever it was created, is not active and earns nothing until completed, then earns 45000 when completed during the month |
| Storage.NeutralProjectLeavesStats | storage.ts:311-319 | adding a project that is neither active nor earning leaves the dashboard unchanged |
| Storage.CompletingScenarioProject | storage.ts:317-319 | replacing a neutral project by one earning 45000 raises the revenue by 45000 and nothing else |
| Storage.ScenarioStats | storage.ts:309-327 | creating a pending project with budget 45000 at any time and completing it during the month adds 45000 to the revenue only |
| Storage.AddScenarioProject | storage.ts:181-191 | creating the pending scenario project under a fresh id adds it to the projects table, leaves the other four tables, and leaves the dashboard as it was for any month start |
| Storage.CompleteScenarioProject | storage.ts:193-203 | completing the scenario project during the month, whenever it was created, stores it with status `"completed"` and the completion stamp, leaves the other four tables, and raises the revenue by 45000 and nothing else |
| Storage.DashboardScenario | storage.ts:309-327 | a store seeded at one time, plus one project with budget 45000 created at another and completed during the month, shows 2 clients, 1 active project, 1 sent quote and 45000 revenue |

The create and delete contracts also give the remaining promises:

- A second delete of the same id returns `false`: after the first, the id is no longer stored.
- `getDashboardStats` changes no table: it is a function that only reads the store.

## Left out

- Promises and `async`: nothing suspends, so every operation is synchronous. The un-awaited seeding in the constructor is modelled as completing before the constructor returns.
- The module-level singleton `storage` (`storage.ts:330`): it is one call of the constructor.
- `randomUUID()` (`storage.ts:145`): replaced by a caller-supplied id that must be unused in that table. UUID generation and its collision resistance are not modelled.
- `new Date()` and the local-time computation of the month's first instant (`storage.ts:149`, `315-316`): these become the integer parameters `now` and `monthStart`.
- The drizzle table builders and `createInsertSchema` (`schema.ts:1-4`, `62-86`): only the resulting field shapes are modelled. The store never calls them, so no validation is modelled.
- Referential integrity between `clientId` fields and clients: the code has none, and neither does the model.
- A patch that carries a property explicitly set to `undefined` overwrites the stored value with `undefined`; a patch's absent field is modelled as "not supplied" only. Extra properties a caller might smuggle into a patch are not modelled either.
- Aliasing: `create*` and `update*` return the very object they store, `get*` and the list readers hand out the stored objects, and `createQuote` keeps the caller's `services` array through the spread. A caller that mutates a returned record or that array changes the store. Records here are values, so that sharing is not modelled.
- Storage.MemStorage.InitializeSampleData: the seed reads the clock once per create, seven times; the model passes one `now` to all seven creates, so every seeded `createdAt` is the same. The same holds for the constructor.
- JavaScript numbers are doubles; budgets and sums are unbounded integers here, so rounding of very large sums is not modelled.
- Storage.MemStorage.GetProjectsByClientId: its contract states membership and count; the relative order of the result is the definition of `ListOps.Filter`, whose order property is `ListOps.FilterAppend`.
- Storage.MemStorage.GetClients: its contract states length and membership; the insertion order is stated by `Tables.ValuesPutNew`, `Tables.ValuesPutExisting` and `Tables.ValuesRemove` and by the `GetClients() == old(GetClients()) + [c]` clause of the create methods (likewise for the other four list readers).
- App.tsx, the user interface, is not part of this model.
