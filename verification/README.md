# Verified model of the account data access and of the audit gate

Three parts of the repository are modelled here and proved correct in Dafny.

**Eager loading** (`backend/ent/account_query.go`, `account.go`). A query for accounts loads the
neighbours of up to six edges, each with one batched query whose rows are distributed over the node
objects; the queries of `parent` and `children` are account queries again. The model keeps the
mutable query builders, the mutable account objects, the Go maps and the loops. The database is an
environment of finite tables. The reference is `QueryModel.Forest`: for every selected row one tree,
in which the neighbours of each node are looked up for that node alone.

- `EagerLoading.All` returns objects that stand for exactly this forest, for every finite tree of
  edge queries and all tables, cyclic parent links included; it fails exactly when a query that gets
  sent has an invalid field, and sends at most one database query per node of the query tree.
- `EagerTheorems.RunsAgain`, `QueryClone.LoadClone`: a query object without groups can be run any
  number of times although each run narrows its edge queries; with groups, a clone can be run.
- `EagerTheorems.AllFields`: each field asked for is the decoded cell of its row; without a projection
  these are all fields.
- `NeighborTheorems`: projections do not change which neighbours are loaded, and the children lists
  together are a permutation of the rows that the batched query returned.

**The write path** (`account_create.go`, `account_update.go`, `accountgroup_create.go`, `mutation.go`).
Bulk create is a chain of mutators in which builder i's mutator, behind its hooks, calls builder i+1,
and the last one sends the only batch. `BulkChain.Run` is the chain over values; the builders, the
mutation objects and the slices that the chain fills are objects in `BulkCreate`, whose methods are
proved to do what `Run` says.

- The order of the steps, the nesting of the hooks, when there is a batch, and what is in it hold in
  every run, whatever the hooks do (`BulkTheorems`, `BulkCreate`).
- That the mutations marked done form a suffix of the builders, and only after a successful batch, is
  *not* true of the code for all hooks: a hook that calls next and drops its error breaks it
  (`DroppedErrorBreaksDone`). It holds exactly when no builder but the first conceals that its mutator
  failed or was not called (`DoneSuffix`), in particular when hooks do not drop errors (`HonestHooks`).
- That only mutations which pass the check are inserted is not true for all hooks either: the bulk
  checks the builder's own mutation, so that one which a hook substitutes for it gets in unchecked
  (`SubstituteIsNotChecked`). It holds exactly when the substituted mutations that reach a building
  builder pass the check themselves (`BuiltPassesCheck`). A single create has no such gap
  (`SingleCreate.InsertedIsChecked`).
- Unset fields get their own defaults, column by column (`DefaultsFill`), and nothing else changes; if a
  default function is missing, `DefaultsStop` says which fields were filled before.
- Reading the inserted row gives back the node that the create returned (`CreatedThenRead`).
- An update does what its builder's calls say, on every edge and column, exactly when no added id is
  overtaken by a later Clear, no key is left behind by a Clear of its edge, and the calls on a column do
  not contradict each other (`AccountUpdates.Update`). Adding an id and then clearing the edge leaves
  the id; clearing a plain column and then setting it leaves both changes in the update.

**The audit gate** (`tools/check_pnpm_audit_exceptions.py`): parser, index, scan and verdict.

- `AuditMeaning.ExitCodeMeans` says exactly when the exit code is 0, in terms of the texts of the
  exceptions and the members of the report (`AuditReports`); `AuditFindings.VerdictFinds` says what is
  reported otherwise.
- The order of the exceptions never matters (`ExceptionsAnyOrder`). The order of the entries can:
  exactly when some relevant entry does not fit the severity of its exception while every relevant key
  has an entry that does, and nothing else is wrong (`AuditOrder.OrderMatters`). `DedupMatters` says
  the same of the deduplication.
- A text with the lines of some records - indented, plain or quoted - between blank lines, comments and
  headings is parsed into these records (`AuditPrinter.ParseWritten`).
- The tool means to accept numbers as `source`, but a numeric source without a title raises an error
  (`NumericSourceRaises`).

## Files

`Common`, `AccountSchema`, `AccountEntity` (the entity, its scanning and assigning), `Relational`
(database), `QueryModel` (queries and naive meaning as values), `QueryBuilder`, `QueryClone` (builder
objects), `EdgeLoading`, `GroupLoading`, `EagerLoading` (the loaders), `ForestLemmas`, `EagerTheorems`,
`NeighborTheorems`; `AccountMutations` (defaults and check), `GroupLinks` (join rows), `CreateSpecs`,
`CreateReading`, `UpdateEdges`, `UpdateFields`, `AccountUpdates`, `BulkChain`, `BulkTheorems`,
`BulkCreate`, `SingleCreate`; `AuditText`, `AuditParser`, `AuditPrinter` (written lists read back),
`AuditEntries`, `AuditReports` (what a report names), `AuditGate`, `AuditTheorems`, `AuditMeaning` (the
verdict in terms of the inputs), `AuditFindings`, `AuditOrder`.

What is assumed of the database is written as predicates: `Relational.WellFormed` (primary keys are
unique, every cell holds a value of its column's kind, the id is the first column of groups),
`Relational.Select` (a query returns the rows that satisfy its predicates, in table order),
`GroupLoading.IsJoin` (the joined groups query returns exactly the linked pairs, each any number of
times, groups in the query's order), `BulkCreate.BatchDriver` (a batch fails, or gives out ids), and
`UpdateEdges.Executed` and `UpdateFields.FieldSaved` (what an update does to edges and columns).

## Model

| member | source | states |
|---|---|---|
| EagerLoading.All | backend/ent/account_query.go:307-314 | for every query tree and all tables: fails exactly when `Fails` says, otherwise the objects stand for the naive forest; at most `Size` database queries; the builders are left narrowed as `AfterRun` says |
| EagerLoading.SqlAll | backend/ent/account_query.go:550-626 | the same for a query whose fields are valid: one query for the nodes, then the six loaders |
| EagerLoading.LoadEdges | backend/ent/account_query.go:581-624 | after the six loaders every node holds, for each requested edge, the answer to a lookup of that node alone |
| EagerLoading.LoadParent | backend/ent/account_query.go:720-751 | every node, repeats of one foreign key included, gets the tree of its parent or stays nil; no query without keys |
| EagerLoading.LoadChildren | backend/ent/account_query.go:752-784 | every node gets the trees of its own children in query order; the error branches are not reached |
| EagerLoading.DistributeParents | backend/ent/account_query.go:741-750 | each neighbour reaches exactly the nodes that name it; the error branch is unreachable when the database honours the predicate |
| EagerLoading.DistributeChildren | backend/ent/account_query.go:772-783 | each neighbour is appended to the one node that its foreign key names; neither error branch is reached |
| EdgeLoading.IndexForeignKeys | backend/ent/account_query.go:688-703 | the ids to query are duplicate-free and are exactly the keys of the index, which lists for each key all nodes that name it |
| EdgeLoading.LoadProxy | backend/ent/account_query.go:688-719 | every node gets the proxy row of its foreign key, or none |
| EdgeLoading.LoadUsageLogs | backend/ent/account_query.go:785-814 | every node gets its own usage logs, in query order |
| EdgeLoading.LoadAccountGroups | backend/ent/account_query.go:815-844 | every node gets its own join rows, in query order |
| EdgeLoading.OwnedShare | backend/ent/account_query.go:785-844 | the part of a batched result that names one account is the result of the lookup for that account |
| EdgeLoading.ProxyShare | backend/ent/account_query.go:688-719 | the row of a batched result with the wanted id is the result of the lookup for that id |
| EdgeLoading.ProjectKeeps | backend/ent/account_query.go:688-844 | a row of another table keeps every cell that its query asks for |
| ForestLemmas.ChildShare | backend/ent/account_query.go:762-784 | the children of one account inside the batched forest are the naive forest of that account's children |
| ForestLemmas.ParentShare | backend/ent/account_query.go:736-751 | the parent of one foreign key inside the batched forest is the naive lookup of that key |
| ForestLemmas.SelectedKeys | backend/ent/account_query.go:866-880 | the selected columns start with the id and contain the selected fields and the foreign keys that the requested edges need |
| ForestLemmas.SelectedAre | backend/ent/account_query.go:858-880 | the selected columns are every column of the table without a projection, and otherwise exactly the selected fields, the id and the foreign keys of requested edges |
| GroupLoading.LoadGroups | backend/ent/account_query.go:627-687 | every account gets exactly the linked groups that pass the group predicates, once each, in neighbour order, for any map order and any repeats of join rows |
| GroupLoading.LeadingColumn | backend/ent/account_query.go:652-671 | with the extra column in front, position 0 of the scanned values is the account id, position 1 is the group id because the id is the first column of every group query, and the rest is what the group's own callbacks get without it |
| GroupLoading.ScanJoin | backend/ent/account_query.go:652-671 | reading those two positions, the callback keeps each group at its first row and indexes the set of accounts that any of its rows names |
| GroupLoading.DistributeGroups | backend/ent/account_query.go:677-686 | each node receives the groups paired with it, in neighbour order, whatever order the sets are ranged over |
| GroupLoading.GroupLookup | backend/ent/account_query.go:627-687 | one account's share of any answer to the joined query is the naive lookup of its linked groups |
| GroupLoading.NestedLoopIsJoin | backend/ent/account_query.go:641-651 | the nested-loop join meets the contract assumed of the joined query |
| EagerTheorems.RunAgain | backend/ent/account_query.go:704-767 | the builders that a run leaves behind mean the same forest, although each edge query was narrowed |
| EagerTheorems.FailsAgain | backend/ent/account_query.go:524-548 | the second run fails exactly when the first one does |
| EagerTheorems.RunsAgain | backend/ent/account_query.go:44-47 | any number of runs of one query object without groups gives the same outcome |
| EagerTheorems.LoadTwice | backend/ent/account_query.go:550-626 | two actual runs of one query object over unchanged tables return objects for the same forest |
| EagerTheorems.Access | backend/ent/account.go:111-138 | on a loaded node the accessors give the naive lookup of that node, NotFound for an absent neighbour, and NotLoaded only for edges that were not requested |
| EagerTheorems.AccessLists | backend/ent/account.go:142-166 | the same for children, usage logs and join rows: the lookups of that node, or NotLoaded exactly for edges that were not requested |
| EagerTheorems.NodeFields | backend/ent/account_query.go:858-880 | each field that the query asks for - all without a projection, else the selected ones and the id - holds the decoded cell of the row; the others are zero, but for foreign keys |
| EagerTheorems.AllFields | backend/ent/account_query.go:307-314 | the same of every object that a query returns, row by row |
| QueryClone.Clone | backend/ent/account_query.go:388-408 | the clone stands for the same query tree and shares no builder with the original |
| QueryClone.LoadClone | backend/ent/account_query.go:386-408 | running a clone gives the forest of the query and leaves the original unchanged, groups included |
| NeighborTheorems.ForestShape | backend/ent/account_query.go:858-880 | for any selected fields, every loaded edge at every level holds the same neighbour ids as without a projection |
| NeighborTheorems.ChildrenConserved | backend/ent/account_query.go:752-784 | over accounts with different ids, the children lists together are a permutation of the batched result |
| NeighborTheorems.SharesAll | backend/ent/account_query.go:752-844 | distributing any elements by key loses and duplicates none when all keys are listed once |
| AccountEntity.AssignOneScanned | backend/ent/account.go:193-417 | a container allocated for a column and filled by the driver is never rejected, and the field becomes the decoded value |
| AccountEntity.ColumnCallbacksAgree | backend/ent/account.go:168-417 | for any column sequence assignValues succeeds on what scanValues allocated; selected fields hold the row's values, the others stay zero |
| AccountEntity.MismatchRejected | backend/ent/account.go:193-417 | a container of any other kind is rejected, so both switches cover the same columns with the same kinds |
| AccountEntity.Account.ScanValues | backend/ent/account.go:168-190 | one container per column, of the column's kind |
| AccountEntity.Account.AssignValues | backend/ent/account.go:193-417 | the fields and the error are those of assigning column by column up to the first error |
| AccountEntity.Account.ProxyOrErr | backend/ent/account.go:120-127 | the proxy if there is one; else NotFound if the edge was loaded, NotLoaded if not |
| AccountEntity.Account.ParentOrErr | backend/ent/account.go:131-138 | the parent if there is one; else NotFound if the edge was loaded, NotLoaded if not |
| AccountMutations.CheckPasses | backend/ent/account_create.go:588-662 | check passes exactly when every required field is set and every validator accepts |
| AccountMutations.RequiredFields | backend/ent/account_create.go:588-662 | required are exactly the columns that the entity does not hold by pointer, but for the id; all of them but name, platform and type have a default |
| AccountMutations.CheckValidates | backend/ent/account_create.go:588-662 | what passes the check has name, platform, type, status and quota_dimension, each accepted by its own validator, the last one "global" or "spark", and a session window status that is accepted if it is set |
| AccountMutations.CheckRejects | backend/ent/account_create.go:588-662 | and the check passes whatever satisfies this and has the other required fields |
| AccountMutations.CheckNamesFirst | backend/ent/account_create.go:588-662 | the error of check names the first column of the table that is missing or not accepted, and says which of both it is |
| AccountMutations.WrittenIsAll | backend/ent/mutation.go:2390-2446 | two mutations with the same value for every column and the same edges are equal |
| AccountMutations.DefaultsFailThenCheckFails | backend/ent/account_create.go:527-662 | if defaults fails, check fails on the mutation it leaves |
| AccountMutations.DefaultsIdempotent | backend/ent/account_create.go:527-585 | after a successful defaults, a later one succeeds and changes nothing, whatever the defaults are by then |
| AccountMutations.DefaultsComplete | backend/ent/account_create.go:527-662 | after a successful defaults, check never misses a defaulted field |
| AccountMutations.DefaultsOnly | backend/ent/account_create.go:527-585 | fields without a default, and all edges, are left as they were |
| AccountMutations.DefaultsKeep | backend/ent/account_create.go:527-585 | a field that was set is not overwritten |
| AccountMutations.DefaultsFill | backend/ent/account_create.go:527-585 | after a successful defaults every column holds the value that was set, or else its own default, a value listed column by column |
| AccountMutations.DefaultsStop | backend/ent/account_create.go:527-585 | if a default function is missing, exactly the unset columns before it are filled, with their defaults |
| AccountMutations.FirstMissing | backend/ent/account_create.go:527-556 | the missing default is the first of created_at, updated_at, credentials and extra that is unset and has no function |
| BulkCreate.AccountCreate.Defaults | backend/ent/account_create.go:527-585 | the field-by-field method ends in the filled mutation, or stops at the first missing default with the earlier ones filled; column by column, unset fields get their own default |
| CreateSpecs.CreateSpec | backend/ent/account_create.go:682-891 | the spec has exactly the fields that are set and, in order, one edge for each edge with ids, listing those ids once each in any order; the node has the same values |
| CreateReading.EdgeOfKind | backend/ent/account_create.go:804-889 | the spec has an edge of a kind exactly when the mutation has ids for it, and it lists those ids |
| CreateReading.EdgesOfSpec | backend/ent/account_create.go:804-889 | each kind of edge of the spec lists the ids of that edge in the mutation; the groups edge gives its join rows their defaults |
| CreateReading.CreateThenRead | backend/ent/account_create.go:682-857 | for every mutation and an invertible JSON codec, scanning and assigning the stored row rebuilds the returned node, with the generated id |
| BulkTheorems.StepOrder | backend/ent/account_create.go:2104-2151 | in every run builders are built in order up to some k, then builder k fails its check, or the batch of all is sent, or a hook stopped the run; then mutations are marked done in the opposite order |
| BulkTheorems.BatchesInRun | backend/ent/account_create.go:2119-2129 | the batch is sent once if every builder's mutator is reached and passes, and otherwise never |
| BulkTheorems.FailedCheckStops | backend/ent/account_create.go:2111-2113 | after a failed check of builder k there is no batch and nothing of a later builder ran, hooks included |
| BulkTheorems.HooksNested | backend/ent/account_create.go:2140-2143 | the hooks entered are a prefix of the order builder by builder, outermost first, each inside the one before, and all are left in the opposite order |
| BulkTheorems.ErrorOfRun | backend/ent/account_create.go:2106-2151 | the error of a run is what the hooks make of each mutator's error, builder by builder |
| BulkTheorems.PlainRun | backend/ent/account_create.go:2119-2132 | without hooks, a failed batch of checked builders gives a constraint error exactly when the database reports one, and the error itself otherwise |
| BulkTheorems.OneHook | backend/ent/account_create.go:2106-2143 | for one builder and one hook, case by case: rejecting or answering it inserts nothing; forwarding it inserts the mutation as edited; substituting inserts the other one; a foreign mutation is the type error |
| BulkTheorems.EditsReach | backend/ent/account_create.go:2140-2143 | through hooks that forward, the builder is reached by its own mutation with all their edits applied, outermost first |
| BulkTheorems.DoneInRun | backend/ent/account_create.go:2133-2138 | a mutation is marked done exactly when all builders up to it were built and what it called returned no error |
| BulkTheorems.DoneSuffix | backend/ent/account_create.go:2106-2150 | the done mutations are a suffix of the builders, and there are none without a successful batch, exactly when no builder but the first conceals a failure |
| BulkTheorems.SuccessMeansCreated | backend/ent/account_create.go:2146-2151 | a bulk that reports success sent one successful batch and marked everything done exactly when no builder concealed a failure |
| BulkTheorems.HonestHooks | backend/ent/account_create.go:2140-2142 | builders whose hooks always call next or fail, and drop no error, conceal nothing |
| BulkTheorems.DroppedErrorBreaksDone | backend/ent/account_create.go:2120-2138 | with one hook that drops the batch's error, a bulk reports success and marks a mutation done although nothing was inserted |
| BulkTheorems.BuiltInRun | backend/ent/account_create.go:2106-2117 | a builder's node and spec are built, and from m, exactly when all builders up to it build and m is the mutation that reaches it through its hooks |
| BulkTheorems.BuiltPassesCheck | backend/ent/account_create.go:2111-2117 | only mutations that pass the check are built exactly when every mutation that reaches a building builder in place of its own passes it: a condition on the mutations and on what hooks do before next |
| BulkTheorems.NothingUnchecked | backend/ent/account_create.go:2111-2117 | a builder whose hooks substitute nothing is built from its own, checked mutation |
| BulkCreate.SubstituteIsNotChecked | backend/ent/account_create.go:2111-2117 | for any account mutation that passes the check and any that fails it, a hook that substitutes the second gets it inserted and marked done |
| BulkCreate.SubstituteExample | backend/ent/account_create.go:588-662 | concrete mutations of both kinds: one with name, platform and type after defaults, and one with nothing set |
| BulkCreate.BulkRun.Mutate | backend/ent/account_create.go:2106-2143 | the chain on objects logs and returns what `Run` says; slots, done flags, ids and the batch agree with the log; earlier builders' slots are untouched |
| BulkCreate.BulkRun.CallHook | backend/ent/account_create.go:2140-2142 | the same for one hook around the next mutator |
| BulkCreate.BulkRun.Create | backend/ent/account_create.go:2106-2139 | the same for a builder's own mutator: check, take over the mutation, fill the slots, go on, mark done |
| BulkCreate.BulkRun.BatchCreate | backend/ent/account_create.go:2122-2130 | may be called only when every spec is filled; hands all specs to the database and stores the ids it gives |
| BulkCreate.AccountCreateBulk.Save | backend/ent/account_create.go:2095-2152 | for distinct builders: a recorded error changes nothing; otherwise the run is `Whole` of the builders after defaults, the batch got fitting specs, the nodes fit and show the generated ids, and the mutations are done as logged |
| BulkCreate.BuiltWithDefaults | backend/ent/account_create.go:2104-2117 | a builder without hooks is built from its mutation with each unset column at its own default |
| BulkCreate.RowsAreComplete | backend/ent/account_create.go:2105-2117 | whatever the hooks do, all rows of the batch have every required field, accepted by its validator, exactly when those that reach their builder unchecked do |
| BulkCreate.DiscardedErrorStopsBatch | backend/ent/account_create.go:2104-2113 | if one builder's defaults failed and its hooks do not touch the mutation, there is no batch and nothing from that builder on is marked done |
| BulkCreate.CreatedThenRead | backend/ent/account_create.go:2095-2152 | the row of each spec of a successful bulk reads back as the returned node |
| SingleCreate.InsertedIsChecked | backend/ent/ent.go:568-599 | in a single create, unlike the bulk, what is inserted has passed the check whatever the hooks substitute; done exactly when the insert succeeded |
| SingleCreate.InsertedReaches | backend/ent/ent.go:568-599 | a mutation is inserted exactly when it is the one that reaches the builder through the hooks and it passes the check |
| SingleCreate.HonestSuccess | backend/ent/ent.go:568-599 | with hooks that always call next or fail, and drop no error, success means that the row was inserted |
| SingleCreate.SqlSave | backend/ent/account_create.go:664-680 | checks, inserts the spec of the mutation, and marks it done with the node that shows the generated id |
| SingleCreate.WithHooks | backend/ent/ent.go:568-599 | the hooks around sqlSave log and return what `RunOne` says, and what was inserted is the mutation that reached it |
| SingleCreate.Save | backend/ent/account_create.go:497-502 | reports the error of defaults and then runs nothing; otherwise the run is that of the filled mutation, and without hooks the inserted values are those set or else the defaults |
| GroupLinks.AccountGroupCreate.Defaults | backend/ent/accountgroup_create.go:111-120 | unset priority and created_at are filled, nothing else changes |
| GroupLinks.AccountGroupCreate.CreateSpec | backend/ent/accountgroup_create.go:159-208 | spec and node have exactly the values that are set |
| GroupLinks.JoinRowFields | backend/ent/account_create.go:818-821 | the fields given to the join rows of a groups edge are both defaults, from a builder that its own check would reject |
| GroupLinks.LinkDefaultsComplete | backend/ent/accountgroup_create.go:111-143 | after defaults, check fails only for a missing end |
| GroupLinks.LinksAreComplete | backend/ent/accountgroup_create.go:419-471 | a join row that the bulk chain builds has both ends and both fields exactly when the mutation that reaches its builder unchecked, if any, has them |
| UpdateEdges.EdgeChanges.Add | backend/ent/mutation.go:3986-3993 | adds the ids |
| UpdateEdges.EdgeChanges.Remove | backend/ent/mutation.go:4006-4014 | takes the ids out of the added ones and records them as removed |
| UpdateEdges.SavedIsMeaning | backend/ent/mutation.go:3986-4031 | what is saved is what the calls say, in order, plus exactly the overtaken ids |
| UpdateEdges.UpdateFaithful | backend/ent/mutation.go:3986-4031 | so both agree, for any old neighbours, exactly when no id is overtaken |
| UpdateEdges.OvertakenAt | backend/ent/mutation.go:3996-3998 | an id is overtaken exactly when a Clear finds it added and no later call mentions it |
| UpdateEdges.ClearAfterAdd | backend/ent/mutation.go:3986-3998 | Add then Clear: the calls say empty, the added id is saved |
| UpdateEdges.KeyFaithful | backend/ent/mutation.go:4039-4058 | a many-to-one edge is saved as its last call says, except when that clears the edge while a key is recorded |
| UpdateEdges.ClearEdgeAfterSet | backend/ent/mutation.go:4039-4058 | Set then Clear of the edge: the calls say none, the key is saved |
| UpdateFields.RecordedShape | backend/ent/mutation.go:2704-2738 | which of value, amount and clear a mutation holds for a column after any calls |
| UpdateFields.FieldFaithful | backend/ent/mutation.go:3071-3139 | a column is named once in the update, and saved as its calls say, exactly when the calls do not contradict each other: a plain column last set after a clear, or a numeric one last added to after a set or clear |
| UpdateFields.SetAfterClear | backend/ent/mutation.go:2704-2738 | Clear then Set of a plain column leave both in the update; of a numeric column only the Set, which resets it |
| UpdateFields.AddedSum | backend/ent/mutation.go:3104-3110 | adding several integers records their sum, which the update adds to the old value, a null one counting as 0 |
| UpdateFields.AddedSumOf | backend/ent/mutation.go:3230-3236 | the same for real numbers |
| UpdateFields.UpdateColumnsAre | backend/ent/account_update.go:805-948 | an update looks at every column but the id, created_at and the two foreign keys |
| UpdateFields.OfferedCallsAre | backend/ent/account_update.go:805-948 | it can clear exactly the columns that the entity holds by pointer, and add to exactly the numbers |
| UpdateFields.FieldChanges.EmitFields | backend/ent/account_update.go:805-948 | the statements emit, column by column in order, the recorded value, amount and clear of each updatable column |
| UpdateFields.ChangeOfColumn | backend/ent/account_update.go:805-948 | the emitted lists change each column of an update as recorded, and no other |
| AccountUpdates.AccountUpdate.Edges | backend/ent/account_update.go:949-1153 | for each edge: a clear of all if cleared, else of the removed ids if any; an add of the added ids if any; ids listed once each in any order |
| AccountUpdates.AccountUpdateOne.Edges | backend/ent/account_update.go:2119-2323 | the same for the update of one row |
| AccountUpdates.AccountUpdateOne.SelectColumns | backend/ent/account_update.go:1956-1967 | an invalid selected column is an error; otherwise the columns to return are all without a selection, else exactly the selected ones and the id, which comes first |
| AccountUpdates.ReturnedFields | backend/ent/account_update.go:1956-1967 | each field of the returned account that was asked for is the decoded cell of its row |
| AccountUpdates.EmittedFields | backend/ent/account_update.go:805-948 | every column but the id, created_at and the foreign keys is changed as the mutation says, and these are not |
| AccountUpdates.AccountUpdateOne.Spec | backend/ent/account_update.go:1946-2323 | fails exactly without an id or with an invalid selected field; otherwise changes every updatable column as the mutation says and no other, emits its edges, and names the columns asked for |
| AccountUpdates.SameChanges | backend/ent/account_update.go:805-1153 | the specs of both updates for one mutation change the same fields, and the same neighbours over every edge |
| AccountUpdates.UpdateMutation.DoAll | backend/ent/account_update.go:33-711 | after any calls of the builder the mutation holds, for each column and edge, what the calls on it record |
| AccountUpdates.Update | backend/ent/account_update.go:33-1153 | from the calls to the database: on every edge, and on every column but the id, created_at and the foreign keys, the executed update has the effect of the calls exactly when no id is overtaken, no key is left behind, and no calls contradict each other |
| UpdateEdges.ExecutedIsSaved | backend/ent/account_update.go:2119-2323 | executing the emitted clears, then adds, turns the old neighbours into (none if cleared, else old minus removed) plus added; an edge to one is replaced |
| UpdateEdges.JoinsOfAdded | backend/ent/account_update.go:985-1005 | ids are added to an edge in one entry; only that of groups carries join fields, both defaults |
| UpdateEdges.ManyCallsExecuted | backend/ent/account_update.go:949-1153 | edges emitted for the calls on an edge to many have their effect exactly when none is overtaken |
| UpdateEdges.KeyCallsExecuted | backend/ent/account_update.go:1006-1063 | the same for an edge to one |
| AuditText.StripOf | tools/check_pnpm_audit_exceptions.py:15-29 | strip takes off all surrounding whitespace and nothing else |
| AuditText.StripShape | tools/check_pnpm_audit_exceptions.py:15-29 | every string is its stripped form between whitespace |
| AuditText.UnquoteIs | tools/check_pnpm_audit_exceptions.py:15-19 | a text that begins and ends with the same quote, single or double, loses both; any other stays as it is |
| AuditText.SplitIs | tools/check_pnpm_audit_exceptions.py:12-20 | the key is stripped; the value is the rest after the first colon, stripped and without its quotes, if it has both |
| AuditText.LinesOfUnlines | tools/check_pnpm_audit_exceptions.py:27-28 | lines without line breaks, written out and read, come back |
| AuditParser.ParseExceptions | tools/check_pnpm_audit_exceptions.py:23-48 | the loop computes the fold of the line steps, or stops at the first error |
| AuditParser.IgnoredAre | tools/check_pnpm_audit_exceptions.py:29-33 | ignored are empty lines and those that begin with #, version: or exceptions: |
| AuditPrinter.SplitPrinted | tools/check_pnpm_audit_exceptions.py:12-20 | split_kv reads a written field back - plain, in single or in double quotes - for a trimmed key without a colon |
| AuditPrinter.PlainReadBack | tools/check_pnpm_audit_exceptions.py:12-20 | a value without quotes is read back exactly when it has no spaces around it and is not between quotes itself |
| AuditPrinter.ParseWritten | tools/check_pnpm_audit_exceptions.py:23-48 | any text whose lines are those of some records and otherwise ignored ones is parsed into these records |
| AuditPrinter.ParsePrinted | tools/check_pnpm_audit_exceptions.py:23-48 | parsing the printed form of any list of nonempty records, each field in its own style and indentation, gives the list back |
| AuditPrinter.RecordHolds | tools/check_pnpm_audit_exceptions.py:43-45 | with different keys, the record holds each field as written |
| AuditParser.FailsOnBroken | tools/check_pnpm_audit_exceptions.py:28-45 | the parser raises exactly when some "- " line has no colon after the dash |
| AuditParser.IgnoredAnywhere | tools/check_pnpm_audit_exceptions.py:29-33 | blank lines, comments and headings can stand anywhere without effect |
| AuditEntries.IterVulns | tools/check_pnpm_audit_exceptions.py:64-111 | the loops yield the entries of both report formats in order, up to the error that ends them, if one does |
| AuditEntries.ReadVia | tools/check_pnpm_audit_exceptions.py:84-108 | the two lists hold, for each item of via that is an object or a string, its advisory and its title |
| AuditReports.VulnsAre | tools/check_pnpm_audit_exceptions.py:64-111 | which reports raise, and which entries the others yield: for each advisory and each via item in terms of its members; a report that raises yields only such entries |
| AuditReports.VulnsInOrder | tools/check_pnpm_audit_exceptions.py:64-111 | the entries are, in order, one for each advisory and then those of each vulnerability |
| AuditReports.AdvisoryDescribed | tools/check_pnpm_audit_exceptions.py:68-78 | the entry of an advisory has its severity and the first truthy of the listed members as name, id and title; only one that is no object or has unreadable cves raises |
| AuditReports.PickedIs | tools/check_pnpm_audit_exceptions.py:51-61 | the id is the first truthy of github_advisory_id, url, first cve, id as text, title, advisory and overview |
| AuditReports.ItemIs | tools/check_pnpm_audit_exceptions.py:87-108 | what a via item names, and its title, is the first truthy of the listed members of an object, or the string itself |
| AuditReports.LookupIs | tools/check_pnpm_audit_exceptions.py:51-61 | get is the value of the member with that key, and None without one |
| AuditReports.NumericSourceRaises | tools/check_pnpm_audit_exceptions.py:91-109 | a numeric source without a title raises when the titles are joined |
| AuditGate.BuildIndex | tools/check_pnpm_audit_exceptions.py:153-185 | the index and the errors of the exceptions, in order |
| AuditGate.IndexIsClean | tools/check_pnpm_audit_exceptions.py:156-185 | no errors exactly when all exceptions are well formed with different keys; the index then maps each key to its exception |
| AuditGate.ScanEntries | tools/check_pnpm_audit_exceptions.py:187-219 | the deduplicating scan: findings in order, or an error on a severity that is no string |
| AuditGate.RunMain | tools/check_pnpm_audit_exceptions.py:148-243 | parse, index, read, scan and verdict put together |
| AuditTheorems.ScanIsClean | tools/check_pnpm_audit_exceptions.py:192-219 | no findings exactly when every relevant entry is covered and the first entry of each key has a fitting severity |
| AuditTheorems.VerdictMeans | tools/check_pnpm_audit_exceptions.py:156-243 | exit code 0 exactly when the exceptions are well formed with different keys, every relevant entry has an advisory and an unexpired exception, and first severities fit |
| AuditTheorems.ProgramMeans | tools/check_pnpm_audit_exceptions.py:142-247 | the same for the whole program, with the lists that do not parse and the reports that raise; the entries are those of the report, in its order |
| AuditMeaning.GateMeans | tools/check_pnpm_audit_exceptions.py:156-243 | the same without the gate's own keys and normal forms: all exceptions are complete and for different vulnerabilities, every high or critical entry has an advisory and an exception in time for its package and advisory up to letter case, and the first entry on each vulnerability has the severity that its exceptions name, if any |
| AuditMeaning.ExitCodeMeans | tools/check_pnpm_audit_exceptions.py:142-247 | the same for the whole program, from the two texts to the exit code |
| AuditMeaning.HighWithoutException | tools/check_pnpm_audit_exceptions.py:142-243 | a report whose only advisory is high gives exit code 1 without an exception |
| AuditMeaning.CompleteIs | tools/check_pnpm_audit_exceptions.py:157-174 | well formed means all five fields, a valid date, and a package and an advisory that are not blank |
| AuditMeaning.RelevantIs | tools/check_pnpm_audit_exceptions.py:194-196 | relevant means a name and a severity that is high or critical in any letter case |
| AuditMeaning.KeysAre | tools/check_pnpm_audit_exceptions.py:197-203 | keys are equal exactly for the same package and, up to letter case, the same advisory |
| AuditMeaning.SeverityIs | tools/check_pnpm_audit_exceptions.py:211 | an exception's severity fits when it is blank or the entry's, up to letter case |
| AuditMeaning.LowerFolds | tools/check_pnpm_audit_exceptions.py:114-131 | lower-casing makes exactly the texts equal that differ only in letter case |
| AuditFindings.VerdictFinds | tools/check_pnpm_audit_exceptions.py:153-243 | which findings the gate reports: the first fault of each exception, and for each entry a missing advisory, or, if it is the first of its key, no exception, another severity or an expired one |
| AuditFindings.IndexFinds | tools/check_pnpm_audit_exceptions.py:156-185 | the index holds the first well-formed exception of each key, and its errors are the faults of the exceptions |
| AuditFindings.ScanFinds | tools/check_pnpm_audit_exceptions.py:191-219 | the findings of the scan are the alarms of the entries, for any index |
| AuditTheorems.ExceptionsAnyOrder | tools/check_pnpm_audit_exceptions.py:156-185 | permuting the exceptions never changes the exit code |
| AuditOrder.OrderMatters | tools/check_pnpm_audit_exceptions.py:191-219 | some order of the same entries changes the exit code exactly when the exceptions are good, every relevant entry has one, some relevant entry does not fit its exception's severity, and every relevant key has an entry that fits |
| AuditOrder.EntriesAnyOrder | tools/check_pnpm_audit_exceptions.py:191-219 | otherwise order, repeats and deduplication of the entries do not change the exit code |
| AuditOrder.FittingFirst | tools/check_pnpm_audit_exceptions.py:203-215 | when the order decides, putting the fitting entries first makes the gate pass |
| AuditOrder.MisfitFirst | tools/check_pnpm_audit_exceptions.py:203-215 | and putting an entry that does not fit first makes it fail |
| AuditOrder.DedupMatters | tools/check_pnpm_audit_exceptions.py:191-206 | scanning without deduplication changes the exit code exactly when the first entry of every key fits and a later one does not |
| AuditOrder.OneSeverityIsEnough | tools/check_pnpm_audit_exceptions.py:191-219 | if entries with one key have one severity, the order does not decide |
| AuditOrder.HighAndCritical | tools/check_pnpm_audit_exceptions.py:204-215 | a concrete exception and a high and a critical entry for which the order decides |

## Left out

- EagerLoading.All: limits, offsets, Unique, path queries, interceptors and modifiers are not modelled; a limit on an edge query applies to the whole batch, so the claim is about queries without limits.
- EagerLoading.All: errors of the database itself are not modelled; a run fails only for invalid fields, as the error branches after a query are proved unreachable.
- EagerTheorems.RunsAgain: queries that load groups are excluded, because each run adds a join to the groups query; `QueryClone.LoadClone` covers them through clones.
- QueryBuilder.AccountQuery: which edges are requested is fixed when the builder is constructed; the With methods, which set it beforehand, only assign a field.
- QueryClone.Clone: modifiers and the path closure, which the source shares between original and clone, are not modelled.
- The neighbours from other tables (groups, proxies, usage logs, join rows) are kept as the rows they were read from; that several accounts share one object, and these entities' own edges, are not modelled. Accounts reached as parents or children are objects.
- GroupLoading.ScanJoin: the containers of a group's columns other than the id are not told apart.
- AccountEntity.Account.AssignValues: the scalar fields form one record, and unknown columns collect in a map; nil and empty slices or strings of pointers are not told apart beyond options.
- CreateSpecs.CreateSpec: the conditional field steps are grouped into stretches, and setting a field of the spec is a function on a map; the ids come from a range over a set in any order.
- BulkChain.Hook: a hook calls next at most once and, after next has returned, changes only the outcome; a hook that keeps another builder's mutation object and edits it is not modelled.
- BulkCreate.AccountCreateBulk.Save: builders and their mutation objects are distinct; the closures in `mutators` are represented by the pair of builder and hook numbers; contexts are not modelled.
- The bulk of account groups runs the same chain without generated ids; only its check is instantiated.
- UpdateFields.FieldChanges.EmitFields: both updates contain the same statements for the fields, column by column, so these are modelled once; the check of an update and its default for updated_at are not modelled.
- UpdateFields.FieldSaved: which change wins for a column that is named twice in an update is up to the database; numbers are unbounded.
- UpdateEdges.ExecutedIsSaved: clears before adds, and an edge to one replaced by an add, are what is assumed of the database for one account; the effect on other accounts is not modelled.
- SingleCreate.Save: nil hooks, and the type of the value that a hook returns in place of the node, are not modelled.
- Upserts, single-row update statements, transactions, SQL text, group-by and aggregates are thin calls into libraries.
- AuditText.Lower: lower-cases ASCII letters only.
- AuditGate.Env: Python's rendering of values that are not strings, the parsing of dates and the current date are parameters; JSON numbers are integers; reading files, arguments and the wording of messages are not modelled.
- AuditGate.RunMain: the entries that the generator yields before it ends or raises are scanned after it, instead of one by one; an error of either ends the program with the same exit code.
- AccountSchema.Json and AuditEntries.Value are separate, because the order of an object's members matters to the audit tool only.
