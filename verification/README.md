# Account loading, bulk creation and the audit gate

This project models three pieces of the repository and proves what they promise.

**Loading accounts with their edges** (`AccountEntity`, `EagerSpec`, `EagerLoad`, `EagerLaws`, `LazyLoading`,
`RowContents`, `LoadErrors`, `Tables`, `Selections`, `EdgeReports`, `JoinLaws`, `EagerLimit`, `EdgeLimits`,
`EagerRerun`, `WholeRerun`). `AccountQuery.sqlAll` runs a base query and then up to six hash joins that index the nodes
by id or by foreign key, run one query per edge, and write the neighbours into the nodes. The joins are methods over
heap nodes (`EagerLoad`). They are proved equal, errors included, to joins stated on key lists (`EagerSpec`), in which
no index appears. From there:

- eager loading is lazy loading: each node gets, at every level of the query, what one query per edge for that node
  alone would have given it (`EagerIsLazy`). What this needs of the database holds whenever every builder reads a table
  without a limit (`TablesAreSound`);
- what is loaded shows the database rows: each account holds its own row's cells in the columns that were read, NULL
  and JSON included, and at every level each neighbour holds those of the row that the keys lead to
  (`EveryLevelShowsRows`). These laws speak of cells and columns only, not of holders or of scanning;
- an error is told by the rows as well: the first unknown column, the first row that no node can take, and of several
  edges the first that fails (`LoadErrors`);
- if no query fails by itself, only existing columns are selected and the database honours the added filters, no load
  fails at any level;
- the selection changes no edge, in any builder of the query: both trees are scans of the same rows, list by list
  (`SelectionIrrelevant`). One builder must be excepted, the account groups', whose key is not added to a selection:
  with `Unique(true)` it can merge rows. `SelectionKeepsRowsIff` is the exact condition, and `SelectionMergesAGroup` an
  account in two groups that is left with one;
- each edge accessor tells found, not found and not loaded apart exactly as the database rows say;
- one-to-many loads place every neighbour once, the group lists count the distinct linked pairs, and children and
  parents invert each other;
- a reader may expect a row limit on an edge query to hold per node. It does not: it is shared by the whole batch.
  `EdgeLimits` has, for each of the six edges and for account groups merged or not, the exact condition under which the
  load still gives every node what its own limited query would, and a two-account example where it loses a usage log;
- each run leaves its `IN` predicate in the builders of the edges. Running the same query again, without groups, gives
  the same trees however often it is done (`EveryRunIsTheSame`). Running a builder over other nodes is safe only under
  a condition: `EagerRerun` has the exact one for every edge but the groups, and an example where the second run loses
  a log.

**Building queries** (`Slices`, `QueryBuilder`, `BuilderCalls`). Builders append to Go slices, which share capacity. A
builder with the builders below it is described by a *grove*: which objects there are, what each holds, and which cells
it owns. Every call on a builder does to it what the call does to a value, `Clone` copies the whole tree and keeps
everything but the modifiers, and afterwards any interleaving of calls on the two leaves each as if it had been used
alone. A clone is equal to its original exactly when no builder in it carries a modifier, and cloning commutes with a
call exactly when the call adds none. What a run of calls leaves is told by the calls: predicates, order options and
modifiers accumulate, the last call decides limit, offset, path and uniqueness, the columns are those since the last
grouping, and each edge holds what the last With call on it made.

**Creating accounts in bulk** (`BulkCreate`, `BulkSave`, `BulkLaws`, `BulkOutcome`, `BulkReach`, `BulkWrites`,
`BulkVerdicts`, `BulkOnePass`, `BulkResults`, `BulkWitness`). A bulk save is a chain of mutators, each wrapped in its
builder's hooks; mutator *i* calls mutator *i+1* and the last one inserts. Hooks are data: pass, reject, skip (return
without calling on), fail after calling on, edit the mutation, substitute another, or call on again up to a given number
of times, either always or as long as the answer is an error. The closures are data too, built by the loop from the last
hook to the first. The heap program is proved equal to a function on a state with a ghost trace of events; termination
follows the number of builders and hooks left. From there:

- with passing hooks the trace is perfectly bracketed around one insert;
- with passing and rejecting hooks the save is all or nothing;
- without an error every builder gets its node, with the fields written for it and the id the insert answered for its
  own row, and every mutation points to its slot; an error is that of the step the save stopped at, or else of the
  innermost hook that fails late (`SaveReturns`, `SteadySaveReturns`, `PassingSaveReturns`);
- each unset field gets its own default, and a failed check names the first field that is missing or invalid;
- the dropped error of `defaults` is harmless as long as hooks set no fields, because the check then fails
  (`DroppedErrorStopsTheSave`). `EditedSaveIgnoresFailedDefault` marks the boundary: a hook sets the field whose
  defaulting failed, and the row is inserted.

Four things a reader may expect are false of the code. Each has its exact condition, which a caller can evaluate before
the save; the first three also have a save of one builder, carried out on the heap, that shows it:

- the verdict tells whether rows were inserted: `VerdictIsHonestIff`, whatever hooks do short of setting fields, and
  `OnePassIsHonestIff`, whatever hooks do short of calling on again, with `SkippedSaveReportsSuccess` and
  `FailedSaveInserted`;
- a save inserts at most once: `InsertsAtMostOnceIff`, with `RepeatedSaveInsertsTwice`; `InsertsAre` counts the
  inserts, and `InsertsAtMost` bounds them for all these hooks;
- everything written was checked: `WrittenIsCheckedIff` and `OnePassWritesCheckedIff`, with
  `SubstituteIsWrittenUnchecked`;
- a mutation marked done was inserted: `DoneMeansInsertedIff`.

**The audit gate** (`ExceptionsFile`, `ExceptionsLaws`, `ExceptionsText`, `AuditGate`, `AuditLaws`, `GateLaws`,
`GateComplaints`). The line parser, the index and the scan with its set of seen keys are loops proved against forms
without index and without seen set. The parser fails exactly on a dash line without a colon, yields one item per dash
line, concatenates exactly under a stated condition (a file can follow any other exactly if no setting stands before its
first dash line), and reads back every rendered list of items, whichever of the three styles of quotes each value is
written in, with blanks around the lines and any line ends. The verdict is stated by quantifiers, over the texts alone
(`GateExitsCleanIff`): which severities count, which fields an exception must have, and that neither case nor blanks
matter. Each complaint is made exactly if there is an exception or a finding it is about (`ComplaintIsMadeIff`). The
order of the exceptions never matters. The order of the findings can, and both sides are exact: the findings pass in
every order if and only if no occurrence relies on one before it, and in some order if and only if each key has an
occurrence that could stand first.

Database answers are parameters: functions from an added `IN` filter to rows, constrained only where a law needs it,
and the error a query ends with, if any. Stripping and lower-casing of the values compared, date parsing and the
current day are parameters of the gate; its laws hold whatever they are.

`dafny verify dfyconfig.toml` checks the whole project.

## Model

| member | source | states |
|---|---|---|
| AccountEntity.ScanValues | backend/ent/account.go:170-191 | one holder per column, in order, of the Go type of that column; names outside the schema get the catch-all holder |
| AccountEntity.Account.AssignValues | backend/ent/account.go:195-426 | too few values change nothing and give the length error; otherwise the entity is the column-by-column assignment, or the first type or JSON error is returned and just the columns before it are assigned |
| AccountEntity.AssignAllSucceedsIff | backend/ent/account.go:170-426 | the scan switch and the assign switch agree: assignment succeeds exactly when every schema column comes in the holder scanning allocates for it and all JSON can be decoded |
| AccountEntity.AssignErrorIs | backend/ent/account.go:195-426 | the error names the first column whose holder does not fit: as JSON that cannot be decoded if the type is right, as an unexpected type otherwise |
| AccountEntity.AssignedFields | backend/ent/account.go:195-426 | a NULL keeps a field, any other value replaces it (for the id a NULL writes 0), except that a JSON object adds its members to the map the field holds and JSON null empties it; no column touches another column's field |
| AccountEntity.AssignOrderIrrelevant | backend/ent/account.go:195-426 | with duplicate-free columns the entity is the same for every order of the (column, value) pairs |
| EagerLoad.PrepareQuery | backend/ent/account_query.go:524-539 | the error of an interceptor comes first; otherwise the error names the first selected column the schema does not have; none if there is neither |
| EagerLoad.QuerySpec | backend/ent/account_query.go:866-880 | the loop over the selected columns computes the selection `SpecColumnsAre` characterizes |
| EagerLaws.SpecColumnsAre | backend/ent/account_query.go:866-880 | the id comes first; the columns are the id, the chosen ones and the foreign keys of requested many-to-one edges, nothing else, each once if the choice lists each once |
| EagerLaws.EntityHolds | backend/ent/account.go:170-426 | an entity scanned from a row holds the row's own cell in every schema column that was selected, a nil map for JSON null and no bytes, and nothing in the others; a name outside the schema is kept apart with its raw value |
| RowContents.SchemaColumns | backend/ent/account/account.go:134-184 | the schema's columns are valid, each in its place, and no other name is |
| RowContents.UnknownColumnIsRefused | backend/ent/account_query.go:535-539 | a query whose interceptors agree is run if and only if it selects schema columns only; otherwise its error is the first unknown one |
| RowContents.ResultShowsRows | backend/ent/account_query.go:550-625 | the accounts of a result are the rows found, in their order, each with its own cells in the columns that are read, whether the query is the main one or an edge's |
| RowContents.ScannedNeighbours | backend/ent/accountgroup.go:68-115 | a proxy, group, usage log or account group is scanned into exactly the one that has the row's id, its keys if they are selected, and its data in the selected columns |
| RowContents.EveryLevelShowsRows | backend/ent/account_query.go:524-880 | if the database honours the filters and answers key by key, then at every level every account holds its row's cells and every neighbour those of the row the keys lead to, the last of several for a many-to-one edge |
| EagerLoad.LoadGroups | backend/ent/account_query.go:627-687 | the many-to-many hash join, whatever order the sets of nodes are traversed in, gives every node its share of the join rows, or the error of the query itself or else of the first bad group |
| EagerLoad.LoadProxy | backend/ent/account_query.go:688-719 | every node with a foreign key, repeated ones included, gets the neighbour with that id or keeps nil; the ids asked for are the distinct keys in first-occurrence order; without any the query is not run, and otherwise its error is passed on |
| EagerLoad.LoadParent | backend/ent/account_query.go:720-751 | the same for the self-referencing edge, with the neighbours loaded by a query of their own |
| EagerLoad.LoadChildren | backend/ent/account_query.go:752-784 | neighbours go to the last node with the id their foreign key names; a nil or unknown key is the error of the first such neighbour |
| EagerLoad.LoadUsageLogs | backend/ent/account_query.go:785-814 | the same for usage logs; the error of the query itself is passed on |
| EagerLoad.LoadAccountGroups | backend/ent/account_query.go:815-844 | the same for account-group rows |
| EagerLoad.LoadEdges | backend/ent/account_query.go:550-625 | all requested edges, in the order of the source, with the error of the first edge that fails |
| EagerLoad.All | backend/ent/account_query.go:524-625 | the whole query on the heap: the graph below the returned nodes is exactly the list of trees the specification evaluates to, at every level, and an error, of the query itself or of an edge, returns no nodes |
| LoadErrors.FirstErrorDecides | backend/ent/account_query.go:524-625 | the error of a query is an interceptor's, or else the first unknown column, or else the query's own, or else that of the first edge that fails |
| LoadErrors.GroupErrorIs | backend/ent/account_query.go:673-686 | the error of the groups is that of their query or else of the first group, after interceptors, that no row brought or that a row links to another account |
| LoadErrors.ProxyErrorIs | backend/ent/account_query.go:705-718 | the error of the proxies is that of their query or else of the first row nobody asked for |
| LoadErrors.ParentErrorIs | backend/ent/account_query.go:737-750 | the same for the parents |
| LoadErrors.ChildErrorIs | backend/ent/account_query.go:768-783 | the error of the children, if their query went through, is the first row without a parent or of an account that is not among the nodes |
| LoadErrors.UsageLogErrorIs | backend/ent/account_query.go:800-813 | the error of the usage logs is that of their query or else the first row of an account that is not among the nodes |
| LoadErrors.AccountGroupErrorIs | backend/ent/account_query.go:830-843 | the same for account groups, if equal rows are not merged |
| EagerLaws.JoinKeysAreRowKeys | backend/ent/account_query.go:858-880 | the keys the joins work on are the rows' own ids and foreign keys, whatever columns were selected |
| EagerLaws.SoundQueriesSucceed | backend/ent/account_query.go:550-844 | with existing columns, queries that do not fail by themselves and a database that honours the added filters no load fails at any level: no nil key, no unknown key, no unexpected group, no nil node |
| EagerLaws.UsageLogKeysKept | backend/ent/account_query.go:795-799 | selecting other columns of the usage logs cannot lose the keys they are distributed by |
| EagerLaws.AccountGroupKeysKept | backend/ent/account_query.go:825-829 | the same for account-group rows; what merging equal rows leaves are rows that were scanned |
| LazyLoading.GroupsInRowOrder | backend/ent/account_query.go:661-687 | from join rows sorted by group an account gets the groups of its own rows, in the order of its own rows |
| LazyLoading.EagerIsLazy | backend/ent/account_query.go:550-844 | the batched joins give every node, at every level, exactly the edges that one query per edge for that node alone would load |
| LazyLoading.RowsAreLazy | backend/ent/account_query.go:550-844 | the same of any query, limited or not, that found rows with distinct ids, as long as the queries of its edges are unlimited |
| Tables.TablesAreSound | backend/ent/account_query.go:627-844 | if every builder of the query reads a table without a limit, the join table in group order, and selects existing columns, then no load fails and eager loading is lazy loading, at every level |
| Tables.EagerOverTables | backend/ent/account_query.go:524-625 | over such tables every query succeeds, and its trees are the lazily loaded ones |
| Tables.FullQueryIsOverTables | backend/ent/account_query.go:550-625 | a query for all six edges over any tables with distinct account ids and sorted links is such a query |
| Tables.KeptIsSorted | backend/ent/account_query.go:638-646 | join rows in group order stay so under the `IN` predicate on the accounts |
| Selections.SelectionIrrelevant | backend/ent/account_query.go:752-880 | two queries that differ only in the columns selected, in any of their builders, both succeed, and at every level every node has the same neighbours: the two lists are scans of one list of rows |
| Selections.SelectionKeepsRowsIff | backend/ent/accountgroup_query.go:448-467 | selecting account-group columns loses no row of any table if and only if the builder does not merge equal rows or selects the group id too |
| Selections.SelectionMergesAGroup | backend/ent/accountgroup_query.go:448-467 | an account in two groups of one priority, loaded with the priority selected and equal rows merged, is left with one entry |
| EdgeReports.ProxyReport | backend/ent/account.go:122-131 | for every returned node: an entity if and only if the edge was requested and a neighbour with the row's key came back, not found if and only if requested without one, not loaded if and only if not requested |
| EdgeReports.ParentReport | backend/ent/account.go:133-142 | the same for the parent |
| EdgeReports.ListReports | backend/ent/account.go:113-167 | a list edge is an error if and only if it was not requested |
| JoinLaws.PartitionIsExact | backend/ent/account_query.go:752-844 | together the lists of a one-to-many load hold every neighbour exactly once |
| JoinLaws.SharesOfDuplicates | backend/ent/account_query.go:752-784 | among nodes that share an id the last one gets the neighbours, in their order, the others the empty list |
| JoinLaws.WantedInKeyOrder | backend/ent/account_query.go:688-702 | the keys a many-to-one load asks for come in the order they first occur in |
| JoinLaws.MergedInFirstOrder | backend/ent/accountgroup_query.go:448-467 | of equal rows the first is kept: merging leaves the rows in the order of first occurrences |
| JoinLaws.ScannedInFirstRowOrder | backend/ent/account_query.go:640-672 | groups are scanned in the order of their first join rows |
| JoinLaws.GroupsLoaded | backend/ent/account_query.go:627-687 | without interceptors a node ends with exactly the groups some row links it to, each once, by first occurrence over all rows |
| JoinLaws.GroupListsCountPairs | backend/ent/account_query.go:661-687 | the lengths of the group lists add up to the number of distinct (account, group) pairs among the rows |
| JoinLaws.ChildrenInvertParents | backend/ent/account_query.go:720-784 | a loaded child's parent is the account that lists it, and no other returned account has the parent's id |
| JoinLaws.FetchedChildIsListed | backend/ent/account_query.go:752-784 | every fetched row that names an account is listed among the children of that account |
| EdgeLimits.LimitedLogsAreLazyIff | backend/ent/account_query.go:785-814 | a positive row limit on the usage logs gives every node what its own limited query would if and only if the batch stays within the limit or only one node has logs |
| EdgeLimits.LimitedAccountGroupsAreLazyIff | backend/ent/account_query.go:815-844 | the same for account groups without merging |
| EdgeLimits.LimitedMergedAreLazyIff | backend/ent/account_query.go:815-844 | the same for account groups that are merged before the limit: what counts are the rows left by merging |
| EdgeLimits.LimitedChildrenAreLazyIff | backend/ent/account_query.go:752-784 | the same for children, each loaded with its own edges |
| EdgeLimits.LimitedGroupsAreLazyIff | backend/ent/account_query.go:627-687 | the same for groups, the limit being on join rows |
| EdgeLimits.LimitedProxiesAreLazyIff | backend/ent/account_query.go:688-719 | a positive row limit on the proxies gives every node what its own limited query would find for its key if and only if it cuts no wanted proxy off |
| EdgeLimits.LimitedParentsAreLazyIff | backend/ent/account_query.go:720-751 | the same for parents, each loaded with its own edges |
| EdgeLimits.LimitLosesALog | backend/ent/account_query.go:785-814 | two accounts with one log each and a limit of one: the load gives the second account none, though its own query would find its log |
| EagerLimit.LimitedShareIsPrefix | backend/ent/account_query.go:752-844 | what a limited batch gives a node is the beginning of what the node's own query would give it |
| EagerRerun.LogsRerunIff | backend/ent/account_query.go:785-814 | loading usage logs after earlier runs, whose predicates are still in the builder, gives what a new builder would if and only if every node that has logs was among the nodes of every earlier run |
| EagerRerun.AccountGroupsRerunIff | backend/ent/account_query.go:815-844 | the same for account groups, merged or not |
| EagerRerun.ChildrenRerunIff | backend/ent/account_query.go:752-784 | the same for children, each loaded with its own edges, the builders below being the same in both runs |
| EagerRerun.ProxiesRerunIff | backend/ent/account_query.go:688-719 | the same for proxies: every existing proxy named now must have been named in every earlier run |
| EagerRerun.ParentsRerunIff | backend/ent/account_query.go:720-751 | the same for parents, each loaded with its own edges, the builders below being the same in both runs |
| WholeRerun.RunsAgain | backend/ent/account_query.go:524-625 | a query without groups, run again with the predicates and foreign keys its first run left in the builders of every level, gives the same trees |
| WholeRerun.EveryRunIsTheSame | backend/ent/account_query.go:524-625 | the same after any number of runs |
| WholeRerun.LogsBuilderAfterRun | backend/ent/account_query.go:785-814 | what a run over some ids leaves of the usage-log builder that earlier runs left is the builder of those runs and this one: the same columns, and the same rows for every further run |
| WholeRerun.AccountGroupsBuilderAfterRun | backend/ent/account_query.go:815-844 | the same for the account-group builder |
| WholeRerun.ProxyBuilderAfterRun | backend/ent/account_query.go:688-719 | the same for the proxy builder |
| WholeRerun.AccountBuildersAfterRun | backend/ent/account_query.go:720-784 | the same for the accounts that the builders of children and of parents find |
| EagerRerun.RerunLosesALog | backend/ent/account_query.go:785-814 | a builder run for account 1 and then for accounts 1 and 2 loses the log of account 2, which a new builder finds |
| Slices.Append | backend/ent/account_query.go:44-47 | append gives the old contents and the new elements, in the same array if and only if there is room, and never changes what the old slice shows |
| QueryBuilder.Query.Where | backend/ent/account_query.go:44-47 | the predicates grow by the arguments; nothing else the builder holds changes |
| QueryBuilder.Query.Order | backend/ent/account_query.go:69-72 | the order options grow by the arguments; nothing else changes |
| QueryBuilder.Query.Select | backend/ent/account_query.go:511-517 | the selected columns grow by the arguments; nothing else changes |
| QueryBuilder.Query.GroupBy | backend/ent/account_query.go:490-497 | the selected columns are replaced by the arguments |
| QueryBuilder.Query.Lock | backend/ent/account_query.go:942-963 | one modifier is added, and on Postgres uniqueness is switched off |
| QueryBuilder.Query.CloneSteps | backend/ent/account_query.go:388-408 | a builder of new cells that holds the same steps, path and intermediate query included, without the modifiers |
| QueryBuilder.New | backend/ent/client.go:819-825 | a new builder holds its client's interceptors and nothing else, in cells of its own |
| QueryBuilder.With | backend/ent/account_query.go:412-474 | the edge holds a new builder configured by the options, whatever it held before; the rest of the tree is unchanged |
| QueryBuilder.DoAll | backend/ent/account_query.go:44-72 | any run of calls does to the builder what it does to its value, and keeps the tree: builders at the edges hold their values, and no two share a cell |
| QueryBuilder.Clone | backend/ent/account_query.go:388-408 | the recursion ends on every tree; the clone is made of new cells only and holds the original's value without modifiers, path and intermediate query included, at every level |
| QueryBuilder.CloneAndUse | backend/ent/account_query.go:386-408 | after cloning, any interleaving of calls on the two leaves each as its own calls alone would |
| QueryBuilder.UsedIsRun | backend/ent/account_query.go:386-408 | what interleaved calls leave on one builder is a run of just the calls made on it, in order |
| QueryBuilder.StepsAccumulate | backend/ent/account_query.go:44-72 | predicates and order options accumulate in the order given whatever is called in between, and interceptors stay |
| BuilderCalls.LastCallDecides | backend/ent/account_query.go:50-66 | after any run of calls the limit is that of the last Limit call, or what it was before the run; so are the offset and the path, and the uniqueness of the last Unique call or, on Postgres, lock; modifiers accumulate |
| BuilderCalls.SelectedColumnsAre | backend/ent/account_query.go:490-517 | the selected columns are those of the last grouping, or those before the run, with the columns of all later Select calls appended |
| BuilderCalls.IntermediateQueryIs | backend/ent/account_query.go:540-546 | the intermediate query is what the last preparation on a path left, with all later parts |
| BuilderCalls.LastWithDecides | backend/ent/account_query.go:412-474 | the builder at an edge is a new one for the entity at that edge, configured by the options of the last With call on it alone |
| BuilderCalls.WithIntercepts | backend/ent/account_query.go:412-474 | a With call gives the edge a builder with the interceptors of the neighbours' entity, edge by edge, and changes nothing of the builder itself |
| BuilderCalls.NewIsBare | backend/ent/client.go:819-825 | a new builder has its entity's interceptors and nothing else: no column, predicate, order, limit, offset, path or edge |
| QueryBuilder.CloneIsEqualIff | backend/ent/account_query.go:388-408 | a clone is equal to its original if and only if no builder in the tree carries a modifier |
| QueryBuilder.CloneCommutesIff | backend/ent/account_query.go:388-474 | cloning before or after a call gives the same if and only if the call adds no modifier, to the builder or to a sub-builder |
| BulkCreate.AccountCreate.SetDefaults | backend/ent/account_create.go:541-599 | unset fields get defaults in order, and the first nil default function stops the rest with its error |
| BulkLaws.DefaultsAre | backend/ent/account_create.go:541-599 | defaulting fails if and only if a field with a nil default function is unset, which then stays unset; otherwise exactly the defaulted fields are added |
| BulkLaws.DefaultsOnlyFillGaps | backend/ent/account_create.go:541-599 | no field set before is changed, and a field that is added gets its own default |
| BulkLaws.DefaultValueIs | backend/ent/account_create.go:541-599 | once defaulting went through, each of the eleven fields holds what it held or else its own default, and every other field is as before |
| BulkLaws.DefaultErrorIs | backend/ent/account_create.go:541-599 | the error names the first unset field whose default function is nil |
| BulkLaws.CheckPassesIff | backend/ent/account_create.go:602-676 | the check passes if and only if every required field is set and every validated one is valid |
| BulkLaws.CheckNamesFirst | backend/ent/account_create.go:602-676 | a failed check names a field that is missing though required, or invalid, and every field checked before it is set and valid |
| BulkLaws.DroppedDefaultErrorIsCaught | backend/ent/account_create.go:541-676 | if defaulting failed the check fails; if it succeeded only name, platform and type can be missing |
| BulkSaving.BulkSave.CallHook | backend/ent/account_create.go:2211-2213 | a hook around the next mutator, for each of the behaviours, further calls included, on the heap as on values |
| BulkSaving.BulkSave.CallRest | backend/ent/account_create.go:2211-2213 | the calls a hook makes after its first, as many as are left and as long as its rule says so, on the heap as on values |
| BulkSaving.BulkSave.WrapHooks | backend/ent/account_create.go:2211-2213 | the loop from the last hook to the first builds the closure whose outermost hook is the first one and whose innermost part is the builder's own mutator |
| BulkSaving.BulkSave.Call | backend/ent/account_create.go:2176-2215 | calling the closure built from hook `k` on runs hooks `k`, `k+1` and so on and then the mutator, as on values; builders and hooks left to call decrease |
| BulkSaving.AccountCreateBulk.Save | backend/ent/account_create.go:2165-2222 | a carried error is returned at once; otherwise defaults for every builder and then the chain, and an error returns no nodes |
| BulkLaws.PassingChainLands | backend/ent/account_create.go:2176-2215 | from any point of the chain, passing hooks and checks nest around one insert, with every slot built in order and every mutation done |
| BulkOutcome.SaveIsBracketed | backend/ent/account_create.go:2165-2222 | the whole trace: hooks of builder 0 from the outside, its check, builder 1, and so on, one insert of all specs in order, then all exits in exactly the opposite order |
| BulkOutcome.SaveIsAllOrNothing | backend/ent/account_create.go:2165-2222 | for hooks that pass or reject: one insert of all specs if and only if every builder is clear; success means inserted and all done, an error means no mutation was touched and slots are built only below the first unclear builder |
| BulkOutcome.StopsAtFirstFailure | backend/ent/account_create.go:2176-2215 | the way in stops at the first builder with a blocking hook or a failing check, and inserts if there is none |
| BulkResults.SaveReturns | backend/ent/account_create.go:2176-2222 | for hooks that call on at most once, editing and substituting as they like: the error is that of the step that ends the way in or else of the innermost hook that fails late; without one there is a node for every builder before the end, with the fields written for it and the id answered for its slot, and each mutation that was reached is done and points to its first slot |
| BulkResults.SteadySaveReturns | backend/ent/account_create.go:2176-2222 | for hooks that pass, reject, skip or fail late: the error, told from the builders' settings; and if there is none and the insert was reached, every builder's node has its own settings and the id answered for its own row, and its mutation is done and points to its slot |
| BulkResults.PassingSaveReturns | backend/ent/account_create.go:2176-2222 | with passing hooks and checks the nodes are numbered in the order of the builders if the insert works, and its failure is the error otherwise |
| BulkResults.SaveSteadily | backend/ent/account_create.go:2165-2222 | the same of the accounts that a save on the heap returns |
| BulkVerdicts.VerdictIsHonestIff | backend/ent/account_create.go:2176-2222 | for hooks that set no fields and builders listed once each, blocking, substituting, repeating or failing late as they like: the verdict tells whether rows were inserted, whatever the database answers, if and only if the save does not end silently in a skipping hook (no hook before it fails late, and what it leaves below passes the check, as do the checks repeated by hooks that always call on again), and, in case the way in reaches the insert, no hook fails late and none always calls on again |
| BulkVerdicts.BlockedSave | backend/ent/account_create.go:2176-2222 | a save that some hook blocks inserts nothing, and reports success if and only if it ends silently |
| BulkVerdicts.EndsSilentlyIff | backend/ent/account_create.go:2176-2222 | ending silently, told from the first blocking hook and the hooks before it, is the same as what a walk through the chain says |
| BulkWrites.DroppedErrorStopsTheSave | backend/ent/account_create.go:2175-2183 | if defaulting failed for any builder nothing is inserted, although the error is dropped, whatever hooks do short of setting fields, with builders listed once each |
| BulkOutcome.DroppedErrorStopsASteadySave | backend/ent/account_create.go:2175-2183 | the same for hooks that pass, reject, skip or fail late, around builders listed any number of times |
| BulkWitness.EditedSaveIgnoresFailedDefault | backend/ent/account_create.go:2165-2222 | one builder with a hook that sets the field whose default function is nil: defaulting fails, and success is reported for a row that was inserted |
| BulkWrites.InsertsAtMost | backend/ent/account_create.go:2176-2215 | for all these hooks, and whatever the database answers: each hook multiplies the inserts at most by how often it may call on, so that there is at most one insert if none calls on again |
| BulkReach.ChainWalks | backend/ent/account_create.go:2176-2215 | without edits, the chain leaves the mutations, the slots and the inserts that a walk over checks, substitutions and further calls alone foretells |
| BulkWrites.InsertsAre | backend/ent/account_create.go:2165-2222 | how many inserts a save makes: none if the way in ends before it, otherwise at least one and at most one more for every further call that would come through, and exactly as many if the database refuses or the hooks that call again always do |
| BulkWrites.InsertsAtMostOnceIff | backend/ent/account_create.go:2165-2222 | a save inserts at most once for every database if and only if the way in ends before the insert or no hook that calls again stands where a further call would come through |
| BulkWrites.SteadyInsertsAre | backend/ent/account_create.go:2165-2222 | without substitution the inserts are at most the product of how often each hook may call on, and exactly as many if the database refuses or the hooks that call again always do |
| BulkWrites.WrittenIsCheckedIff | backend/ent/account_create.go:2165-2222 | every insert writes, builder by builder, the fields of the mutation its hooks substitute last; all written specs pass the check if and only if nothing is inserted or the check passes on each of those |
| BulkWrites.NothingUncheckedIsWritten | backend/ent/account_create.go:2181-2192 | while hooks hand on the builder's own mutation, edited or not, every spec built or inserted passes the check |
| BulkWrites.CallingOnIsHonestIff | backend/ent/account_create.go:2165-2222 | for hooks that all call on, substituting, repeating or failing late as they like: exactly when the verdict tells whether rows were inserted, whatever the database answers |
| BulkOnePass.SavePasses | backend/ent/account_create.go:2165-2222 | for hooks that call on at most once, editing and substituting as they like, around builders listed any number of times: the inserts, the mutations marked and whether there is an error are what a walk over fields and substitutions alone foretells |
| BulkOnePass.OnePassWritesCheckedIff | backend/ent/account_create.go:2165-2222 | for these saves: every insert writes, builder by builder, the fields foretold, and all written specs pass the check if and only if nothing is inserted or the check passes on each of those |
| BulkOnePass.OnePassIsHonestIff | backend/ent/account_create.go:2165-2222 | for these saves: the verdict tells whether rows were inserted, whatever the database answers, if and only if the way in neither ends quietly in a skipping hook nor reaches the insert through a hook that fails afterwards |
| BulkOnePass.SteadyVerdictIsHonestIff | backend/ent/account_create.go:2176-2222 | the same told from the builders' settings after defaulting, for hooks that pass, reject, skip or fail late |
| BulkOnePass.DoneMeansInsertedIff | backend/ent/account_create.go:2181-2209 | for these saves: a mutation is marked done only if rows were inserted, whatever the database answers, if and only if no skipping hook ends the way in behind a builder whose mutator then finishes |
| BulkWitness.SkippedSaveReportsSuccess | backend/ent/account_create.go:2165-2222 | one builder with a skipping hook: the save reports success and inserts nothing |
| BulkWitness.FailedSaveInserted | backend/ent/account_create.go:2165-2222 | one builder with a hook that fails afterwards: the save reports the hook's failure and the row was inserted |
| BulkWitness.RepeatedSaveInsertsTwice | backend/ent/account_create.go:2165-2222 | one builder with a hook that always calls on a second time: two inserts, whatever the database answers, and a verdict that tells of the second only |
| BulkWitness.RepeatedSaveInsertsEachTime | backend/ent/account_create.go:2165-2222 | one builder with a hook that calls on any number of times again: one insert for each call, if the hook always does or the database refuses |
| BulkWitness.RetriedSaveInsertsOnce | backend/ent/account_create.go:2165-2222 | one builder with a hook that calls on again while it fails: one insert if the database accepts it, and success |
| BulkWitness.RejectedSaveInsertsNothing | backend/ent/account_create.go:2165-2222 | one builder with a rejecting hook: its error is reported and nothing is inserted |
| BulkWitness.SubstituteIsWrittenUnchecked | backend/ent/account_create.go:2165-2222 | one builder whose own mutation passes the check and whose hook substitutes an empty one: success is reported, and the inserted spec fails the check |
| ExceptionsFile.ParseExceptions | tools/check_pnpm_audit_exceptions.py:23-48 | the line loop with its open item computes the parse, or the error of the first dash line it cannot split |
| ExceptionsFile.StripIff | tools/check_pnpm_audit_exceptions.py:27-27 | stripping gives the one trimmed string that blanks around it make the whole with |
| ExceptionsFile.SpacesAre | tools/check_pnpm_audit_exceptions.py:27-27 | which characters are blanks |
| ExceptionsLaws.DashHasText | tools/check_pnpm_audit_exceptions.py:33-39 | a stripped dash line always has text behind the dash, so the test for an empty rest never fails |
| ExceptionsLaws.ParseFailsIff | tools/check_pnpm_audit_exceptions.py:12-48 | parsing fails if and only if some dash line has no colon |
| ExceptionsLaws.ParseErrorIs | tools/check_pnpm_audit_exceptions.py:12-48 | the error is the text of the first dash line that has no colon |
| ExceptionsLaws.OneItemPerDash | tools/check_pnpm_audit_exceptions.py:23-48 | there is one item per dash line: the guards that drop empty items drop none |
| ExceptionsLaws.ParseConcat | tools/check_pnpm_audit_exceptions.py:23-48 | two files in a row: the settings before the second's first dash line join the last item of the first, otherwise the items follow each other |
| ExceptionsLaws.ParseIsAdditiveIff | tools/check_pnpm_audit_exceptions.py:23-48 | the items of two files in a row are those of the one and then the other if and only if the first has none or the second's leading settings change nothing |
| ExceptionsText.AppendsToAnythingIff | tools/check_pnpm_audit_exceptions.py:23-48 | a file can be appended to every other so that the items follow each other if and only if no setting stands before its first dash line |
| ExceptionsText.PairRoundTripIff | tools/check_pnpm_audit_exceptions.py:12-20 | a pair written without quotes, in single or in double quotes splits back into itself if and only if the key is trimmed and has no colon and the value, if it has no quotes, is trimmed and not enclosed in a pair of equal ones |
| ExceptionsText.SplitStripped | tools/check_pnpm_audit_exceptions.py:12-20 | blanks around a line change neither its key nor its value |
| ExceptionsText.FirstLineIsDash | tools/check_pnpm_audit_exceptions.py:33-42 | a written pair behind a dash is a dash line, whatever its key and the blanks around |
| ExceptionsText.LaterLineIsSettingIff | tools/check_pnpm_audit_exceptions.py:27-46 | a written pair with blanks before and behind it is read as a setting if and only if its key does not make it a comment, a header or a dash line |
| ExceptionsText.ItemsRoundTrip | tools/check_pnpm_audit_exceptions.py:23-48 | the lines of any list of items, each pair in its own style and with its own blanks, parse back into the list |
| ExceptionsText.TextRoundTrip | tools/check_pnpm_audit_exceptions.py:12-48 | so does their text, whichever way each line ends |
| ExceptionsText.IgnoredLines | tools/check_pnpm_audit_exceptions.py:27-32 | blank lines, comments and the two headers are ignored, whatever stands before or behind |
| ExceptionsText.IgnoredChangesNothing | tools/check_pnpm_audit_exceptions.py:27-32 | an ignored line changes nothing, wherever it stands |
| ExceptionsText.ShippedIsRead | tools/check_pnpm_audit_exceptions.py:23-48 | an entry in the style of the file the repository ships, package and severity without quotes, is read with all its fields behind any ignored header |
| AuditGate.Enter | tools/check_pnpm_audit_exceptions.py:156-185 | one turn of the index loop: a bad exception, or one whose key an earlier usable exception has, is reported and the index stays; any other is granted |
| AuditGate.BuildIndex | tools/check_pnpm_audit_exceptions.py:156-185 | the index holds for each key what its first usable exception grants, and the errors are the flaws of the exceptions in order |
| AuditGate.Scan | tools/check_pnpm_audit_exceptions.py:190-219 | the scan with its seen set reports what is said of first occurrences only, in order |
| AuditGate.Gate | tools/check_pnpm_audit_exceptions.py:141-243 | an unreadable exception file is its parse error; otherwise the exit code is 0 if and only if there is nothing to complain about, and the complaints come out in the order of the source |
| GateLaws.GateExitsCleanIff | tools/check_pnpm_audit_exceptions.py:7-243 | the gate exits with 0 if and only if every exception has its five fields, a date that can be read and a package and advisory of its own, and every named finding of severity high or critical has an advisory and, unless it was found before, an exception for it, for its severity or any, that is in force |
| GateLaws.UncoveredFindingFails | tools/check_pnpm_audit_exceptions.py:190-207 | a named high or critical finding whose package and advisory no exception has makes the code 1 |
| GateLaws.NamelessAdvisoryFails | tools/check_pnpm_audit_exceptions.py:190-198 | so does one without an advisory |
| GateLaws.MissingFieldFails | tools/check_pnpm_audit_exceptions.py:8-162 | so does an exception without its package, advisory, severity, mitigation or date |
| GateLaws.OtherFindingsChangeNothing | tools/check_pnpm_audit_exceptions.py:190-193 | findings of any other severity and findings without a name change neither the code nor a complaint |
| GateLaws.CaseAndBlanksDoNotMatter | tools/check_pnpm_audit_exceptions.py:114-131 | the code is the same for values that agree after stripping and, for severities and advisories, lowering, as long as the same fields are empty |
| GateComplaints.ComplaintIsMadeIff | tools/check_pnpm_audit_exceptions.py:156-243 | each complaint but the headers is made if and only if it is about some exception or some finding: what is missing, which date, which duplicate, which finding has no advisory, no exception, one of another severity or one that has expired |
| GateComplaints.ComplaintsComeInOrder | tools/check_pnpm_audit_exceptions.py:141-243 | first what is wrong with exceptions, then with findings, then under a header those without an exception, then under a header the expired ones |
| GateComplaints.ListsGrowAtTheEnd | tools/check_pnpm_audit_exceptions.py:141-243 | more exceptions or findings add to these lists at the end, so that each is in the order of what it is about |
| GateComplaints.AtMostOneEach | tools/check_pnpm_audit_exceptions.py:156-219 | one more exception adds at most one complaint, one more finding at most one to each list |
| AuditLaws.VerdictIff | tools/check_pnpm_audit_exceptions.py:151-243 | the gate passes if and only if every exception has all fields, a valid date and a non-blank key of its own, every high or critical named finding has an advisory, and at the first occurrence of each key an unexpired exception of that key has an empty or equal severity |
| AuditLaws.ExceptionOrderIrrelevant | tools/check_pnpm_audit_exceptions.py:156-185 | the verdict is the same for every order of the exceptions |
| AuditLaws.PassesInEveryOrderIff | tools/check_pnpm_audit_exceptions.py:190-219 | the findings pass in every order if and only if each occurrence is permitted by itself |
| AuditLaws.PassesInSomeOrderIff | tools/check_pnpm_audit_exceptions.py:190-219 | the findings pass in some order if and only if every key has an occurrence that is permitted |
| AuditLaws.FindingOrderIrrelevant | tools/check_pnpm_audit_exceptions.py:190-219 | with one severity per key the verdict is the same for every order of the findings |
| AuditLaws.FirstOccurrenceDecides | tools/check_pnpm_audit_exceptions.py:199-219 | two findings of one key: the one that comes first decides, so order matters when only one is permitted |
| AuditLaws.MoreFindingsNeverHelp | tools/check_pnpm_audit_exceptions.py:190-219 | appending findings never turns a failure into a pass |
| AuditLaws.RepeatsChangeNothing | tools/check_pnpm_audit_exceptions.py:199-203 | appended findings of keys already met change no complaint, whatever their severity |
| AuditLaws.BareKeysAreListedOnce | tools/check_pnpm_audit_exceptions.py:199-207 | the findings listed as missing an exception are the first findings of the keys that have none, all of them, in their order, no two of one key, however often each occurs |

Where code and documentation disagree: `Clone` promises "all associated steps" (backend/ent/account_query.go:386-387)
but leaves the modifiers behind; the model follows the code.

## Left out

- EagerLoad.All: the query of an edge is a value, so the foreign key and the `IN` predicate that loading appends to the edge's own builder do not persist in it; what that means for later runs is modelled in `EagerRerun` and `WholeRerun`.
- EagerRerun.ChildrenRerunIff: takes the builders below the children to be the same in both runs, so what a run over other nodes leaves further below is not part of it; runs over the same nodes are in `WholeRerun`.
- EagerRerun.ParentsRerunIff: the same of the builders below the parents.
- WholeRerun.RunsAgain: without groups. A rerun of the groups joins the link table a second time, and what a database makes of that is not modelled.
- EagerLoad.PrepareQuery: what interceptors do to a query while traversing it is not modelled, only the error they may end with. The path of a query that starts from another is run with the database, so its error is one of those the database answers with.
- EagerLoad.QuerySpec: only the columns of the specification; uniqueness, predicates, limit, offset and order are part of what the database answers.
- EagerLoad.LoadGroups: interceptors of the group query are a function of the groups found; those of the other queries, and interceptors that themselves start queries, are part of what the database answers. The group, proxy, usage-log and account-group builders load no edges of their own, and the error each ends with, for whatever reason, is given with the builder.
- EagerLoad.QueryNodes: `DISTINCT` except on account groups, ordering, limits and offsets of a query are part of its answer; SQL text, drivers and transactions are not modelled. Rows have cells of their columns' types, and JSON that can be decoded.
- AccountEntity.Account.AssignValues: the bytes of `credentials` and `extra` are given as what they decode to: nothing, an error, null or an object whose members are kept as text. Values of names outside the schema are kept as their holders.
- QueryBuilder.Query: one class stands for the builders of all entities, with its with-fields as a map from edges to builders. Interceptors are a sequence that builders never append to. A clone visits the edges in any order.
- QueryBuilder.Query.CloneSteps: the intermediate query `sql` is a value, so that its copy is one of its own shows only as equality.
- BulkSaving.BulkSave.CallHook: a hook is one of the listed behaviours, and one that does two of these things stands as two hooks. Hooks that change builders other than their own, change their behaviour from call to call, or hand on a mutation of another entity are not modelled.
- BulkWrites.InsertsAre: the exact laws are about builders whose hooks set no fields, each listed once (`BulkReach`, `BulkWrites`, `BulkVerdicts`), or whose hooks call on at most once (`BulkOnePass`). About a chain that both sets fields and calls on again there are `InsertsAtMost` and, without substitution, `NothingUncheckedIsWritten`.
- BulkVerdicts.VerdictIsHonestIff: under the same conditions; `OnePassIsHonestIff` and `SteadyVerdictIsHonestIff` are about the other saves.
- BulkSaving.BulkSave.BuildSlot: the spec is the mutation's fields and its id; groups, children and usage logs attached to a new account are not part of it.
- BulkSaving.AccountCreateBulk.Save: conflict clauses and the edges of the new rows are not modelled. The slots are sequences, and the id a mutation points to is the index of its slot.
- AuditGate.Gate: the findings are a given sequence; reading the audit report and choosing among its fields is not modelled, nor are message texts. The set of missing fields stands for the list the program prints in no fixed order.
- ExceptionsFile.ParseText: text is a sequence of characters; decoding the file's bytes is not modelled.
- Integers are unbounded; 64-bit wrap-around does not occur in the modelled code, which only compares and copies ids.
- Setters, upserts, update builders and the panicking variants of the methods: one-line bodies, or dependent on the graph library.
- The query and create builders of the other entities: instances of the same template.
