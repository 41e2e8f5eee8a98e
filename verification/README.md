# Eager loading, bulk creation, row scanning, the audit gate and escaping

This project models four pieces of backend machinery and one of the frontend build, and proves what each is for.

* **Eager loading** (`Store`, `Entities`, `Loaders`, `EagerSpec`, `Outcomes`, `GroupLoad`, `EagerLoad`, `EagerTheorems`,
  `Projection`, `QueryReuse`, `QueryRerun`, `Singular`). `AccountQuery.All` fetches accounts and then, per requested edge, issues one
  batched query and hands its rows out through hash maps. The database is a value (tables as sequences of rows with
  primary keys); the driver is an oracle that fails or returns the matching rows in any order. Nodes are heap objects
  and the loaders assign their edge fields in place. `EagerSpec.Faithful` is the independent reference: for a node and
  a query tree of any depth it says, edge by edge, what naive lookups would find, and the same for the nodes behind
  each edge. `EagerLoad.All` meets it under every driver, every row order and every projection.
* **Bulk creation** (`BulkChain`, `BulkCreate`). `AccountCreateBulk.Save` is an array of closures, each wrapped by the
  hooks of its builder; closure `i` calls closure `i + 1`, the last one inserts, and completion is recorded while
  unwinding. `BulkCreate` is the imperative chain over shared arrays and heap mutations; its ghost trace is tied, event
  by event, to the run that `BulkChain` reasons about.
* **Row scanning** (`RowScan`). `scanValues` and `assignValues` dispatch on columns independently; they agree on every
  column list.
* **The audit gate** (`ExceptionFile`, `AuditReport`, `AuditGate`, `AuditPolicy`). The exception-file reader, the
  extraction of findings, the index of exceptions and the de-duplicating check of
  `tools/check_pnpm_audit_exceptions.py`, proved to return 0 exactly when a declarative policy holds.
* **Escaping** (`Escaping`). HTML escaping has an inverse; rewriting `<` in serialized JSON keeps its tokens.

`Prelude` holds the order-preserving filter that the specifications share.

Nil pointers of Go are nullable references, nil slices are `None`, Go and Python errors are result values, and an
uncaught Python exception is `Raised`. Every lemma is marked `{:induction false}`, so none rests on automatic induction.

## Results that are not plain confirmations

* Permuting the findings of an audit report can change the verdict, because only the first finding of a key is checked
  against its exception. `AuditPolicy.OrderMattersHere` is a file and a report where it does,
  `AuditPolicy.ReportOrderIrrelevantIff` the exact condition. Permuting the exceptions never does
  (`AuditPolicy.ExceptionOrderIrrelevant`).
* A `via` object whose only name is a numeric `source`, which the script's comment on normalization expects, makes the
  script end with a traceback: the number is joined as a title (`AuditGate.NumericSourceRaises`).
  `AuditGate.RaisesIff` lists every input that does.
* A bulk save can report success without having inserted anything, when a hook swallows an error or answers without
  forwarding. `BulkChain.HonestIff` and `BulkChain.HonestListsIff` say for which hooks this is ruled out.
* Every loader leaves its predicate on the query object it is given, and `loadGroups` its join. Over unchanged tables a
  second run of the same tree has the same answer to its full depth, unless some level that had accounts requested
  groups and its join returned a row: joined twice, the query has two account columns in front, the scan hook takes off
  one, and the type assertion on the holder of the other panics. `QueryRerun.LoadAgain` states both directions,
  `QueryRerun.SecondRunPanicsHere` is the smallest case.
* With other nodes or changed tables the predicates left behind lose rows (`QueryReuse.SecondRunLosesARow`,
  `QueryRerun.MovedParentIsLost`); `QueryReuse.ReuseAgreesIff` and `QueryRerun.ChangedTablesIff` say exactly when for the
  lookups by key, `QueryRerun.ChangedChildrenIff`, `QueryRerun.ChangedUsageIff` and `QueryRerun.ChangedLinksIff` for the
  lists.
* `First` and `Only` leave their limit on the query. `Singular.FirstThenAll` says when a later `All` still returns
  everything, `Singular.SecondRowIsLost` is a table where it does not.
* The id column is copied even when NULL, unlike every other column (`RowScan.LastIdDecides`).
* Of several nodes with one id, the list-edge loaders fill only the last (`Loaders.OwnedByIsOwned`,
  `GroupLoad.LoadGroups`); rows of one query never repeat an id (`EagerLoad.DistinctIds`), so `All` is not affected.

## Model

| member | source | states |
|---|---|---|
| Store.Execute | backend/ent/account_query.go:578-580 | The oracle for a query: exactly the matching rows in an arbitrary order, or a driver error, which a reliable driver never gives |
| Store.JoinMembers | backend/ent/account_query.go:638-646 | The join of links and groups holds an account with a group iff the link row and the group both exist |
| Store.JoinAllMembers | backend/ent/account_query.go:638-646 | With the joins that earlier runs left on the query: iff in addition each of them meets a link of the group |
| Outcomes.SecondHolder | backend/ent/account_query.go:654-663 | The first holder that the hook reads an id from is always an integer holder, the second iff the query was joined once; with more joins it is that of a column the group does not know |
| Outcomes.FailsForACause | backend/ent/account_query.go:524-625 | Unless the driver fails, a query ends with the field error only if some field name of its tree is invalid, and in a panic only if an earlier run left a join in it |
| Outcomes.NodesFail | backend/ent/account_query.go:578-623 | Which loader of a level fails first, and how, depends on the rows that matched, not on the order the driver returned them in |
| Store.DistinctOrder | backend/ent/account_query.go:664-667 | First occurrences are kept in the order in which they occur |
| Loaders.GroupByKey | backend/ent/account_query.go:689-700 | The `IN` list is the non-null keys of the nodes, each once, in first-occurrence order; the map sends each key to exactly the nodes that have it |
| Loaders.IndexById | backend/ent/account_query.go:753-761 | The `IN` list is all node ids in order, the index holds the last node of each id |
| Loaders.OwnedByIsOwned | backend/ent/account_query.go:772-782 | Handing rows out through the index gives the last node of an id the order-preserving filter of the rows by foreign key, and other nodes of that id nothing |
| EagerSpec.LastResolves | backend/ent/account_query.go:704-717 | Assigning by id from one batched answer finds, for every key asked for, what a lookup of that key alone would find |
| EagerSpec.OwnedRows | backend/ent/account_query.go:765-782 | Splitting one batched answer by owner gives each owner exactly the rows its own query would return |
| GroupLoad.ScanJoin | backend/ent/account_query.go:650-671 | The scan hooks panic iff there is a row and one of the first two holders is no integer holder; otherwise they keep one struct a group, in order of first rows, and record per group exactly the accounts some row joins to it |
| GroupLoad.AppendToEach | backend/ent/account_query.go:682-684 | The loop over the unordered set appends the group once to each recorded account, in whatever order it runs |
| GroupLoad.HandOutGroups | backend/ent/account_query.go:677-686 | Each account gets its recorded groups in order; fails iff some group was not recorded, with the id of the first such |
| GroupLoad.JoinedAreNodes | backend/ent/account_query.go:661-669 | Under the `IN` predicate no nil account is ever recorded |
| GroupLoad.RecordedIffJoined | backend/ent/account_query.go:661-669 | An account is recorded for a group iff it is the last node of an id that some row joins to the group |
| GroupLoad.LoadGroups | backend/ent/account_query.go:627-687 | For every answer of the joined query, whatever its order and repetitions: groups are one shared struct each in first-appearance order, each account gets exactly its joined groups in that order, the "unexpected node" error never occurs; a panic iff an earlier run joined the query and the joined query returns a row |
| EagerLoad.HandOutProxies | backend/ent/account_query.go:709-718 | Every node takes the last answer with its key or keeps its edge; fails iff an answer was not asked for, with the id of the first such |
| EagerLoad.LoadProxy | backend/ent/account_query.go:688-719 | Refines a lookup per node, for repeated nodes and keys; no query when there is no key; only driver errors |
| EagerLoad.LoadParent | backend/ent/account_query.go:720-751 | The same for the self-referential edge, with parents faithful to their own query tree |
| EagerLoad.HandOutChildren | backend/ent/account_query.go:772-783 | Each node gets the rows whose foreign key leads to it, in order; fails iff some key is nil or unknown, with the error of the first such row |
| EagerLoad.FetchChildren | backend/ent/account_query.go:762-771 | Under any projection the children come back with every column asked for, all of them when none was, and with a foreign key, which is one of those asked for |
| EagerLoad.LoadChildren | backend/ent/account_query.go:752-784 | Each node's list is the order-preserving filter of the query's answer, equal as rows to the node's own query, each child with the columns its query asks for; over distinct nodes the lists are a partition of the answer (disjoint, lengths summing to the rows returned); both error returns are unreachable |
| EagerLoad.FetchUsageLogs | backend/ent/account_query.go:795-804 | The same completion of a projection; with an invalid field always the field error, and otherwise only a driver error |
| EagerLoad.LoadUsageLogs | backend/ent/account_query.go:785-814 | The usage-log lists likewise, a partition of the rows the query returned |
| EagerLoad.LoadLinks | backend/ent/account_query.go:815-844 | The join-entity lists likewise, each entity faithful to its own query |
| EagerLoad.LoadLinkAccount | backend/ent/accountgroup_query.go:379-407 | Refines a lookup per join entity, with accounts faithful to their own query tree |
| EagerLoad.LoadLinkGroup | backend/ent/accountgroup_query.go:408-436 | Refines a lookup per join entity |
| EagerLoad.AllLinks | backend/ent/accountgroup_query.go:334-377 | Exactly the matching join rows, each with its requested edges loaded; invalid fields are refused |
| EagerLoad.LoadEdges | backend/ent/account_query.go:584-623 | All six loaders together: each establishes its edge and leaves the other five as they were |
| EagerLoad.FetchAccounts | backend/ent/account_query.go:550-580 | One new node per matching row with its projected keys, the columns asked for, flags and no edges; with an invalid field always the field error |
| EagerLoad.DistinctIds | backend/ent/account_query.go:631-633 | Nodes of one query have distinct ids, so no list-edge index hides a node |
| EagerLoad.All | backend/ent/account_query.go:550-625 | The nodes are the matching rows, each once, and carry the whole query tree as naive lookups would find it, with the columns that each level asks for, whatever is projected; unless the driver fails, the outcome is that of the first loader that fails, in the order of the source: a field error, a panic where an earlier run left a join that returns a row, or none |
| EagerTheorems.Load | backend/ent/account_query.go:307-314 | The public call: with valid field names and a reliable driver a fresh query always has an answer; an invalid name at the root is always reported |
| EagerTheorems.ColumnsSurvive | backend/ent/account_query.go:762-881 | After a load, every column asked for was fetched for the node and for the nodes behind its edges, all of them where none was selected, and the keys among them are those of the row |
| EagerTheorems.LinkColumnsSurvive | backend/ent/accountgroup_query.go:448-467 | The same for a join entity and its account |
| Entities.AccessorOutcomes | backend/ent/account.go:106-165 | On any struct, loaded or built by hand: a list accessor goes by its flag alone, a unique one by the pointer and then by its flag |
| EagerTheorems.UniqueAccessors | backend/ent/account.go:118-138 | After a load, NotLoaded iff not requested, NotFound iff requested and no row matches, otherwise the row the key names |
| EagerTheorems.ListAccessors | backend/ent/account.go:109-165 | After a load, a list accessor fails iff its edge was not requested and otherwise returns a non-nil list of exactly the related rows |
| EagerTheorems.ProjectionIrrelevant | backend/ent/account_query.go:866-880 | Two nodes of one account, loaded with the same edges under any projections at any level, carry the same tree of rows to its full depth |
| EagerTheorems.LoadTwice | backend/ent/account_query.go:550-625 | Two calls that differ in their projections only have the same accounts with the same trees |
| EagerTheorems.TwoRoutesAgree | backend/ent/account_query.go:627-687 | A group is reached over the join entities iff it is loaded directly, links without a group dropped; a filter on the join entity, and joins left by earlier runs, are the only differences |
| EagerTheorems.TwoRoutesCountAlike | backend/ent/account_query.go:815-844 | With the primary key of the join table, both routes meet the same groups equally often |
| EagerTheorems.ParentChildDuality | backend/ent/account_query.go:720-784 | For loaded accounts, the parent of `c` has the id of `p` iff `c` occurs among the children of `p` |
| EagerSpec.AppendedIsPartition | backend/ent/account_query.go:772-782 | What the list-edge loop appends is, over distinct nodes, a partition of the answer |
| Projection.QuerySpecColumns | backend/ent/account_query.go:866-880 | The loop builds the specified column list |
| Projection.SelectedColumnsComplete | backend/ent/account_query.go:866-880 | For every field list: id first and once, every requested field, the foreign key of every requested edge, nothing else |
| Projection.SpecColumnsComplete | backend/ent/account_query.go:858-880 | The same including the full column list |
| Projection.AllColumnsComplete | backend/ent/account/account.go:132-165 | The full column list holds every column of the struct exactly once and nothing else |
| Projection.UsageSpecComplete | backend/ent/usagelog_query.go:745-776 | For every field list of the usage-log query: the id and every requested field, nothing else |
| Projection.QueryLinkColumns | backend/ent/accountgroup_query.go:448-467 | The loop builds the specified column list of the join query |
| Projection.LinkSpecComplete | backend/ent/accountgroup_query.go:448-467 | For every field list of the join query: every requested field, the key of every requested edge, nothing else |
| Projection.ScanYieldsProjection | backend/ent/account.go:193-417 | Scanning any column list of a row leaves exactly the projection of its keys |
| Projection.ProjectionKeepsKeys | backend/ent/account_query.go:866-880 | Every key that a requested edge is loaded by survives every projection |
| QueryReuse.LoadProxyWith | backend/ent/account_query.go:688-719 | Correct for the predicates it finds on the query object, and leaves its own behind; only driver errors |
| QueryReuse.ReuseAgreesIff | backend/ent/account_query.go:704-704 | A query object narrowed by an earlier run finds what the caller asked for iff no row passes the caller's predicates or its id was among the earlier keys |
| QueryReuse.LoadTwiceWith | backend/ent/account_query.go:688-719 | Two runs on one query object: the first is correct, the second exactly under that condition, node by node; both leave their predicate |
| QueryReuse.SecondRunLosesARow | backend/ent/account_query.go:704-717 | Two proxies, two accounts, two runs: the first account has its proxy, the query object asks for that one only, the second account is left without the proxy its key names |
| QueryRerun.FaithfulAgain | backend/ent/account_query.go:627-844 | A node loaded by the tree that a run has narrowed and joined at every level is as the tree the caller wrote would have loaded it, over the same tables |
| QueryRerun.JoinReturnsAgain | backend/ent/account_query.go:638-646 | Joined twice for the same accounts, the query returns a row iff it did when joined once |
| QueryRerun.RowsFailAgain | backend/ent/account_query.go:638-687 | After a run without failure, the tree that it leaves behind fails only by panicking, and does so iff some level that had accounts requested groups and its join returned a row |
| QueryRerun.StaysValid | backend/ent/account_query.go:762-764 | The fields that a run adds are valid |
| QueryRerun.LeavesForeignKeys | backend/ent/account_query.go:762-764 | A run leaves the foreign key in the selections of the list edges, and no selection where there was none |
| QueryRerun.LoadAgain | backend/ent/account_query.go:550-844 | Two runs of one query tree over unchanged tables: the second panics iff some level that had accounts requested groups and its join returned a row, and otherwise has the same answer as the first, to its full depth |
| QueryRerun.SecondRunPanicsHere | backend/ent/account_query.go:661-663 | One account in one group: a fresh query with groups answers once and panics when run again |
| QueryRerun.ChangedTablesIff | backend/ent/account_query.go:736-737 | Over changed tables, the second run's parent lookup is right iff there is no such parent or the first run had asked for it |
| QueryRerun.ChangedProxyIff | backend/ent/account_query.go:704-704 | The same for the proxy lookup |
| QueryRerun.ChangedLinkAccountIff | backend/ent/accountgroup_query.go:392-392 | The same for the account of a join entity: no such account, or some join entity of the first run had its key |
| QueryRerun.ChangedLinkGroupIff | backend/ent/accountgroup_query.go:421-421 | The same for its group |
| QueryRerun.ChangedChildrenIff | backend/ent/account_query.go:765-768 | Over changed tables, a node's children are right iff it has none or the first run had the node too; otherwise there are none |
| QueryRerun.ChangedUsageIff | backend/ent/account_query.go:798-801 | The same for its usage logs |
| QueryRerun.ChangedLinksIff | backend/ent/account_query.go:828-831 | The same for its join entities |
| QueryRerun.MovedParentIsLost | backend/ent/account_query.go:736-750 | An account moved to another parent between two runs is found without a parent |
| Singular.AccountFinder.First | backend/ent/account_query.go:208-217 | A matching row, or NotFound only when none matches; the limit stays set |
| Singular.AccountFinder.Only | backend/ent/account_query.go:254-267 | A row only when it is the one match, NotFound only for none, NotSingular only for two or more, from at most two rows |
| Singular.CompleteIff | backend/ent/account_query.go:888-890 | A limited answer is the whole answer iff the limit does not bite |
| Singular.FirstThenAll | backend/ent/account_query.go:208-217 | After `First`, `All` on the same object is complete iff at most one row matches |
| Singular.SecondRowIsLost | backend/ent/account_query.go:208-217 | A table in which two rows match, `First` finds one of them and `All` after it returns only one |
| Singular.OnlyNeedsTwo | backend/ent/account_query.go:255-255 | Limits decide uniqueness exactly when they are not one |
| RowScan.ScanValues | backend/ent/account.go:168-189 | One holder a column, of the kind its dispatch gives |
| RowScan.AssignTarget | backend/ent/account.go:197-417 | The second dispatch expects, for every column, the kind the first one prepared, and writes that column's own field |
| RowScan.AccountFields.AssignValues | backend/ent/account.go:193-417 | Too few values change nothing; otherwise the fields and the error are those of the specified rounds, up to the first error |
| RowScan.ScanThenAssign | backend/ent/account.go:168-417 | For every column list a type error is impossible, and each plain field ends at its last non-NULL occurrence or keeps its value |
| RowScan.LastIdDecides | backend/ent/account.go:199-204 | The id is decided by its last occurrence, NULL or not |
| RowScan.HoldersFit | backend/ent/account.go:18-85 | The prepared holders are exactly those that suit the Go types of the struct fields |
| RowScan.LastValidWins | backend/ent/account.go:193-417 | By index: a string, bool, float, integer or time column's last occurrence that is not NULL decides, and the field holds the value in that very holder (the id: its last occurrence); a column added by a modifier holds its last holder |
| RowScan.NullsKeep | backend/ent/account.go:193-417 | A column that occurs only with NULL or without bytes, or not at all, keeps what it had |
| RowScan.LastJsonDecodes | backend/ent/account.go:249-264 | A JSON column holds what its last non-empty bytes decode to, over what the struct held before |
| RowScan.StopsAt | backend/ent/account.go:253-255 | Bytes that do not decode stop the loop with the error of their own column; what was assigned before stays |
| RowScan.StopsOnlyAtJson | backend/ent/account.go:193-417 | Nothing else stops it: the loop fails iff some column holds such bytes |
| BulkChain.WellBracketed | backend/ent/account_create.go:2102-2143 | In every run the hook events are entries in order without gaps, and then the exits of exactly those hooks in reverse |
| BulkChain.ClearEntersAll | backend/ent/account_create.go:2141-2143 | When nothing gets in the way, every hook is entered |
| BulkChain.ClearMeans | backend/ent/account_create.go:2111-2120 | Nothing gets in the way of the insert iff every remaining check passes and every remaining hook forwards |
| BulkChain.NoInsertUnlessClear | backend/ent/account_create.go:2111-2120 | If a check fails or a hook stops, the insert never runs |
| BulkChain.InsertsOnce | backend/ent/account_create.go:2111-2128 | Otherwise it runs once, after every builder was checked and filled its slot in order, and before any is done |
| BulkChain.StepsInOrder | backend/ent/account_create.go:2111-2120 | In every run, failing or not, checks and fills happen in builder order, each fill after its own check |
| BulkChain.SuccessIff | backend/ent/account_create.go:2119-2138 | With hooks that hide no failure, success iff all is clear, the insert succeeded and no hook objected |
| BulkChain.DoneFromTheEnd | backend/ent/account_create.go:2129-2138 | Builders complete from the last one down without gaps; on success all of them do |
| BulkChain.DoneIsASuffix | backend/ent/account_create.go:2129-2138 | At every moment of a run the completion events run down from the last builder |
| BulkChain.CompletedFrom | backend/ent/account_create.go:2129-2138 | Such a run has completed exactly the builders from some one on |
| BulkChain.HonestIff | backend/ent/account_create.go:2141-2149 | A hook can make an uninserted save succeed iff it answers an error, or without forwarding, with success |
| BulkChain.HonestListsIff | backend/ent/account_create.go:2141-2149 | For any collection of hooks: no save built from them can succeed uninserted iff none of them does that |
| BulkChain.HonestNeverHides | backend/ent/account_create.go:2099-2151 | Under hooks that do not, success implies the insert ran and succeeded |
| BulkChain.ReplyUnwinds | backend/ent/account_create.go:2106-2144 | For any hooks: the reply is the driver's own verdict, turned by one layer after the other from the insert outwards; a failing check or a stopping hook replaces whatever comes from further in |
| BulkChain.UnwindsOneWay | backend/ent/account_create.go:2106-2144 | This determines every reply between the layers |
| BulkChain.TransparentReply | backend/ent/account_create.go:2111-2131 | Behind hooks that pass everything on, the reply is the error of the first failing check, or else exactly the driver's verdict |
| BulkChain.ErrorHasSource | backend/ent/account_create.go:2111-2131 | For any hooks, an error is some hook's own answer, that of the first check to fail, or the driver's as it is |
| BulkChain.ReachesBlocker | backend/ent/account_create.go:2106-2143 | Every run reaches hooks and checks in order down to the first that blocks, and no further |
| BulkChain.FillsIffChecked | backend/ent/account_create.go:2111-2117 | A builder fills its slot iff its check was reached and passed |
| BulkChain.DoneIffAccepted | backend/ent/account_create.go:2129-2138 | For any hooks, a builder is completed iff it filled its slot and the reply from further in was a success |
| BulkCreate.BatchCreate | backend/ent/account_create.go:2122-2128 | The insert oracle: all rows or none, ids for all specs, each that of its own row, or for none |
| BulkCreate.BulkSave.Mutate | backend/ent/account_create.go:2106-2144 | A closure from any of its hooks on: its trace and reply, the rows added, earlier slots untouched, its completed builders correct on the heap, no other mutation marked done; with hooks that hide no failure the builders marked done are, at its exit, exactly those from some one on |
| BulkCreate.BulkSave.Core | backend/ent/account_create.go:2106-2140 | The same for the wrapped function; a failed check leaves slots, mutations and database as they were |
| BulkCreate.BulkSave.CreateSlot | backend/ent/account_create.go:2116-2117 | Fills slot `i` with a new node and spec of builder `i` and touches no other slot |
| BulkCreate.BulkSave.Complete | backend/ent/account_create.go:2132-2138 | The address of the node's id, taken before the id is written, denotes the written id; builders completed before stay correct |
| BulkCreate.BulkSave.Proceed | backend/ent/account_create.go:2118-2128 | The next closure, or for the last one the insert, with all slots filled |
| BulkCreate.SuccessIsComplete | backend/ent/account_create.go:2145-2151 | With hooks that hide no failure, a successful run has inserted and has completed every builder |
| BulkCreate.Save | backend/ent/account_create.go:2094-2151 | All rows or none whatever the hooks do, and a reply that the layers and the driver's verdict determine: behind hooks that pass everything on, exactly the first failing check's error or the verdict; with hooks that hide no failure, success means every row inserted, no node nil, every node with the id of its own row, and an unreachable insert means an error and no rows, and the builders marked done are a suffix of the list in every case |
| ExceptionFile.StripCuts | tools/check_pnpm_audit_exceptions.py:15-20 | Trimming cuts blanks off both ends and nothing else |
| ExceptionFile.StripPadding | tools/check_pnpm_audit_exceptions.py:15-20 | Trimming recovers a text from any padding |
| ExceptionFile.SpacesAre | tools/check_pnpm_audit_exceptions.py:15-20 | The characters that trimming removes, one by one |
| ExceptionFile.UnquoteKeepsIff | tools/check_pnpm_audit_exceptions.py:16-19 | A value is left alone iff it does not start and end with the same kind of quote; otherwise exactly these two are cut off |
| ExceptionFile.BareReadsBackIff | tools/check_pnpm_audit_exceptions.py:15-20 | A value written without quotes reads back unchanged iff it has no outer blanks and does not start and end with one kind of quote |
| ExceptionFile.PaddedRoundTrip | tools/check_pnpm_audit_exceptions.py:12-20 | A pair reads back from any blanks around its colon, in each of the three styles |
| ExceptionFile.PairRoundTrip | tools/check_pnpm_audit_exceptions.py:12-20 | Splitting a printed pair gives back its key and value, written without quotes, in single or in double quotes; between quotes whatever quotes, colons, hashes or blanks the value has |
| ExceptionFile.ParseExceptions | tools/check_pnpm_audit_exceptions.py:23-48 | The loop computes the specified reading, or raises |
| ExceptionFile.ItemHasText | tools/check_pnpm_audit_exceptions.py:38-39 | A trimmed record line always has text after the dash, so that test never fails |
| ExceptionFile.ParseOutcome | tools/check_pnpm_audit_exceptions.py:23-48 | Raises iff some record line has no colon; never returns an empty record |
| ExceptionFile.ParseInvertsPrint | tools/check_pnpm_audit_exceptions.py:23-48 | Any printed list of records, in any mixture of styles, with comments, headers, blank lines, lines without a colon, indentation and repeated keys, and with anything but a record in front, is read back in order |
| AuditGate.RequiredFieldsArePlain | tools/check_pnpm_audit_exceptions.py:9-9 | The round trip covers the required field names |
| AuditReport.IterVulns | tools/check_pnpm_audit_exceptions.py:64-111 | Raises iff the report is unreadable; otherwise yields for each advisory, in order, the finding read off its own keys, and then findings for exactly the advisories that the entries of the other layout name |
| AuditReport.GetFinds | tools/check_pnpm_audit_exceptions.py:69-70 | A key reads as its first entry, or as `None` when there is none |
| AuditReport.FalsyAre | tools/check_pnpm_audit_exceptions.py:53-61 | Exactly which JSON values an `or` chain skips |
| AuditReport.OneAdvisory | tools/check_pnpm_audit_exceptions.py:51-78 | An advisory raises iff it is unreadable; otherwise its name is `module_name` or else `name`, its id the first of GHSA id, URL, first CVE, numeric id, title, advisory, overview, its title the first of title, advisory, overview, URL, and its severity as it is |
| AuditReport.YieldsOneWay | tools/check_pnpm_audit_exceptions.py:51-78 | This determines the finding |
| AuditReport.AdvisoryFindings | tools/check_pnpm_audit_exceptions.py:66-78 | One finding per advisory, in order, each as in the last two rows; raises iff one of them is unreadable |
| AuditReport.EntryFindings | tools/check_pnpm_audit_exceptions.py:80-111 | A finding of the second layout is one of some entry; raises iff one entry does |
| AuditReport.EntriesInOrder | tools/check_pnpm_audit_exceptions.py:82-111 | These findings come entry by entry, in order |
| AuditReport.ViaFindings | tools/check_pnpm_audit_exceptions.py:83-111 | The findings of one entry are its truthy `via` ids, each once and in order, under its name and severity |
| AuditReport.ViaInOrder | tools/check_pnpm_audit_exceptions.py:85-106 | The items of `via` one by one: an object by the first of its own five id keys and four title keys, a text as both, anything else not at all |
| AuditReport.TitlesInOrder | tools/check_pnpm_audit_exceptions.py:109-109 | The truthy titles are joined in order, with `"; "` between them |
| AuditReport.EntryYields | tools/check_pnpm_audit_exceptions.py:80-111 | A readable entry yields a finding for every advisory that its `via` names, and no other, under its own name and severity |
| AuditReport.ReportFindings | tools/check_pnpm_audit_exceptions.py:64-111 | What `IterVulns` states, of the specification |
| AuditReport.AdvisoryRaisesIff | tools/check_pnpm_audit_exceptions.py:51-78 | An advisory raises iff it is not an object, or lacks GHSA id and URL and has `cves` that cannot be indexed |
| AuditReport.VulnerabilityRaisesIff | tools/check_pnpm_audit_exceptions.py:82-109 | An entry raises iff it is not an object or some object of its `via` list has a truthy title that is not a string |
| AuditReport.ReportRaisesIff | tools/check_pnpm_audit_exceptions.py:64-111 | The extraction raises iff the report is not an object or has such an entry |
| AuditReport.FirstTruthyStops | tools/check_pnpm_audit_exceptions.py:53-61 | An `or` chain yields its first truthy value, or its last value |
| AuditReport.StableIdWins | tools/check_pnpm_audit_exceptions.py:51-61 | A GHSA id decides alone, then the URL, then the first CVE, then the numeric id, and only then a title |
| AuditGate.BuildIndex | tools/check_pnpm_audit_exceptions.py:153-185 | The index holds the first usable record of each key; every record opens an entry or gives one error, in order and for its own reason; no errors iff the list is valid |
| AuditGate.WhyRejected | tools/check_pnpm_audit_exceptions.py:156-178 | That reason: exactly the missing or empty required fields, or else a day that does not parse, or else a blank package or advisory |
| AuditGate.CompleteMeans | tools/check_pnpm_audit_exceptions.py:9-9 | The five fields of a complete record |
| AuditGate.NormalizationMeans | tools/check_pnpm_audit_exceptions.py:114-131 | What severity, package and advisory become: trimmed, and lowered except for the package; a number as its text |
| AuditGate.CheckFindings | tools/check_pnpm_audit_exceptions.py:187-219 | The missing and expired lists are the filters of the first findings per key, in order; the errors are those of the findings without an id and of the first findings that mismatch, in order |
| AuditGate.FirstsAreFirst | tools/check_pnpm_audit_exceptions.py:192-206 | De-duplication keeps exactly the first finding of every key |
| AuditGate.IndexDecides | tools/check_pnpm_audit_exceptions.py:207-219 | Against a valid list, a finding passes the index tests iff some exception covers it |
| AuditGate.CleanIffAllowed | tools/check_pnpm_audit_exceptions.py:221-243 | The report is empty iff the policy holds |
| AuditGate.RaisesIff | tools/check_pnpm_audit_exceptions.py:23-219 | A traceback iff a record line has no colon, the report or an entry has an unreadable shape, or a finding's severity is truthy and not a string |
| AuditGate.NumericSourceRaises | tools/check_pnpm_audit_exceptions.py:93-109 | A `via` object with nothing but a numeric `source` is such a report |
| AuditGate.PassNamesAll | tools/check_pnpm_audit_exceptions.py:142-243 | A pass means that every high or critical finding of the report, in either layout, has a record of the same package and advisory, all in terms of the raw file and report |
| AuditGate.RunGate | tools/check_pnpm_audit_exceptions.py:142-243 | Exit code 0 iff the policy holds, 1 otherwise; a traceback iff the inputs are unreadable in that sense; never 0 when a high or critical finding has no record |
| AuditGate.UsableIff | tools/check_pnpm_audit_exceptions.py:156-185 | A record is usable iff all required fields are filled, its date parses, and package and advisory are not blank; what it then stands for |
| AuditPolicy.SeriousIffLookedAt | tools/check_pnpm_audit_exceptions.py:193-202 | A finding is passed over iff it is not high or critical or has no name; an error iff it is serious without an advisory |
| AuditPolicy.CoversRaw | tools/check_pnpm_audit_exceptions.py:156-219 | In terms of the raw record and finding: exactly when one lets the other pass |
| AuditPolicy.SpellingIrrelevant | tools/check_pnpm_audit_exceptions.py:114-131 | Blanks around names, and blanks around and letter case of advisories and severities, never change what the gate sees |
| AuditPolicy.CriticalFails | tools/check_pnpm_audit_exceptions.py:142-243 | An ordinary report of one critical advisory, named by `module_name`, is readable and does not pass without an exception |
| AuditPolicy.PassesEarlier | tools/check_pnpm_audit_exceptions.py:216-219 | A pass on one day is a pass on every earlier day |
| AuditPolicy.ExceptionOrderIrrelevant | tools/check_pnpm_audit_exceptions.py:156-185 | The order of the exceptions never changes the verdict |
| AuditPolicy.VerdictBounds | tools/check_pnpm_audit_exceptions.py:191-219 | The verdict lies between "every finding covered" and "every key has a covered finding" |
| AuditPolicy.LooksPermute | tools/check_pnpm_audit_exceptions.py:193-203 | A permuted report is looked at as a permutation |
| AuditPolicy.ReportOrderIrrelevantIff | tools/check_pnpm_audit_exceptions.py:191-206 | Every order of a report's findings gives the same verdict iff those two coincide on them |
| AuditPolicy.ReportOrderIrrelevantWhenSeveritiesAgree | tools/check_pnpm_audit_exceptions.py:191-206 | In particular when findings with the same normalized package and advisory have the same normalized severity |
| AuditPolicy.OrderMattersHere | tools/check_pnpm_audit_exceptions.py:142-243 | An exception file valid until the end of 2099 and two reports with the same two advisories, in the two orders: up to that day one passes and the other fails |
| Escaping.EscapeSpells | frontend/vite.config.ts:6-14 | The five replacements as the source spells them, each character on its own; every other character stays |
| Escaping.UnescapeInvertsEscape | frontend/vite.config.ts:6-14 | Decoding the five character references undoes the escaping |
| Escaping.EscapeIsInjective | frontend/vite.config.ts:6-14 | Different texts have different escapings |
| Escaping.EscapedIsInert | frontend/vite.config.ts:6-14 | No markup character is left, and every `&` starts one of the five references |
| Escaping.TokensKept | frontend/vite.config.ts:67-69 | Every valid JSON text has the same tokens, strings decoded, after the rewrite of `<` |
| Escaping.RewriteSpells | frontend/vite.config.ts:69-69 | Each `<` becomes the six characters of its unicode escape, and nothing else changes |
| Escaping.PlainUnitsAre | frontend/vite.config.ts:69-69 | The lexer that `TokensKept` rests on lets exactly the characters of JSON structure, numbers and literals stand outside strings |
| Escaping.EscapeTables | frontend/vite.config.ts:69-69 | Its hexadecimal digits and short escapes are those of JSON |
| Escaping.NoLtLeft | frontend/vite.config.ts:67-69 | The rewritten text has no `<` |
| Escaping.QuotedSurvivesRewrite | frontend/vite.config.ts:69-69 | A string quoted as in `JSON.stringify` and rewritten still decodes to itself |

## Left out

Eager loading and scanning:

- SQL text, `sqlgraph`, dialects, contexts, interceptors, transactions and row locks: library code; `Store.Execute` states what is relied on.
- Loaders see rows with their keys only, and of the data columns which ones were fetched; their contents are the subject of `RowScan`, where JSON stays opaque.
- The 64-bit width of ids: they are only compared and copied.
- `Limit`, `Offset` and `Order` inside `AccountQuery.All` and its edge queries: there a limit cuts the one batched answer, not each node's share of it.
- `Singular.AccountFinder.First` and `Singular.AccountFinder.Only` work on rows; their nodes' edges are those of `EagerLoad.All`.
- Edges and projections of the group and proxy queries, and edges of the usage-log query: the same generated templates one level further.
- The query objects are values in `EagerLoad`. What a run leaves on them is the function `QueryRerun.After`, and an object with mutated predicates for the proxy loader in `QueryReuse`.
- A panic ends the run; what the nodes hold by then is not described. Two edges that share one query object are not modelled, nor is a group query with joins used outside `loadGroups`.
- The data columns of the usage-log table are names under one constructor, `UsageData`; validation accepts any of them.
- `AccountGroup.scanValues` and the accessors of the join entity: the same templates with fewer columns.
- The partial write of a failing `json.Unmarshal`, and its merging into an existing map: an opaque function here.
- `Count`, `IDs`, `GroupBy`, `Select`, `Aggregate`, `Clone` and the panicking wrappers.

Bulk creation:

- A hook is what it does in one run: stop with a reply, or forward the same mutation once and answer each outcome. Forwarding twice, replacing the mutation, changing its fields before the check, and nil hooks are not modelled.
- The ignored error of `defaults()` (line 2105), the wrapping text of constraint errors, `OnConflict`, and `createSpec` column by column.
- BulkCreate.BulkSave.Complete: when two builders share one mutation object, the id address in it is stated for the builder completed last only.

Audit gate:

- Reading files and splitting them into lines, argument parsing, JSON syntax, error texts and the clock; lines, report tree and day are inputs.
- Python's `str.lower`, `repr` and `date.fromisoformat` are parameters; `AuditPolicy.CoversRaw` uses of `lower` only that it keeps the empty string.
- The order in which missing fields are listed in one error text: a Python set has none.
- Repeated keys in one JSON object: the parser has dropped all but one.

Escaping:

- `injectBranding`, `isSafeImageUrl` and the replacement patterns of `String.prototype.replace`; the escaping functions are proved on their own.
- `Escaping.TokensKept` is stated at the token level of JSON; the grammar above tokens does not see string contents. Lone surrogates, which `JSON.stringify` escapes, are quoted as they are.

Elsewhere: the update builders, upserts, setters, and the announcement, API-key and identity entities, which repeat these templates.
