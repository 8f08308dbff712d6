# OrientDB: delete task, level-zero SQL identifier, graph importer bookkeeping

This project models three pieces of OrientDB and proves properties of them.

- **The replicated delete task (`ODeleteRecordTask`).** On each server it first captures the record as undo material. A record that is already gone counts as a success. Otherwise the record goes through edge removal, vertex removal or a raw delete, depending on its schema class, and a "record not found" failure is absorbed. The task also builds its compensation tasks: a "fix create" task and, when a snapshot exists, a non-locking "resurrect" task. The local database is a map from record id to record. The graph layer's removals and the storage's delete are calls recorded in `Database.calls`.
- **The SQL parse-tree node `OLevelZeroIdentifier`.** It is a function call, `@this` or a collection literal. `toString` and `execute` check these three in different priority orders. The node also gives aggregation, early-calculation, expansion and indexed-function answers. The children `OFunctionCall` and `OCollection` are abstract: each carries, as fields, the answers its own methods give.
- **The sequential bookkeeping of the bulk importer `OGraphImporter`.** This covers:
  - the registration guards;
  - routing a vertex or an edge to a worker by hash bucket;
  - the naming of workers in `begin`;
  - cluster locks taken in sorted order and released;
  - the per-owner table of vertices being created;
  - the loop that tops up the number of clusters of every used class.

Module layout:

- `common.dfy`: Option/Result, the Java `long` range, Java's decimal rendering of integers, and string order with a list sort.
- `delete_record_task.dfy`: the delete task.
- `level_zero_identifier.dfy`: the identifier node.
- `graph_importer.dfy`: the importer.

Each model follows its source's form. The task and the importer are classes whose methods update their fields: the snapshot, the database, and the importer's maps and lists. Their loops are `while` loops with invariants, and each method is tied to a pure specification function or predicate with lemmas about it. The identifier node consists of pure functions.

## Model

Paths are relative to the repository root. `ODeleteRecordTask.java` is `distributed/src/main/java/com/orientechnologies/orient/server/distributed/impl/task/ODeleteRecordTask.java`. The other two are given in full in the table.

| member | source | states |
|---|---|---|
| DeleteRecordTask.Execute | distributed/src/main/java/com/orientechnologies/orient/server/distributed/impl/task/ODeleteRecordTask.java:66-112 | One execution always returns true. Its snapshot is the captured one. With no snapshot, the store is unchanged and no removal is requested. Otherwise exactly one removal is requested, of the path the corrected classification picks, on the snapshot's identity. That record leaves the store and every other record stays as it was. (Corrected, see Findings: the source throws a NullPointerException for a document without a schema class.) |
| DeleteRecordTask.DeleteRecordTask.ExecuteRecordTask | distributed/src/main/java/com/orientechnologies/orient/server/distributed/impl/task/ODeleteRecordTask.java:66-112 | The result, the new snapshot, the new store and the calls appended to the database are those of `Execute` on the old state. The store stays consistent. (Corrected as `Execute` is: a document without a schema class is deleted raw.) |
| DeleteRecordTask.DeleteRecordTask.PrepareUndoOperation | distributed/src/main/java/com/orientechnologies/orient/server/distributed/impl/task/ODeleteRecordTask.java:73 | The snapshot becomes `Capture` of the store. A snapshot already held is kept. |
| DeleteRecordTask.Capture | distributed/src/main/java/com/orientechnologies/orient/server/distributed/impl/task/ODeleteRecordTask.java:73-76 | A held snapshot is kept. Otherwise a snapshot exists iff the record is stored, and then it is the stored record. |
| DeleteRecordTask.RemovalPathOf | distributed/src/main/java/com/orientechnologies/orient/server/distributed/impl/task/ODeleteRecordTask.java:81-105 | Edge removal iff the document's class is an edge type. Vertex removal iff it is a vertex type and not an edge type, so the edge test comes first. Raw delete otherwise, including a document without a class (corrected). |
| DeleteRecordTask.RemovalPathAsWritten | distributed/src/main/java/com/orientechnologies/orient/server/distributed/impl/task/ODeleteRecordTask.java:81-92 | The classification as written fails iff the document has no schema class. Otherwise it agrees with `RemovalPathOf`. |
| DeleteRecordTask.ClasslessDocumentAsWritten | distributed/src/main/java/com/orientechnologies/orient/server/distributed/impl/task/ODeleteRecordTask.java:82 | A class-less document makes the classification as written throw a NullPointerException. The corrected classification deletes it raw. |
| DeleteRecordTask.AlreadyDeleted | distributed/src/main/java/com/orientechnologies/orient/server/distributed/impl/task/ODeleteRecordTask.java:73-76 | A missing record gives true, no snapshot, no removal of any kind, and an unchanged store. |
| DeleteRecordTask.EdgeGoesThroughGraph | distributed/src/main/java/com/orientechnologies/orient/server/distributed/impl/task/ODeleteRecordTask.java:81-91 | An edge document gives true and exactly one edge removal, never a raw delete or a vertex removal. |
| DeleteRecordTask.VertexGoesThroughGraph | distributed/src/main/java/com/orientechnologies/orient/server/distributed/impl/task/ODeleteRecordTask.java:92-101 | A vertex document that is not an edge gives true and exactly one vertex removal, never a raw delete or an edge removal. |
| DeleteRecordTask.OtherRecordsRawDeleted | distributed/src/main/java/com/orientechnologies/orient/server/distributed/impl/task/ODeleteRecordTask.java:105-111 | Any other record gets exactly one raw delete, the result is true, and the record is gone. |
| DeleteRecordTask.SecondExecution | distributed/src/main/java/com/orientechnologies/orient/server/distributed/impl/task/ODeleteRecordTask.java:73-111 | Executing the same task again keeps the first snapshot and returns true. The store does not change again: the missing record's not-found failure is absorbed. |
| DeleteRecordTask.CapturedIsRemoved | distributed/src/main/java/com/orientechnologies/orient/server/distributed/impl/task/ODeleteRecordTask.java:78 | The removal works on a copy. The snapshot left as undo material is exactly the record that was removed, under its own id. |
| DeleteRecordTask.Database.Load | distributed/src/main/java/com/orientechnologies/orient/server/distributed/impl/task/ODeleteRecordTask.java:73 | Finds a record iff it is stored, and returns the stored record. |
| DeleteRecordTask.Database.RemoveEdge | distributed/src/main/java/com/orientechnologies/orient/server/distributed/impl/task/ODeleteRecordTask.java:84-90 | The edge leaves the store and one edge removal is recorded. |
| DeleteRecordTask.Database.RemoveVertex | distributed/src/main/java/com/orientechnologies/orient/server/distributed/impl/task/ODeleteRecordTask.java:94-100 | The vertex leaves the store and one vertex removal is recorded. |
| DeleteRecordTask.Database.Delete | distributed/src/main/java/com/orientechnologies/orient/server/distributed/impl/task/ODeleteRecordTask.java:105-109 | The record leaves the store and one raw delete is recorded. The delete reports not-found iff the record was missing. |
| DeleteRecordTask.DeleteRecordTask.constructor | distributed/src/main/java/com/orientechnologies/orient/server/distributed/impl/task/ODeleteRecordTask.java:56-59 | `init(rid, version)` sets the id and version and leaves no snapshot. |
| DeleteRecordTask.DeleteRecordTask.FromRecord | distributed/src/main/java/com/orientechnologies/orient/server/distributed/impl/task/ODeleteRecordTask.java:52-54 | A task built from a record takes that record's identity and version. |
| DeleteRecordTask.DeleteRecordTask.GetQuorumType | distributed/src/main/java/com/orientechnologies/orient/server/distributed/impl/task/ODeleteRecordTask.java:114-117 | Always WRITE. |
| DeleteRecordTask.DeleteRecordTask.IsIdempotent | distributed/src/main/java/com/orientechnologies/orient/server/distributed/impl/task/ODeleteRecordTask.java:157-160 | Always false. |
| DeleteRecordTask.DeleteRecordTask.GetFactoryId | distributed/src/main/java/com/orientechnologies/orient/server/distributed/impl/task/ODeleteRecordTask.java:152-155 | Always 4, the constant declared at line 47. |
| DeleteRecordTask.DeleteRecordTask.GetRecord | distributed/src/main/java/com/orientechnologies/orient/server/distributed/impl/task/ODeleteRecordTask.java:61-64 | Always no record. |
| DeleteRecordTask.DeleteRecordTask.CheckRecordExists | distributed/src/main/java/com/orientechnologies/orient/server/distributed/impl/task/ODeleteRecordTask.java:137-140 | Never fails and changes nothing, whatever the database holds. |
| DeleteRecordTask.DeleteRecordTask.GetName | distributed/src/main/java/com/orientechnologies/orient/server/distributed/impl/task/ODeleteRecordTask.java:142-145 | The name is `record_delete`. |
| DeleteRecordTask.DeleteRecordTask.ToString | distributed/src/main/java/com/orientechnologies/orient/server/distributed/impl/task/ODeleteRecordTask.java:147-150 | The name, then `(`, then the record id's rendering, then `)`. |
| DeleteRecordTask.ToStringIdentifiesRecord | distributed/src/main/java/com/orientechnologies/orient/server/distributed/impl/task/ODeleteRecordTask.java:147-150 | Two tasks that render alike delete the same record. |
| DeleteRecordTask.RecordIdToString | distributed/src/main/java/com/orientechnologies/orient/server/distributed/impl/task/ODeleteRecordTask.java:149 | The rendering `#cluster:position` starts with `#` and has at least four characters. |
| DeleteRecordTask.RecordIdToStringInjective | distributed/src/main/java/com/orientechnologies/orient/server/distributed/impl/task/ODeleteRecordTask.java:149 | Distinct record ids render distinctly, so `toString` identifies the task's record. |
| DeleteRecordTask.DeleteRecordTask.GetFixTask | distributed/src/main/java/com/orientechnologies/orient/server/distributed/impl/task/ODeleteRecordTask.java:119-124 | A fix-create task carrying exactly this task's record id and version. |
| DeleteRecordTask.CreateFixCreateTask | distributed/src/main/java/com/orientechnologies/orient/server/distributed/impl/task/ODeleteRecordTask.java:122-123 | The factory's fix-create task initialised with the given id and version. It still locks records. |
| DeleteRecordTask.DeleteRecordTask.GetUndoTask | distributed/src/main/java/com/orientechnologies/orient/server/distributed/impl/task/ODeleteRecordTask.java:126-135 | There is no undo task iff there is no snapshot. Otherwise it is a resurrect task of the snapshot, with the snapshot's id and version, and it does not lock records. |
| DeleteRecordTask.CreateResurrectTask | distributed/src/main/java/com/orientechnologies/orient/server/distributed/impl/task/ODeleteRecordTask.java:131-132 | The factory's resurrect task initialised from the record, locking records by default. |
| LevelZeroIdentifier.Render | core/src/main/java/com/orientechnologies/orient/core/sql/parser/OLevelZeroIdentifier.java:34-42 | Rendering follows the order of `RenderedPart`: the function call's rendering, else `@this` when `self` is TRUE, else the collection's rendering, else nothing. |
| LevelZeroIdentifier.ToString | core/src/main/java/com/orientechnologies/orient/core/sql/parser/OLevelZeroIdentifier.java:34-42 | The builder keeps its content as a prefix, and the node's rendering is appended after it. |
| LevelZeroIdentifier.Execute | core/src/main/java/com/orientechnologies/orient/core/sql/parser/OLevelZeroIdentifier.java:44-68 | Execution follows the order of `ExecutedPart`: the function call, else the collection, else the current record itself for `@this`. It fails with UnsupportedOperationException iff none is present. This holds for both overloads. |
| LevelZeroIdentifier.DispatchOrdersDiffer | core/src/main/java/com/orientechnologies/orient/core/sql/parser/OLevelZeroIdentifier.java:34-68 | `toString` and `execute` pick different parts iff there is no function call, `self` is TRUE and a collection is present. |
| LevelZeroIdentifier.DispatchOrdersAgree | core/src/main/java/com/orientechnologies/orient/core/sql/parser/OLevelZeroIdentifier.java:34-68 | On a node with exactly one alternative, both pick that alternative. |
| LevelZeroIdentifier.SelfIsIdentity | core/src/main/java/com/orientechnologies/orient/core/sql/parser/OLevelZeroIdentifier.java:51-53 | `@this` alone evaluates to the record it is given. |
| LevelZeroIdentifier.RenderAndExecuteDisagree | core/src/main/java/com/orientechnologies/orient/core/sql/parser/OLevelZeroIdentifier.java:34-68 | A node holding `@this` and a collection renders as `@this` but evaluates through the collection. |
| LevelZeroIdentifier.IsIndexedFunctionCall | core/src/main/java/com/orientechnologies/orient/core/sql/parser/OLevelZeroIdentifier.java:70-75 | True iff there is a function call and it is an indexed one. |
| LevelZeroIdentifier.EstimateIndexedFunction | core/src/main/java/com/orientechnologies/orient/core/sql/parser/OLevelZeroIdentifier.java:77-83 | -1 without a function call, else the function call's estimate. |
| LevelZeroIdentifier.ExecuteIndexedFunction | core/src/main/java/com/orientechnologies/orient/core/sql/parser/OLevelZeroIdentifier.java:85-91 | No result without a function call, else the function call's result. |
| LevelZeroIdentifier.IsExpand | core/src/main/java/com/orientechnologies/orient/core/sql/parser/OLevelZeroIdentifier.java:93-98 | True iff there is a function call and it is an expand. |
| LevelZeroIdentifier.GetExpandContent | core/src/main/java/com/orientechnologies/orient/core/sql/parser/OLevelZeroIdentifier.java:100-105 | Succeeds iff the function call has exactly one parameter, and then gives that parameter. Otherwise it raises "Invalid expand expression: " followed by the call, or a NullPointerException without a call. |
| LevelZeroIdentifier.NeedsAliases | core/src/main/java/com/orientechnologies/orient/core/sql/parser/OLevelZeroIdentifier.java:107-115 | True iff the function call or the collection needs the aliases. |
| LevelZeroIdentifier.IsAggregate | core/src/main/java/com/orientechnologies/orient/core/sql/parser/OLevelZeroIdentifier.java:117-125 | True iff the function call or the collection aggregates. |
| LevelZeroIdentifier.IsEarlyCalculated | core/src/main/java/com/orientechnologies/orient/core/sql/parser/OLevelZeroIdentifier.java:127-138 | True iff the function call is early-calculated, or `self` is not TRUE and the collection is early-calculated. |
| LevelZeroIdentifier.SelfBlocksEarlyCollection | core/src/main/java/com/orientechnologies/orient/core/sql/parser/OLevelZeroIdentifier.java:131-133 | With `self` TRUE and no early function call, the node is not early-calculated, whatever the collection says. |
| LevelZeroIdentifier.SplitForAggregation | core/src/main/java/com/orientechnologies/orient/core/sql/parser/OLevelZeroIdentifier.java:140-160 | A node that does not aggregate comes back unchanged. A function call's split that is a function call is wrapped in a fresh node, and any other split is returned as it is. Without a function call, a fresh node holds only the split collection. |
| LevelZeroIdentifier.SplitNeverFails | core/src/main/java/com/orientechnologies/orient/core/sql/parser/OLevelZeroIdentifier.java:153-154 | The IllegalStateException branch is unreachable. |
| LevelZeroIdentifier.GetAggregationContext | core/src/main/java/com/orientechnologies/orient/core/sql/parser/OLevelZeroIdentifier.java:162-170 | Succeeds iff the node aggregates and has a function call, and then gives the call's context. Otherwise it raises "cannot aggregate on " followed by the node's rendering. |
| LevelZeroIdentifier.CollectionAggregateHasNoContext | core/src/main/java/com/orientechnologies/orient/core/sql/parser/OLevelZeroIdentifier.java:162-170 | A node that aggregates only through its collection still fails. |
| GraphImporter.JavaAbs | graphdb/src/main/java/com/orientechnologies/orient/graph/importer/OGraphImporter.java:469 | `Math.abs` gives the absolute value, except for `Long.MIN_VALUE`, which it returns unchanged. |
| GraphImporter.JavaRem | graphdb/src/main/java/com/orientechnologies/orient/graph/importer/OGraphImporter.java:470 | The remainder is smaller in magnitude than the divisor and has the dividend's sign. With the quotient rounded toward zero (`JavaQuot`), quotient times divisor plus remainder gives back the dividend, as Java's `/` and `%` promise. |
| GraphImporter.Bucket | graphdb/src/main/java/com/orientechnologies/orient/graph/importer/OGraphImporter.java:468-470 | Fails with ArithmeticException iff `parallel` is 0. Otherwise `Long.MIN_VALUE` goes to bucket 0, and any other hash to abs(hash) mod abs(parallel), which lies in [0, abs(parallel)). |
| GraphImporter.MinValueGuardIsNeeded | graphdb/src/main/java/com/orientechnologies/orient/graph/importer/OGraphImporter.java:469 | Without the `Long.MIN_VALUE` guard, the bucket for `Long.MIN_VALUE` with 3 workers would be -2. |
| GraphImporter.GraphImporter.constructor | graphdb/src/main/java/com/orientechnologies/orient/graph/importer/OGraphImporter.java:54-70 | A new importer has the given `parallel`, nothing registered, no workers, no locks and no holds. |
| GraphImporter.GraphImporter.SetParallel | graphdb/src/main/java/com/orientechnologies/orient/graph/importer/OGraphImporter.java:299-301 | Sets `parallel`. The importer's invariant survives when `begin` has not run. |
| GraphImporter.GraphImporter.RegisterVertexClass | graphdb/src/main/java/com/orientechnologies/orient/graph/importer/OGraphImporter.java:248-253 | After `begin` it fails with the source's IllegalStateException and changes nothing. Before it, it records the (id name, id type) pair and an empty pending table for the class. |
| GraphImporter.GraphImporter.RegisterEdgeClass | graphdb/src/main/java/com/orientechnologies/orient/graph/importer/OGraphImporter.java:266-271 | After `begin` it fails with the source's IllegalStateException and changes nothing. Before it, it appends the (edge, source, destination) triple. |
| GraphImporter.GraphImporter.IsRegisteredEdgeClassAsWritten | graphdb/src/main/java/com/orientechnologies/orient/graph/importer/OGraphImporter.java:273-275 | The check as written is true iff a vertex class has that name. |
| GraphImporter.GraphImporter.IsRegisteredEdgeClass | graphdb/src/main/java/com/orientechnologies/orient/graph/importer/OGraphImporter.java:273-275 | The corrected check is true iff an edge class of that name was registered. |
| GraphImporter.EdgeClassCheckMismatch | graphdb/src/main/java/com/orientechnologies/orient/graph/importer/OGraphImporter.java:274 | With users and friends registered, the check as written denies `Friend` and accepts `User`. |
| GraphImporter.TopUpClusters | graphdb/src/main/java/com/orientechnologies/orient/graph/importer/OGraphImporter.java:441-444 | The existing clusters are kept as a prefix, followed by `name_k` for each missing position k up to `parallel`. The length becomes max(existing, parallel + 1). |
| GraphImporter.IndexedName | graphdb/src/main/java/com/orientechnologies/orient/graph/importer/OGraphImporter.java:443 | The name `className_index` of a numbered cluster: the class name, `_`, then the decimal rendering of the index. |
| GraphImporter.IndexedNameInjective | graphdb/src/main/java/com/orientechnologies/orient/graph/importer/OGraphImporter.java:443 | Two numbered names of one class are equal only for equal indices, so the top-up never adds a duplicate cluster name. |
| GraphImporter.ToppedUpMeaning | graphdb/src/main/java/com/orientechnologies/orient/graph/importer/OGraphImporter.java:441-444 | After the top-up a class has at least `parallel + 1` clusters. A class that already had that many is unchanged. |
| GraphImporter.ToppedUpAgain | graphdb/src/main/java/com/orientechnologies/orient/graph/importer/OGraphImporter.java:455-458 | Topping up a class a second time adds nothing. This covers an edge class registered twice, or an edge class that is also a vertex class. |
| GraphImporter.TopUpClass | graphdb/src/main/java/com/orientechnologies/orient/graph/importer/OGraphImporter.java:440-444 | One pass of the top-up keeps the schema topped up for the classes seen so far plus this one. |
| GraphImporter.TopUpVertexClasses | graphdb/src/main/java/com/orientechnologies/orient/graph/importer/OGraphImporter.java:406-445 | Every vertex class is topped up, and every other class keeps its clusters. |
| GraphImporter.TopUpEdgeClasses | graphdb/src/main/java/com/orientechnologies/orient/graph/importer/OGraphImporter.java:448-459 | Every edge class is topped up, and the earlier classes stay topped up. |
| GraphImporter.GraphImporter.CreateBaseSchema | graphdb/src/main/java/com/orientechnologies/orient/graph/importer/OGraphImporter.java:393-460 | The schema gains V, E and the used classes and nothing else. Every used class is topped up from its existing or newly created clusters, and every other class keeps its clusters. |
| GraphImporter.AddEdgeRow | graphdb/src/main/java/com/orientechnologies/orient/graph/importer/OGraphImporter.java:131-140 | Adds `src_i-[edge]-dst_j` for every j in range. Every worker stays under its own key and registered. |
| GraphImporter.EdgeWorkerKey | graphdb/src/main/java/com/orientechnologies/orient/graph/importer/OGraphImporter.java:138-139 | The worker name `src_i-[edge]-dst_j` under which an edge worker is stored and, at lines 484-485, looked up. |
| GraphImporter.EdgeWorkerKeyInjective | graphdb/src/main/java/com/orientechnologies/orient/graph/importer/OGraphImporter.java:138-139 | Equal worker names of one edge class mean equal source and destination buckets, so no worker of `begin`'s edge loops replaces another. |
| GraphImporter.AddEdgeWorkers | graphdb/src/main/java/com/orientechnologies/orient/graph/importer/OGraphImporter.java:130-141 | Adds every `src_i-[edge]-dst_j` for i and j in range. |
| GraphImporter.AddVertexWorkers | graphdb/src/main/java/com/orientechnologies/orient/graph/importer/OGraphImporter.java:145-149 | Adds `C_i` for every i in range. |
| GraphImporter.VertexWorkerKey | graphdb/src/main/java/com/orientechnologies/orient/graph/importer/OGraphImporter.java:148 | The worker name `C_i` of a vertex class: the class name, `_`, then the decimal rendering of the bucket. |
| GraphImporter.StartEdgeWorkers | graphdb/src/main/java/com/orientechnologies/orient/graph/importer/OGraphImporter.java:127-142 | Every (edge class, i, j) with i and j in range gets its worker `src_i-[edge]-dst_j`. The workers already there stay, each under its own key. |
| GraphImporter.StartVertexWorkers | graphdb/src/main/java/com/orientechnologies/orient/graph/importer/OGraphImporter.java:144-150 | Every (vertex class, i) with i in range gets its worker `C_i`. The workers already there stay, each under its own key. |
| GraphImporter.StartWorkers | graphdb/src/main/java/com/orientechnologies/orient/graph/importer/OGraphImporter.java:126-150 | Afterwards every (edge class, i, j) and every (vertex class, i) has a worker under its key. Every worker is stored under its own key and belongs to a registered class and buckets in range. |
| GraphImporter.CollectClusterLocks | graphdb/src/main/java/com/orientechnologies/orient/graph/importer/OGraphImporter.java:152-168 | The lock names are exactly the cluster names of the used classes. |
| GraphImporter.GraphImporter.Begin | graphdb/src/main/java/com/orientechnologies/orient/graph/importer/OGraphImporter.java:106-171 | Registration closes and the schema is topped up. Every class and bucket combination has a worker, and the invariant holds. The locks gain exactly the clusters of the used classes. |
| GraphImporter.GraphImporter.StartThreads | graphdb/src/main/java/com/orientechnologies/orient/graph/importer/OGraphImporter.java:126-168 | The importer becomes begun and its invariant holds. Every class and bucket combination has a worker, no worker is lost, and the given lock names are added. |
| GraphImporter.GraphImporter.BucketOf | graphdb/src/main/java/com/orientechnologies/orient/graph/importer/OGraphImporter.java:491-495 | The bucket of a key of a registered class: 0 for a hash of `Long.MIN_VALUE`, otherwise abs(hash) mod abs(parallel), always in [0, abs(parallel)). |
| GraphImporter.GraphImporter.CreateVertex | graphdb/src/main/java/com/orientechnologies/orient/graph/importer/OGraphImporter.java:194-203 | Fails with the source's message unless the class is registered. Before `begin` it fails with a NullPointerException, and with ArithmeticException when `parallel` is 0. Otherwise it looks up `C_i`, where i is the key's bucket (corrected). When a worker is stored there, it returns that worker. When none is, it fails with a NullPointerException, as `threads.get` returning null does. That is always the case for a negative `parallel`, and never for a positive one. |
| GraphImporter.GraphImporter.CreateVertexAsWritten | graphdb/src/main/java/com/orientechnologies/orient/graph/importer/OGraphImporter.java:488-498 | Has the same guards. It can only succeed with a worker registered under `C_i->C_i`. |
| GraphImporter.VertexLookupKeyAsWritten | graphdb/src/main/java/com/orientechnologies/orient/graph/importer/OGraphImporter.java:497 | The key the vertex router looks up as written: `C_i`, then `->`, then `C_i` again. |
| GraphImporter.AsWrittenVertexKeyNeverRegistered | graphdb/src/main/java/com/orientechnologies/orient/graph/importer/OGraphImporter.java:497 | While no registered name contains `>`, no worker is stored under `C_i->C_i`, so `createVertex` as written always fails. |
| GraphImporter.VertexKeyRegistered | graphdb/src/main/java/com/orientechnologies/orient/graph/importer/OGraphImporter.java:144-149 | After `begin`, the key `C_i` of the corrected vertex router is always registered. |
| GraphImporter.GraphImporter.CreateEdge | graphdb/src/main/java/com/orientechnologies/orient/graph/importer/OGraphImporter.java:221-235 | Fails with the source's message unless the source class is registered, then likewise for the destination. Before `begin` it fails with a NullPointerException, and with ArithmeticException when `parallel` is 0. Otherwise it looks up `src_i-[edge]-dst_j`, each bucket hashed under its own class's key type (corrected). When a worker is stored there, it returns that worker. When none is, it fails with a NullPointerException, as the null from `threads.get` does at line 232. The lookup always fails for a negative `parallel`, and always succeeds for a positive one with a registered edge class. |
| GraphImporter.GraphImporter.CreateEdgeAsWritten | graphdb/src/main/java/com/orientechnologies/orient/graph/importer/OGraphImporter.java:462-486 | When the two key types agree, the result is that of the corrected router. Otherwise the destination is hashed without its serializer, and a failure of that hash is the call's failure. Any success returns the worker stored under `src_i-[edge]-dst_j` with that hash's destination bucket. When no worker is stored there, or `parallel` is negative, the call fails. |
| GraphImporter.DestinationBucketAsWritten | graphdb/src/main/java/com/orientechnologies/orient/graph/importer/OGraphImporter.java:473-482 | When the key types agree, it is the bucket of the destination key under its own type. Otherwise it is the failure of the serializer-less hash, or the bucket of the value that hash gives. |
| GraphImporter.DestinationBucketAsWrittenDiffers | graphdb/src/main/java/com/orientechnologies/orient/graph/importer/OGraphImporter.java:475-478 | With differing key types and a serializer-less hash that gives a value, the destination bucket can differ from the one the vertex router gives the same vertex. |
| GraphImporter.DestinationBucketAsWrittenFails | graphdb/src/main/java/com/orientechnologies/orient/graph/importer/OGraphImporter.java:475-478 | With differing key types and a serializer-less hash that fails, the edge router as written fails where the corrected one finds a bucket. |
| GraphImporter.EdgeKeyRegistered | graphdb/src/main/java/com/orientechnologies/orient/graph/importer/OGraphImporter.java:484-485 | After `begin`, the key that the edge router builds for a registered edge class is always registered. |
| GraphImporter.LockOrder | graphdb/src/main/java/com/orientechnologies/orient/graph/importer/OGraphImporter.java:335-345 | The lock order is ascending in string order and is a permutation of source, destination and edge. |
| GraphImporter.LockList | graphdb/src/main/java/com/orientechnologies/orient/graph/importer/OGraphImporter.java:336-343 | The list `lockClusters` builds: the source first, then the destination when given, then the edge when given. |
| GraphImporter.LockOrderMembers | graphdb/src/main/java/com/orientechnologies/orient/graph/importer/OGraphImporter.java:335-345 | The same names appear in the lock order as in the list of source, destination and edge. |
| GraphImporter.LockOrderIsGlobal | graphdb/src/main/java/com/orientechnologies/orient/graph/importer/OGraphImporter.java:344-350 | Any two positions of the lock order are in string order, so two callers never take a pair of locks in opposite orders. |
| GraphImporter.LockOrderIsTheSortedList | graphdb/src/main/java/com/orientechnologies/orient/graph/importer/OGraphImporter.java:344-345 | Any ascending permutation of the list is the lock order, so it does not depend on the sort used. |
| GraphImporter.GraphImporter.AcquireInOrder | graphdb/src/main/java/com/orientechnologies/orient/graph/importer/OGraphImporter.java:348-351 | Locks are taken as a prefix of the order. A cluster without a lock stops the loop with a NullPointerException after the earlier locks are taken. One hold is added per taken lock. It keeps the importer's invariant: only existing locks are held, and none before `begin`. |
| GraphImporter.GraphImporter.LockClusters | graphdb/src/main/java/com/orientechnologies/orient/graph/importer/OGraphImporter.java:335-352 | Locks are taken in the sorted order. The call succeeds iff every named cluster has a lock, and then every lock is taken once. |
| GraphImporter.ReleaseAllMeaning | graphdb/src/main/java/com/orientechnologies/orient/graph/importer/OGraphImporter.java:354-362 | Releasing a list succeeds iff every lock exists and is held at least as often as the list names it. Then it removes exactly one hold per entry. |
| GraphImporter.ReleaseAll | graphdb/src/main/java/com/orientechnologies/orient/graph/importer/OGraphImporter.java:354-362 | The unlocks in order, stopping at the first cluster without a lock (NullPointerException) or not held (IllegalMonitorState). Holds are only ever taken away. |
| GraphImporter.ReleaseAllAppend | graphdb/src/main/java/com/orientechnologies/orient/graph/importer/OGraphImporter.java:354-362 | Releasing `a + b` releases `a` and then, unless that failed, `b`. |
| GraphImporter.GraphImporter.Unlock | graphdb/src/main/java/com/orientechnologies/orient/graph/importer/OGraphImporter.java:355 | A missing lock raises a NullPointerException, and a lock not held raises IllegalMonitorStateException. Otherwise one hold is removed. |
| GraphImporter.GraphImporter.UnlockIfGiven | graphdb/src/main/java/com/orientechnologies/orient/graph/importer/OGraphImporter.java:357-361 | An absent cluster releases nothing. A given one is released as `Unlock` does. |
| GraphImporter.GraphImporter.UnlockClusters | graphdb/src/main/java/com/orientechnologies/orient/graph/importer/OGraphImporter.java:354-362 | Source, destination and edge are released in that order, stopping at the first failure, as `ReleaseAll` describes. |
| GraphImporter.UnlockUndoesLock | graphdb/src/main/java/com/orientechnologies/orient/graph/importer/OGraphImporter.java:335-362 | When every named cluster has a lock, releasing the locks in `unlockClusters`' order, after `lockClusters` added one hold per lock in sorted order, succeeds and restores exactly the holds there were before. |
| GraphImporter.ReleaseUndoesTaking | graphdb/src/main/java/com/orientechnologies/orient/graph/importer/OGraphImporter.java:349-362 | Releasing every lock of a list, after one hold was added for each name of any rearrangement of it, succeeds and restores the holds. |
| GraphImporter.GraphImporter.TryLockVertexCreation | graphdb/src/main/java/com/orientechnologies/orient/graph/importer/OGraphImporter.java:364-371 | An unregistered class raises a NullPointerException. Otherwise it succeeds iff the key is free or is already the owner's. A free key becomes the owner's, and nothing else changes. |
| GraphImporter.ReleaseInTable | graphdb/src/main/java/com/orientechnologies/orient/graph/importer/OGraphImporter.java:385-389 | The table keeps exactly the entries of other owners, unchanged. |
| GraphImporter.RemoveOwnedEntries | graphdb/src/main/java/com/orientechnologies/orient/graph/importer/OGraphImporter.java:385-389 | The iterator loop leaves `ReleaseInTable` of the table. |
| GraphImporter.ReleaseOwner | graphdb/src/main/java/com/orientechnologies/orient/graph/importer/OGraphImporter.java:381-391 | Every class keeps its table. No entry of the owner remains, and every other owner's entry is kept unchanged. |
| GraphImporter.GraphImporter.UnlockCreation | graphdb/src/main/java/com/orientechnologies/orient/graph/importer/OGraphImporter.java:381-391 | The pending tables become `ReleaseOwner` of the old ones. |
| GraphImporter.RemoveOwnerEverywhere | graphdb/src/main/java/com/orientechnologies/orient/graph/importer/OGraphImporter.java:384-390 | The loop over the classes' tables leaves each without exactly the owner's entries, which is `ReleaseOwner`. |
| GraphImporter.AcquireThenRelease | graphdb/src/main/java/com/orientechnologies/orient/graph/importer/OGraphImporter.java:364-391 | Taking a free key and then releasing the owner's entries leaves what releasing alone leaves. |
| GraphImporter.ReleaseKeepsOthers | graphdb/src/main/java/com/orientechnologies/orient/graph/importer/OGraphImporter.java:381-391 | Releasing is idempotent, and another owner's entries survive it. |
| Common.SortStrings | graphdb/src/main/java/com/orientechnologies/orient/graph/importer/OGraphImporter.java:344-345 | The result is ascending in string order and is a permutation of the input. |
| Common.AscendingUnique | graphdb/src/main/java/com/orientechnologies/orient/graph/importer/OGraphImporter.java:344-345 | Two ascending lists with the same elements are equal. |
| Common.NatToString | distributed/src/main/java/com/orientechnologies/orient/server/distributed/impl/task/ODeleteRecordTask.java:149 | The decimal digits of a natural number, with a leading zero only for 0 itself. |
| Common.IntToString | distributed/src/main/java/com/orientechnologies/orient/server/distributed/impl/task/ODeleteRecordTask.java:149 | Java's decimal rendering. A non-negative value renders as digits only, with no leading zero except for 0 itself. A negative value renders as '-' and then digits starting with a non-zero digit. |
| Common.DecimalRoundTrip | distributed/src/main/java/com/orientechnologies/orient/server/distributed/impl/task/ODeleteRecordTask.java:149 | Reading back the decimal rendering of a natural number gives the number. |

## Left out

- Logging and the transaction-mode wrapper around the graph removals: these are I/O and foreign calls.
- The structure of the graph layer's edge and vertex removal, such as detaching adjacent edges. Each removal is one abstract store operation that drops the record.
- Graph removal of a record that has vanished meanwhile. It is taken to end like the raw delete's absorbed not-found, with the record gone.
- Serialization of tasks, quorum counting and the base class `OAbstractRecordReplicatedTask`. The base class's `prepareUndoOperation` is modelled as "take the stored record unless a snapshot is already held".
- The numeric factory ids of `OFixCreateRecordTask` and `OResurrectRecordTask`: those classes are not part of this model. They are constants without a stated value.
- DeleteRecordTask.DeleteRecordTask.GetFixTask: requires that the executor's factory creates a fix-create task under that id. The cast in the source would fail otherwise. That failure path is not modelled.
- DeleteRecordTask.DeleteRecordTask.GetUndoTask: requires the same of the servers' factory for the resurrect task.
- `ORecordId.toString` is not part of this model. Its `#cluster:position` form is assumed.
- The visitor plumbing (`jjtAccept`) of the identifier node.
- The internals of `OFunctionCall` and `OCollection`. Their effect on the `aggregateProj` argument during a split is also not modelled.
- LevelZeroIdentifier.Execute: one function covers both overloads. The current record is an `OIdentifiable` or an `OResult`.
- LevelZeroIdentifier.GetExpandContent and GetAggregationContext: the messages use the children's rendering with empty parameters, standing for their `toString()`.
- Worker threads, their queues, `ReentrantLock` blocking, and the sleep-and-retry loop of `lockVertexCreationByKey`. These are concurrency. A lock is a name with a hold count in `held`, the calling thread is an `Owner` token, and one `putIfAbsent` attempt is modelled.
- MurmurHash3 and the key serializer: the hash is a parameter from (key type, key) to a 64-bit value. The key type is the registered id type, standing for the type of the class's index.
- `OMurmurHash3HashFunction` is not part of this model. A hash function without a serializer may throw a NullPointerException or give a value unrelated to the key type. That behaviour is the parameter `UnserializedHash`, which may fail.
- Common.SortStrings, GraphImporter.LockOrder, LockOrderIsGlobal, LockOrderIsTheSortedList: string order here is code-point order. Java's `String.compareTo` compares UTF-16 code units, and the two agree only on names within the Basic Multilingual Plane. Cluster names are assumed to lie there.
- DeleteRecordTask.Execute: it models the corrected classification, so a document without a schema class is deleted raw. The source throws a NullPointerException there, which `RemovalPathAsWritten` and `ClasslessDocumentAsWritten` show.
- Database, schema and index calls in `begin`, `end` and `createBaseSchema`, and reading the `useLightweightEdges` setting. The schema is a map from class to cluster names, and `created` gives a new class's clusters. Index creation and the index-name map are not modelled.
- GraphImporter.GraphImporter.SetParallel: changing `parallel` after `begin` may break the match between workers and buckets. The model preserves its invariant only before `begin`.
- The orders in which hash maps are iterated are left open: the loops choose entries nondeterministically.
- `end`, the accessors that only return fields, and the connection parameters.

## Findings

| source | as written | input that shows it | evidently intended | confidence | as-written member | corrected member |
|---|---|---|---|---|---|---|
| distributed/src/main/java/com/orientechnologies/orient/server/distributed/impl/task/ODeleteRecordTask.java:82 | `getSchemaClass().isEdgeType()` is called without a null test | a document with no schema class | delete it raw like any other non-graph record | medium, not executed | DeleteRecordTask.ClasslessDocumentAsWritten | DeleteRecordTask.RemovalPathOf |
| graphdb/src/main/java/com/orientechnologies/orient/graph/importer/OGraphImporter.java:497 | the vertex router looks up `C_i->C_i`, but `begin` registers `C_i` | any `createVertex` after `begin`, class and edge names without `>` | look up `C_i` | high, not executed | GraphImporter.AsWrittenVertexKeyNeverRegistered | GraphImporter.GraphImporter.CreateVertex |
| graphdb/src/main/java/com/orientechnologies/orient/graph/importer/OGraphImporter.java:274 | `isRegisteredEdgeClass` consults the vertex classes | edge class Friend between User vertices: `isRegisteredEdgeClass("Friend")` is false | consult the registered edge classes | high, not executed | GraphImporter.EdgeClassCheckMismatch | GraphImporter.GraphImporter.IsRegisteredEdgeClass |
| graphdb/src/main/java/com/orientechnologies/orient/graph/importer/OGraphImporter.java:475-478 | when the destination key type differs from the source's, the destination is hashed by a new hash function that has no serializer. That call fails (`DestinationBucketAsWrittenFails`) or ignores the key type (`DestinationBucketAsWrittenDiffers`) | INTEGER source keys and STRING destination keys | hash the destination with a serializer for its own key type, as the vertex router does | low, not executed | GraphImporter.DestinationBucketAsWrittenFails | GraphImporter.GraphImporter.CreateEdge |
