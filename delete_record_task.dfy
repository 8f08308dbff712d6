/** The replicated "delete record" task of the distributed server
    (ODeleteRecordTask). The local database is a map from record id to
    record; the graph layer's edge and vertex removal and the storage's raw
    delete are collaborator calls, recorded in the order they are made. */
module DeleteRecordTask {
  import opened Common

  /** ORecordId: cluster id and position inside the cluster. */
  datatype RecordId = RecordId(clusterId: int, clusterPosition: int)

  /** What the schema says about a document's class. */
  datatype SchemaClass = SchemaClass(name: string, isEdgeType: bool, isVertexType: bool)

  /** A record either is a document, possibly without a schema class, or is
      not a document at all (a raw byte record). */
  datatype Content =
    | Document(schemaClass: Option<SchemaClass>, fields: seq<int>)
    | Bytes(bytes: seq<int>)

  datatype Record = Record(identity: RecordId, version: int, content: Content)

  type Store = map<RecordId, Record>

  /** The storage keeps each record under its own identity. */
  ghost predicate Consistent(store: Store) {
    forall id :: id in store ==> store[id].identity == id
  }

  datatype QuorumType = None | Read | Write | All

  /** The three ways of removing a record. */
  datatype RemovalPath = EdgeRemoval | VertexRemoval | RawDelete

  /** One request made of the graph layer or of the storage. */
  datatype Call = Call(path: RemovalPath, target: RecordId)

  /** The failures the shown code can raise. */
  datatype Failure = NullPointer

  const FactoryId: int := 4
  const Name: string := "record_delete"

  /** The factory ids of OFixCreateRecordTask and OResurrectRecordTask.
      Their values are declared by those classes, which are not part of this
      model; only their use as lookup keys matters here. */
  const FixCreateFactoryId: int
  const ResurrectFactoryId: int

  /** The task kinds a node's factory can instantiate. */
  datatype TaskKind = CreateRecord | UpdateRecord | DeleteRecord | ResurrectRecord | FixCreateRecord | FixUpdateRecord

  /** A node's task factory: factory id to the kind of task it creates. */
  datatype TaskFactory = TaskFactory(kinds: map<int, TaskKind>)

  /** The compensation tasks this task builds; `lockRecords` defaults to true. */
  datatype RemoteTask =
    | FixCreateRecordTask(rid: RecordId, version: int, lockRecords: bool)
    | ResurrectRecordTask(rid: RecordId, version: int, record: Record, lockRecords: bool)

  /** The factory manager of the cluster: one factory per server name, and the
      factory that a group of servers all understand. */
  datatype ClusterManager = ClusterManager(
    factoryByServerName: map<string, TaskFactory>,
    factoryByServerNames: map<seq<string>, TaskFactory>)

  predicate Creates(factory: TaskFactory, id: int, kind: TaskKind) {
    id in factory.kinds && factory.kinds[id] == kind
  }

  // ---------------------------------------------------------------------
  // Classification of the record to delete
  // ---------------------------------------------------------------------

  /** How the task removes a record, with a document of no schema class
      deleted like any other non-graph record. The edge test comes first. */
  function RemovalPathOf(content: Content): (p: RemovalPath)
    ensures p == EdgeRemoval <==> content.Document? && content.schemaClass.Some? && content.schemaClass.value.isEdgeType
    ensures p == VertexRemoval <==>
      content.Document? && content.schemaClass.Some? && !content.schemaClass.value.isEdgeType && content.schemaClass.value.isVertexType
  {
    match content
    case Document(Some(cls), _) =>
      if cls.isEdgeType then EdgeRemoval
      else if cls.isVertexType then VertexRemoval
      else RawDelete
    case Document(None, _) => RawDelete
    case Bytes(_) => RawDelete
  }

  /** The classification as the source writes it: the schema class of a
      document is dereferenced without a null test. */
  function RemovalPathAsWritten(content: Content): (r: Result<RemovalPath, Failure>)
    ensures r.Err? <==> content.Document? && content.schemaClass.None?
    ensures r.Ok? ==> r.value == RemovalPathOf(content)
  {
    match content
    case Document(Some(cls), _) =>
      if cls.isEdgeType then Ok(EdgeRemoval)
      else if cls.isVertexType then Ok(VertexRemoval)
      else Ok(RawDelete)
    case Document(None, _) => Err(NullPointer)
    case Bytes(_) => Ok(RawDelete)
  }

  /** A document without a schema class makes the source's classification
      fail, where a raw delete is evidently meant. */
  lemma ClasslessDocumentAsWritten(fields: seq<int>)
    ensures RemovalPathAsWritten(Document(Option.None, fields)) == Err(NullPointer)
    ensures RemovalPathOf(Document(Option.None, fields)) == RawDelete
  {
  }

  // ---------------------------------------------------------------------
  // The specification of one execution
  // ---------------------------------------------------------------------

  /** The undo material the task holds after the capture step: the snapshot
      already taken, or else the record currently stored under the id. */
  function Capture(store: Store, snapshot: Option<Record>, rid: RecordId): (s: Option<Record>)
    ensures snapshot.Some? ==> s == snapshot
    ensures snapshot.None? ==> (s.Some? <==> rid in store)
    ensures snapshot.None? && rid in store ==> s == Some(store[rid])
  {
    if snapshot.Some? then snapshot
    else if rid in store then Some(store[rid])
    else Option.None
  }

  /** What one execution leaves behind. */
  datatype Execution = Execution(snapshot: Option<Record>, store: Store, calls: seq<Call>, result: bool)

  /** One execution of the task on `store`, with `snapshot` the undo material
      held before it and `rid` the task's record id. */
  function Execute(store: Store, snapshot: Option<Record>, rid: RecordId): (e: Execution)
    ensures e.result
    ensures e.snapshot == Capture(store, snapshot, rid)
    ensures e.snapshot.None? ==> e.store == store && e.calls == []
    ensures e.snapshot.Some? ==>
      var victim := e.snapshot.value;
      e.calls == [Call(RemovalPathOf(victim.content), victim.identity)] &&
      victim.identity !in e.store &&
      (forall id :: id in store && id != victim.identity ==> id in e.store && e.store[id] == store[id]) &&
      e.store.Keys <= store.Keys
  {
    var captured := Capture(store, snapshot, rid);
    if captured.None? then
      Execution(captured, store, [], true)
    else
      var victim := captured.value;
      Execution(captured, store - {victim.identity}, [Call(RemovalPathOf(victim.content), victim.identity)], true)
  }

  /** A missing record is a success and nothing is removed. */
  lemma AlreadyDeleted(store: Store, rid: RecordId)
    requires rid !in store
    ensures Execute(store, Option.None, rid) == Execution(Option.None, store, [], true)
  {
  }

  /** An edge document goes through edge removal, never a raw delete. */
  lemma EdgeGoesThroughGraph(store: Store, rid: RecordId)
    requires rid in store && store[rid].content.Document?
    requires store[rid].content.schemaClass.Some? && store[rid].content.schemaClass.value.isEdgeType
    ensures var e := Execute(store, Option.None, rid);
      e.result && e.calls == [Call(EdgeRemoval, store[rid].identity)] &&
      (forall c :: c in e.calls ==> c.path != RawDelete && c.path != VertexRemoval)
  {
  }

  /** A vertex document that is not also an edge goes through vertex removal only. */
  lemma VertexGoesThroughGraph(store: Store, rid: RecordId)
    requires rid in store && store[rid].content.Document?
    requires store[rid].content.schemaClass.Some?
    requires !store[rid].content.schemaClass.value.isEdgeType && store[rid].content.schemaClass.value.isVertexType
    ensures var e := Execute(store, Option.None, rid);
      e.result && e.calls == [Call(VertexRemoval, store[rid].identity)] &&
      (forall c :: c in e.calls ==> c.path != RawDelete && c.path != EdgeRemoval)
  {
  }

  /** Every other record gets exactly one raw delete. */
  lemma OtherRecordsRawDeleted(store: Store, rid: RecordId)
    requires Consistent(store) && rid in store
    requires !(store[rid].content.Document? && store[rid].content.schemaClass.Some? &&
               (store[rid].content.schemaClass.value.isEdgeType || store[rid].content.schemaClass.value.isVertexType))
    ensures var e := Execute(store, Option.None, rid);
      e.result && e.calls == [Call(RawDelete, store[rid].identity)] && rid !in e.store
  {
  }

  /** A second execution of the same task instance finds the record gone: the
      snapshot is not replaced, the removal hits a missing record (absorbed),
      the result is still true and the store does not change again. */
  lemma {:induction false} SecondExecution(store: Store, rid: RecordId)
    requires Consistent(store)
    ensures var first := Execute(store, Option.None, rid);
      var second := Execute(first.store, first.snapshot, rid);
      second.result && second.snapshot == first.snapshot && second.store == first.store
  {
    var first := Execute(store, Option.None, rid);
    if first.snapshot.Some? {
      assert first.snapshot.value.identity == rid;
      assert first.store == store - {rid};
    }
  }

  /** A fresh task that found its record holds exactly the record it removed
      as undo material. */
  lemma CapturedIsRemoved(store: Store, rid: RecordId)
    requires Consistent(store) && rid in store
    ensures var e := Execute(store, Option.None, rid);
      e.snapshot == Some(store[rid]) && e.snapshot.value.identity == rid &&
      e.store == store - {rid}
  {
  }

  // ---------------------------------------------------------------------
  // The local database, as the task sees it
  // ---------------------------------------------------------------------

  class Database {
    var records: Store
    /** The removal requests made so far, oldest first. */
    var calls: seq<Call>

    ghost predicate Valid()
      reads this
    {
      Consistent(records)
    }

    constructor (records: Store)
      requires Consistent(records)
      ensures Valid() && this.records == records && calls == []
    {
      this.records := records;
      calls := [];
    }

    /** Reads a record straight from the storage. */
    method Load(id: RecordId) returns (r: Option<Record>)
      ensures r.Some? <==> id in records
      ensures r.Some? ==> r.value == records[id]
    {
      r := if id in records then Some(records[id]) else Option.None;
    }

    /** The graph layer's edge removal (the edge detaches from both endpoints). */
    method RemoveEdge(id: RecordId)
      requires Valid()
      modifies this
      ensures Valid()
      ensures records == old(records) - {id} && calls == old(calls) + [Call(EdgeRemoval, id)]
    {
      records := records - {id};
      calls := calls + [Call(EdgeRemoval, id)];
    }

    /** The graph layer's vertex removal (the vertex's edges are detached). */
    method RemoveVertex(id: RecordId)
      requires Valid()
      modifies this
      ensures Valid()
      ensures records == old(records) - {id} && calls == old(calls) + [Call(VertexRemoval, id)]
    {
      records := records - {id};
      calls := calls + [Call(VertexRemoval, id)];
    }

    /** The storage's raw delete; `found` is false where it raises "record not found". */
    method Delete(id: RecordId) returns (found: bool)
      requires Valid()
      modifies this
      ensures Valid()
      ensures found == (id in old(records))
      ensures records == old(records) - {id} && calls == old(calls) + [Call(RawDelete, id)]
    {
      found := id in records;
      records := records - {id};
      calls := calls + [Call(RawDelete, id)];
    }
  }

  // ---------------------------------------------------------------------
  // The task
  // ---------------------------------------------------------------------

  class DeleteRecordTask {
    const rid: RecordId
    const version: int
    /** The undo material, taken at most once. */
    var previousRecord: Option<Record>

    /** `init(rid, version)` on a fresh task. */
    constructor (rid: RecordId, version: int)
      ensures this.rid == rid && this.version == version && previousRecord == Option.None
    {
      this.rid := rid;
      this.version := version;
      previousRecord := Option.None;
    }

    /** The task built from a record: its identity and version. */
    constructor FromRecord(record: Record)
      ensures rid == record.identity && version == record.version && previousRecord == Option.None
    {
      rid := record.identity;
      version := record.version;
      previousRecord := Option.None;
    }

    /** Takes the undo snapshot from the storage unless one is already held. */
    method PrepareUndoOperation(db: Database)
      modifies this
      ensures previousRecord == Capture(db.records, old(previousRecord), rid)
    {
      if previousRecord.None? {
        previousRecord := db.Load(rid);
      }
    }

    method ExecuteRecordTask(db: Database) returns (r: bool)
      requires db.Valid()
      modifies this, db
      ensures db.Valid()
      ensures var e := Execute(old(db.records), old(previousRecord), rid);
        r == e.result && previousRecord == e.snapshot &&
        db.records == e.store && db.calls == old(db.calls) + e.calls
    {
      PrepareUndoOperation(db);
      if previousRecord.None? {
        // already deleted
        return true;
      }
      // the removal works on a copy; the snapshot itself is never touched
      var loadedRecord := previousRecord.value;
      match RemovalPathOf(loadedRecord.content) {
        case EdgeRemoval =>
          db.RemoveEdge(loadedRecord.identity);
          return true;
        case VertexRemoval =>
          db.RemoveVertex(loadedRecord.identity);
          return true;
        case RawDelete =>
          var found := db.Delete(loadedRecord.identity);
          // a record that is not found was already deleted: no error
      }
      return true;
    }

    function GetQuorumType(): (q: QuorumType)
      ensures q == Write
    {
      Write
    }

    function IsIdempotent(): (b: bool)
      ensures !b
    {
      false
    }

    function GetFactoryId(): (id: int)
      ensures id == 4
    {
      FactoryId
    }

    /** The task carries no record of its own to send. */
    function GetRecord(): (r: Option<Record>)
      ensures r.None?
    {
      Option.None
    }

    /** The base class's existence check is switched off: an absent record is
        not an error for a delete. */
    method CheckRecordExists(db: Database) returns (r: Result<(), Failure>)
      ensures r.Ok?
    {
      r := Ok(());
    }

    function GetName(): (s: string)
      ensures s == "record_delete"
    {
      Name
    }

    /** `record_delete(#cluster:position)`: the name, then the record id
        between parentheses. */
    function ToString(): (s: string)
      ensures |s| == |GetName()| + |RecordIdToString(rid)| + 2
      ensures s[..|GetName()| + 1] == GetName() + "("
      ensures s[|GetName()| + 1..|s| - 1] == RecordIdToString(rid)
      ensures s[|s| - 1] == ')'
    {
      Name + "(" + RecordIdToString(rid) + ")"
    }

    /** The fix task: a "fix create" task from the executor node's factory for
        exactly this task's record id and version. */
    function GetFixTask(manager: ClusterManager, executorNodeName: string): (t: RemoteTask)
      requires executorNodeName in manager.factoryByServerName
      requires Creates(manager.factoryByServerName[executorNodeName], FixCreateFactoryId, FixCreateRecord)
      ensures t.FixCreateRecordTask? && t.rid == rid && t.version == version
    {
      var factory := manager.factoryByServerName[executorNodeName];
      CreateFixCreateTask(factory, FixCreateFactoryId, rid, version)
    }

    /** The undo task: none without a snapshot, otherwise a resurrection of
        the snapshot that takes no record locks. */
    function GetUndoTask(manager: ClusterManager, servers: seq<string>): (t: Option<RemoteTask>)
      reads this
      requires previousRecord.Some? ==>
        servers in manager.factoryByServerNames &&
        Creates(manager.factoryByServerNames[servers], ResurrectFactoryId, ResurrectRecord)
      ensures t.None? <==> previousRecord.None?
      ensures t.Some? ==>
        t.value.ResurrectRecordTask? && t.value.record == previousRecord.value &&
        t.value.rid == previousRecord.value.identity && t.value.version == previousRecord.value.version &&
        !t.value.lockRecords
    {
      if previousRecord.None? then Option.None
      else
        var factory := manager.factoryByServerNames[servers];
        var task := CreateResurrectTask(factory, ResurrectFactoryId, previousRecord.value);
        Some(task.(lockRecords := false))
    }
  }

  /** `createTask(id)` cast to OFixCreateRecordTask, then `init(rid, version)`. */
  function CreateFixCreateTask(factory: TaskFactory, id: int, rid: RecordId, version: int): (t: RemoteTask)
    requires Creates(factory, id, FixCreateRecord)
    ensures t == FixCreateRecordTask(rid, version, true)
  {
    FixCreateRecordTask(rid, version, true)
  }

  /** `createTask(id)` cast to OResurrectRecordTask, then `init(record)`. */
  function CreateResurrectTask(factory: TaskFactory, id: int, record: Record): (t: RemoteTask)
    requires Creates(factory, id, ResurrectRecord)
    ensures t == ResurrectRecordTask(record.identity, record.version, record, true)
  {
    ResurrectRecordTask(record.identity, record.version, record, true)
  }

  /** ORecordId's rendering `#cluster:position`. */
  function RecordIdToString(id: RecordId): (s: string)
    ensures |s| >= 4 && s[0] == '#'
  {
    "#" + IntToString(id.clusterId) + ":" + IntToString(id.clusterPosition)
  }

  lemma NoColonInNumber(x: int)
    ensures ':' !in IntToString(x)
  {
  }

  /** Distinct record ids render distinctly. */
  lemma {:induction false} RecordIdToStringInjective(a: RecordId, b: RecordId)
    requires RecordIdToString(a) == RecordIdToString(b)
    ensures a == b
  {
    var ca, pa := IntToString(a.clusterId), IntToString(a.clusterPosition);
    var cb, pb := IntToString(b.clusterId), IntToString(b.clusterPosition);
    NoColonInNumber(a.clusterId);
    NoColonInNumber(b.clusterId);
    assert ("#" + ca + ":" + pa)[1..] == ca + [':'] + pa;
    assert ("#" + cb + ":" + pb)[1..] == cb + [':'] + pb;
    SplitAtSeparator(ca, pa, cb, pb, ':');
    IntToStringInjective(a.clusterId, b.clusterId);
    IntToStringInjective(a.clusterPosition, b.clusterPosition);
  }

  /** Two tasks that render alike delete the same record. */
  lemma {:induction false} ToStringIdentifiesRecord(a: DeleteRecordTask, b: DeleteRecordTask)
    requires a.ToString() == b.ToString()
    ensures a.rid == b.rid
  {
    var s := a.ToString();
    assert RecordIdToString(a.rid) == s[|Name| + 1..|s| - 1] == RecordIdToString(b.rid);
    RecordIdToStringInjective(a.rid, b.rid);
  }

  // ---------------------------------------------------------------------
  // End-to-end scenarios
  // ---------------------------------------------------------------------

  /** A plain document at #3:17 v2: one raw delete, success, snapshot held. */
  method ScenarioPlainDocument() {
    var rid := RecordId(3, 17);
    var rec := Record(rid, 2, Document(Some(SchemaClass("Person", false, false)), [1, 2]));
    var db := new Database(map[rid := rec]);
    var task := new DeleteRecordTask(rid, 2);
    var r := task.ExecuteRecordTask(db);
    assert r;
    assert db.calls == [Call(RawDelete, rid)];
    assert rid !in db.records;
    assert task.previousRecord == Some(rec);
  }

  /** The record is already gone: success, no removal, and no undo task. */
  method ScenarioAlreadyDeleted(manager: ClusterManager, servers: seq<string>) {
    var rid := RecordId(3, 17);
    var db := new Database(map[]);
    var task := new DeleteRecordTask(rid, 2);
    var r := task.ExecuteRecordTask(db);
    assert r && db.calls == [] && db.records == map[];
    assert task.GetUndoTask(manager, servers) == Option.None;
  }

  /** An edge record: success through edge removal, no raw delete. */
  method ScenarioEdge() {
    var rid := RecordId(5, 1);
    var rec := Record(rid, 1, Document(Some(SchemaClass("Friend", true, false)), []));
    var db := new Database(map[rid := rec]);
    var task := new DeleteRecordTask(rid, 1);
    var r := task.ExecuteRecordTask(db);
    assert r && db.calls == [Call(EdgeRemoval, rid)];
  }
}
