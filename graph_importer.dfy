/** The sequential bookkeeping of the bulk graph importer (OGraphImporter):
    registration of vertex and edge classes, routing of each vertex and
    edge to a worker by hash bucket, ordered cluster locking, the
    per-owner table of vertices being created, and the top-up of clusters.
    Worker threads, their queues and the database are outside the model:
    the hash is a parameter, the schema is a value the importer reads and
    returns, and a lock is a name with a hold count in `held`. */
module GraphImporter {
  import opened Common

  datatype PropertyType = PropertyType(name: string)

  /** The id property of a vertex class: its name and type. */
  datatype IdProperty = IdProperty(name: string, propertyType: PropertyType)

  /** A registered edge class with its source and destination vertex classes. */
  datatype EdgeClass = EdgeClass(edge: string, source: string, destination: string)

  datatype VertexKey = VertexKey(value: int)

  /** Stands for the thread that asks for a lock. */
  datatype Owner = Owner(id: nat)

  /** The parameters a worker is started with. */
  datatype Worker =
    | VertexWorker(className: string, clusterIndex: int)
    | EdgeWorker(source: string, sourceIndex: int, destination: string, destinationIndex: int, edge: string)

  datatype Failure =
    | IllegalState(message: string)
    | NullPointer
    | Arithmetic
    | IllegalMonitorState

  /** MurmurHash3 of a key serialized by its index key type. */
  type Hash = (PropertyType, VertexKey) -> Long

  /** Class name to the names of its clusters, in cluster-id order. */
  type Schema = map<string, seq<string>>

  function Abs(x: int): nat {
    if x < 0 then -x else x
  }

  function Max(a: int, b: int): int {
    if a < b then b else a
  }

  // ---------------------------------------------------------------------
  // Bucket arithmetic
  // ---------------------------------------------------------------------

  /** `Math.abs(long)`: the one value without a positive counterpart stays negative. */
  function JavaAbs(x: Long): (r: Long)
    ensures x as int != LongMin ==> r as int == Abs(x as int)
    ensures x as int == LongMin ==> r == x
  {
    if x < 0 && x as int != LongMin then -x else x
  }

  /** Java's `/`: the quotient is rounded toward zero. */
  function JavaQuot(a: int, b: int): int
    requires b != 0
  {
    if (a >= 0) == (b > 0) then Abs(a) / Abs(b) else -(Abs(a) / Abs(b))
  }

  /** Java's `%`: the remainder takes the sign of the dividend, and with the
      quotient rounded toward zero it gives back the dividend. */
  function JavaRem(a: int, b: int): (r: int)
    requires b != 0
    ensures Abs(r) < Abs(b)
    ensures a >= 0 ==> r >= 0
    ensures a <= 0 ==> r <= 0
    ensures a == JavaQuot(a, b) * b + r
  {
    var m, q := Abs(b), Abs(a) / Abs(b);
    assert Abs(a) == q * m + Abs(a) % m;
    if a >= 0 then a % m else -((-a) % m)
  }

  /** The partition a hash falls in: `Long.MIN_VALUE` goes to 0, any other
      value to its absolute value modulo `parallel`; a zero `parallel` is a
      division by zero. */
  function Bucket(hash: Long, parallel: int): (r: Result<int, Failure>)
    ensures r.Err? <==> parallel == 0
    ensures r.Err? ==> r.error == Arithmetic
    ensures r.Ok? ==> 0 <= r.value < Abs(parallel)
    ensures r.Ok? && hash as int == LongMin ==> r.value == 0
    ensures r.Ok? && hash as int != LongMin ==> r.value == Abs(hash as int) % Abs(parallel)
  {
    var v: int := if hash as int == LongMin then 0 else JavaAbs(hash) as int;
    if parallel == 0 then Err(Arithmetic) else Ok(JavaRem(v, parallel))
  }

  /** Without the `Long.MIN_VALUE` guard the bucket could be negative. */
  lemma MinValueGuardIsNeeded()
    ensures JavaRem(JavaAbs(LongMin as Long) as int, 3) == -2
  {
  }

  // ---------------------------------------------------------------------
  // Worker and cluster names
  // ---------------------------------------------------------------------

  /** `className + "_" + index`: the name of a numbered cluster or worker. */
  function IndexedName(className: string, index: int): (r: string)
    ensures |r| == |className| + 1 + |IntToString(index)|
    ensures r[..|className|] == className && r[|className|] == '_'
    ensures r[|className| + 1..] == IntToString(index)
  {
    className + "_" + IntToString(index)
  }

  /** Two numbered names of one class are equal only for equal numbers. */
  lemma IndexedNameInjective(className: string, i: int, j: int)
    requires IndexedName(className, i) == IndexedName(className, j)
    ensures i == j
  {
    IntToStringInjective(i, j);
  }

  /** The worker of a vertex class for bucket `index`: `C_i`. */
  function VertexWorkerKey(className: string, index: int): (r: string)
    ensures |r| == |className| + 1 + |IntToString(index)|
    ensures r[..|className|] == className && r[|className|] == '_'
    ensures r[|className| + 1..] == IntToString(index)
  {
    IndexedName(className, index)
  }

  /** `src_i-[edge]-dst_j`: the worker of an edge class for a source and a
      destination bucket. */
  function EdgeWorkerKey(e: EdgeClass, sourceIndex: int, destinationIndex: int): (r: string)
  {
    IndexedName(e.source, sourceIndex) + "-[" + e.edge + "]-" + IndexedName(e.destination, destinationIndex)
  }

  /** Distinct bucket pairs of one edge class give distinct worker names. */
  lemma EdgeWorkerKeyInjective(e: EdgeClass, i: int, j: int, i2: int, j2: int)
    requires EdgeWorkerKey(e, i, j) == EdgeWorkerKey(e, i2, j2)
    ensures i == i2 && j == j2
  {
    var s1, s2 := IndexedName(e.source, i), IndexedName(e.source, i2);
    SourceIndexLength(e, i, j, i2, j2);
    SourceIndexLength(e, i2, j2, i, j);
    var l1, l2 := s1 + "-[" + e.edge + "]-", s2 + "-[" + e.edge + "]-";
    SplitEqual(l1, IndexedName(e.destination, j), l2, IndexedName(e.destination, j2));
    SplitEqual(s1 + "-[" + e.edge, "]-", s2 + "-[" + e.edge, "]-");
    SplitEqual(s1 + "-[", e.edge, s2 + "-[", e.edge);
    SplitEqual(s1, "-[", s2, "-[");
    IndexedNameInjective(e.source, i, i2);
    IndexedNameInjective(e.destination, j, j2);
  }

  /** Equal concatenations with equally long first parts have equal parts. */
  lemma SplitEqual<T>(x: seq<T>, y: seq<T>, x2: seq<T>, y2: seq<T>)
    requires x + y == x2 + y2 && |x| == |x2|
    ensures x == x2 && y == y2
  {
    assert x == (x + y)[..|x|] && x2 == (x2 + y2)[..|x2|];
    assert y == (x + y)[|x|..] && y2 == (x2 + y2)[|x2|..];
  }

  /** The source bucket's rendering ends where the first `-[` after the
      source class name begins, so two equal keys render it alike. */
  lemma SourceIndexLength(e: EdgeClass, i: int, j: int, i2: int, j2: int)
    requires EdgeWorkerKey(e, i, j) == EdgeWorkerKey(e, i2, j2)
    ensures |IntToString(i)| <= |IntToString(i2)|
  {
    var a, a2 := IntToString(i), IntToString(i2);
    var p := |e.source| + 1 + |a2|;
    assert EdgeWorkerKey(e, i2, j2)[p] == '-';
  }

  /** The key the vertex router looks up as the source writes it: `C_i->C_i`. */
  function VertexLookupKeyAsWritten(className: string, index: int): (r: string)
    ensures var n := IndexedName(className, index);
      |r| == 2 * |n| + 2 && r[..|n|] == n && r[|n|..|n| + 2] == "->" && r[|n| + 2..] == n
  {
    IndexedName(className, index) + "->" + IndexedName(className, index)
  }

  function WorkerKey(w: Worker): string {
    match w
    case VertexWorker(c, i) => VertexWorkerKey(c, i)
    case EdgeWorker(s, i, d, j, e) => EdgeWorkerKey(EdgeClass(e, s, d), i, j)
  }

  /** A worker that `begin` starts for the registered classes. */
  predicate Registered(w: Worker, vertexClasses: set<string>, edges: seq<EdgeClass>, parallel: int) {
    match w
    case VertexWorker(c, i) => c in vertexClasses && 0 <= i < parallel
    case EdgeWorker(s, i, d, j, e) => EdgeClass(e, s, d) in edges && 0 <= i < parallel && 0 <= j < parallel
  }

  /** Every worker is stored under its own key and was started for a registered class. */
  ghost predicate WellKeyed(threads: map<string, Worker>, vertexClasses: set<string>, edges: seq<EdgeClass>, parallel: int) {
    forall k :: k in threads ==> WorkerKey(threads[k]) == k && Registered(threads[k], vertexClasses, edges, parallel)
  }

  /** Every combination of class and bucket has a worker. */
  ghost predicate Complete(threads: map<string, Worker>, vertexClasses: set<string>, edges: seq<EdgeClass>, parallel: int) {
    (forall e, i, j :: e in edges && 0 <= i < parallel && 0 <= j < parallel ==> EdgeWorkerKey(e, i, j) in threads) &&
    (forall c, i :: c in vertexClasses && 0 <= i < parallel ==> VertexWorkerKey(c, i) in threads)
  }

  /** The clusters of a class after the top-up: the existing ones, then
      `name_k` for each missing position k up to `parallel`. */
  ghost predicate ToppedUp(existing: seq<string>, name: string, parallel: int, clusters: seq<string>) {
    |clusters| == Max(|existing|, parallel + 1) &&
    clusters[..|existing|] == existing &&
    forall k :: |existing| <= k < |clusters| ==> clusters[k] == IndexedName(name, k)
  }

  lemma ToppedUpMeaning(existing: seq<string>, name: string, parallel: int, clusters: seq<string>)
    requires ToppedUp(existing, name, parallel, clusters)
    ensures |clusters| >= parallel + 1 && |clusters| >= |existing|
    ensures |existing| >= parallel + 1 ==> clusters == existing
  {
  }

  /** The cluster names the locking covers: every cluster of every given class. */
  ghost function ClusterNames(schema: Schema, classes: set<string>): set<string> {
    set c, n | c in classes && c in schema && n in schema[c] :: n
  }

  function EdgeClassNames(edges: seq<EdgeClass>): set<string> {
    set e | e in edges :: e.edge
  }

  /** The locks `lockClusters` takes: source, then destination and edge when given. */
  function LockList(source: string, destination: Option<string>, edge: Option<string>): (r: seq<string>)
    ensures |r| == 1 + |OptionList(destination)| + |OptionList(edge)|
    ensures r[0] == source
    ensures destination.Some? ==> r[1] == destination.value
    ensures edge.Some? ==> r[|r| - 1] == edge.value
  {
    [source] + OptionList(destination) + OptionList(edge)
  }

  function OptionList(o: Option<string>): seq<string> {
    if o.Some? then [o.value] else []
  }

  /** The order in which `lockClusters` acquires its locks. */
  function LockOrder(source: string, destination: Option<string>, edge: Option<string>): (r: seq<string>)
    ensures Ascending(r)
    ensures multiset(r) == multiset(LockList(source, destination, edge))
  {
    var list := LockList(source, destination, edge);
    if |list| > 1 then SortStrings(list) else list
  }

  lemma LockOrderMembers(source: string, destination: Option<string>, edge: Option<string>)
    ensures forall c :: c in LockOrder(source, destination, edge) <==> c in LockList(source, destination, edge)
  {
    var order, list := LockOrder(source, destination, edge), LockList(source, destination, edge);
    forall c
      ensures c in order <==> c in list
    {
      assert c in order <==> c in multiset(order);
      assert c in list <==> c in multiset(list);
    }
  }


  /** Any two cluster locks are taken in string order, so two
      callers never take a pair of them in opposite orders. */
  lemma LockOrderIsGlobal(source: string, destination: Option<string>, edge: Option<string>, i: int, j: int)
    requires 0 <= i <= j < |LockOrder(source, destination, edge)|
    ensures LexLe(LockOrder(source, destination, edge)[i], LockOrder(source, destination, edge)[j])
  {
    AscendingPairs(LockOrder(source, destination, edge), i, j);
  }

  /** The sorted order is the one `Collections.sort` gives, whatever sort is used. */
  lemma LockOrderIsTheSortedList(source: string, destination: Option<string>, edge: Option<string>, sorted: seq<string>)
    requires Ascending(sorted) && multiset(sorted) == multiset(LockList(source, destination, edge))
    ensures sorted == LockOrder(source, destination, edge)
  {
    AscendingUnique(sorted, LockOrder(source, destination, edge));
  }

  // ---------------------------------------------------------------------
  // The table of vertices being created, by owner
  // ---------------------------------------------------------------------

  type PendingTable = map<VertexKey, Owner>

  /** A table without the entries of `owner`. */
  function ReleaseInTable(table: PendingTable, owner: Owner): (r: PendingTable)
    ensures forall k :: k in r ==> k in table && r[k] == table[k] && r[k] != owner
    ensures forall k :: k in table && table[k] != owner ==> k in r
  {
    map k | k in table && table[k] != owner :: table[k]
  }

  /** Every class's table without the entries of `owner`. */
  function ReleaseOwner(pending: map<string, PendingTable>, owner: Owner): (r: map<string, PendingTable>)
    ensures r.Keys == pending.Keys
    ensures forall c, k :: c in r && k in r[c] ==> k in pending[c] && r[c][k] == pending[c][k] && r[c][k] != owner
    ensures forall c, k :: c in pending && k in pending[c] && pending[c][k] != owner ==> k in r[c]
  {
    map c | c in pending :: ReleaseInTable(pending[c], owner)
  }

  /** The loop of `unlockCreationCurrentThread` over the classes' tables,
      each emptied of the owner's entries in turn. */
  method RemoveOwnerEverywhere(pending: map<string, PendingTable>, owner: Owner) returns (result: map<string, PendingTable>)
    ensures result == ReleaseOwner(pending, owner)
  {
    result := pending;
    var todo := pending.Keys;
    while todo != {}
      invariant todo <= pending.Keys
      invariant result.Keys == pending.Keys
      invariant forall c :: c in pending ==>
        result[c] == if c in todo then pending[c] else ReleaseInTable(pending[c], owner)
      decreases todo
    {
      var c :| c in todo;
      var table := RemoveOwnedEntries(result[c], owner);
      result := result[c := table];
      todo := todo - {c};
    }
  }

  /** Taking a free key and then releasing everything the owner holds leaves
      the tables as releasing alone would. */
  lemma {:induction false} AcquireThenRelease(pending: map<string, PendingTable>, c: string, key: VertexKey, owner: Owner)
    requires c in pending && key !in pending[c]
    ensures ReleaseOwner(pending[c := pending[c][key := owner]], owner) == ReleaseOwner(pending, owner)
  {
    var after := pending[c := pending[c][key := owner]];
    assert ReleaseInTable(after[c], owner) == ReleaseInTable(pending[c], owner);
    assert forall d :: d in pending ==> ReleaseOwner(after, owner)[d] == ReleaseOwner(pending, owner)[d];
  }

  /** Releasing is idempotent, and other owners' entries are untouched. */
  lemma ReleaseKeepsOthers(pending: map<string, PendingTable>, owner: Owner, other: Owner)
    requires owner != other
    ensures ReleaseOwner(ReleaseOwner(pending, owner), owner) == ReleaseOwner(pending, owner)
    ensures forall c, k :: c in pending && k in pending[c] && pending[c][k] == other ==>
      k in ReleaseOwner(pending, owner)[c] && ReleaseOwner(pending, owner)[c][k] == other
  {
    var once := ReleaseOwner(pending, owner);
    assert forall c :: c in once ==> ReleaseInTable(once[c], owner) == once[c];
  }

  /** The loop over one table's entries that removes the owner's ones. */
  method RemoveOwnedEntries(table: PendingTable, owner: Owner) returns (t: PendingTable)
    ensures t == ReleaseInTable(table, owner)
  {
    t := table;
    var todo := table.Keys;
    while todo != {}
      invariant todo <= table.Keys
      invariant t.Keys <= table.Keys
      invariant forall k :: k in t ==> t[k] == table[k]
      invariant forall k :: k in table ==> (k in t <==> (k in todo || table[k] != owner))
      decreases todo
    {
      var k :| k in todo;
      if t[k] == owner {
        t := t - {k};
      }
      todo := todo - {k};
    }
  }

  // ---------------------------------------------------------------------
  // Schema and workers, as `begin` prepares them
  // ---------------------------------------------------------------------

  /** The loop that adds the clusters a class is missing. */
  method TopUpClusters(name: string, existing: seq<string>, parallel: int) returns (clusters: seq<string>)
    ensures ToppedUp(existing, name, parallel, clusters)
  {
    clusters := existing;
    var c := |existing|;
    while c <= parallel
      invariant c == |clusters| >= |existing|
      invariant clusters[..|existing|] == existing
      invariant forall k :: |existing| <= k < c ==> clusters[k] == IndexedName(name, k)
      invariant c <= Max(|existing|, parallel + 1)
      decreases parallel + 1 - c
    {
      clusters := clusters + [IndexedName(name, c)];
      c := c + 1;
    }
  }

  /** The clusters a class starts from: the schema's, or a new class's. */
  function Existing(schema: Schema, created: string -> seq<string>, c: string): seq<string> {
    if c in schema then schema[c] else created(c)
  }

  /** Storing a registered worker under its own key keeps the table well keyed. */
  lemma WellKeyedInsert(t: map<string, Worker>, w: Worker, vertexClasses: set<string>, edges: seq<EdgeClass>, parallel: int)
    requires WellKeyed(t, vertexClasses, edges, parallel) && Registered(w, vertexClasses, edges, parallel)
    ensures WellKeyed(t[WorkerKey(w) := w], vertexClasses, edges, parallel)
  {
  }

  /** Adds the workers `src_i-[edge]-dst_j` for one source bucket `i`. */
  method AddEdgeRow(t0: map<string, Worker>, e: EdgeClass, i: int, vertexClasses: set<string>, edges: seq<EdgeClass>, parallel: int)
    returns (t: map<string, Worker>)
    requires e in edges && 0 <= i < parallel
    requires WellKeyed(t0, vertexClasses, edges, parallel)
    ensures WellKeyed(t, vertexClasses, edges, parallel)
    ensures t0.Keys <= t.Keys
    ensures forall j :: 0 <= j < parallel ==> EdgeWorkerKey(e, i, j) in t
  {
    t := t0;
    var j := 0;
    while j < parallel
      invariant 0 <= j <= parallel
      invariant WellKeyed(t, vertexClasses, edges, parallel)
      invariant t0.Keys <= t.Keys
      invariant forall j' :: 0 <= j' < j ==> EdgeWorkerKey(e, i, j') in t
    {
      var w := EdgeWorker(e.source, i, e.destination, j, e.edge);
      assert EdgeClass(e.edge, e.source, e.destination) == e;
      assert WorkerKey(w) == EdgeWorkerKey(e, i, j);
      WellKeyedInsert(t, w, vertexClasses, edges, parallel);
      t := t[WorkerKey(w) := w];
      j := j + 1;
    }
  }

  /** Adds all `parallel`×`parallel` workers of one edge class. */
  method AddEdgeWorkers(t0: map<string, Worker>, e: EdgeClass, vertexClasses: set<string>, edges: seq<EdgeClass>, parallel: int)
    returns (t: map<string, Worker>)
    requires e in edges
    requires WellKeyed(t0, vertexClasses, edges, parallel)
    ensures WellKeyed(t, vertexClasses, edges, parallel)
    ensures t0.Keys <= t.Keys
    ensures forall i, j :: 0 <= i < parallel && 0 <= j < parallel ==> EdgeWorkerKey(e, i, j) in t
  {
    t := t0;
    var i := 0;
    while i < parallel
      invariant 0 <= i && (parallel >= 0 ==> i <= parallel)
      invariant WellKeyed(t, vertexClasses, edges, parallel)
      invariant t0.Keys <= t.Keys
      invariant forall i', j :: 0 <= i' < i && 0 <= j < parallel ==> EdgeWorkerKey(e, i', j) in t
    {
      ghost var prev := t;
      t := AddEdgeRow(t, e, i, vertexClasses, edges, parallel);
      assert prev.Keys <= t.Keys;
      assert forall j :: 0 <= j < parallel ==> EdgeWorkerKey(e, i, j) in t;
      i := i + 1;
    }
  }

  /** Adds the `parallel` workers `C_i` of one vertex class. */
  method AddVertexWorkers(t0: map<string, Worker>, c: string, vertexClasses: set<string>, edges: seq<EdgeClass>, parallel: int)
    returns (t: map<string, Worker>)
    requires c in vertexClasses
    requires WellKeyed(t0, vertexClasses, edges, parallel)
    ensures WellKeyed(t, vertexClasses, edges, parallel)
    ensures t0.Keys <= t.Keys
    ensures forall i :: 0 <= i < parallel ==> VertexWorkerKey(c, i) in t
  {
    t := t0;
    var i := 0;
    while i < parallel
      invariant 0 <= i && (parallel >= 0 ==> i <= parallel)
      invariant WellKeyed(t, vertexClasses, edges, parallel)
      invariant t0.Keys <= t.Keys
      invariant forall i' :: 0 <= i' < i ==> VertexWorkerKey(c, i') in t
    {
      WellKeyedInsert(t, VertexWorker(c, i), vertexClasses, edges, parallel);
      t := t[VertexWorkerKey(c, i) := VertexWorker(c, i)];
      i := i + 1;
    }
  }

  /** The worker loops of `begin`: edge classes in registration order, then
      the vertex classes in the map's order. */
  method StartWorkers(t0: map<string, Worker>, vertexClasses: set<string>, edges: seq<EdgeClass>, parallel: int)
    returns (t: map<string, Worker>)
    requires WellKeyed(t0, vertexClasses, edges, parallel)
    ensures WellKeyed(t, vertexClasses, edges, parallel)
    ensures Complete(t, vertexClasses, edges, parallel)
    ensures t0.Keys <= t.Keys
  {
    t := StartEdgeWorkers(t0, vertexClasses, edges, parallel);
    t := StartVertexWorkers(t, vertexClasses, edges, parallel);
  }

  /** The edge loop of `begin`: every edge class gets all its workers. */
  method StartEdgeWorkers(t0: map<string, Worker>, vertexClasses: set<string>, edges: seq<EdgeClass>, parallel: int)
    returns (t: map<string, Worker>)
    requires WellKeyed(t0, vertexClasses, edges, parallel)
    ensures WellKeyed(t, vertexClasses, edges, parallel)
    ensures t0.Keys <= t.Keys
    ensures forall e, i, j :: e in edges && 0 <= i < parallel && 0 <= j < parallel ==> EdgeWorkerKey(e, i, j) in t
  {
    t := t0;
    var n := 0;
    while n < |edges|
      invariant 0 <= n <= |edges|
      invariant WellKeyed(t, vertexClasses, edges, parallel)
      invariant t0.Keys <= t.Keys
      invariant forall m, i, j :: 0 <= m < n && 0 <= i < parallel && 0 <= j < parallel ==> EdgeWorkerKey(edges[m], i, j) in t
    {
      t := AddEdgeWorkers(t, edges[n], vertexClasses, edges, parallel);
      n := n + 1;
    }
    forall e, i, j | e in edges && 0 <= i < parallel && 0 <= j < parallel
      ensures EdgeWorkerKey(e, i, j) in t
    {
      var m :| 0 <= m < |edges| && edges[m] == e;
    }
  }

  /** The vertex loop of `begin`: every vertex class gets all its workers,
      and the workers already there stay. */
  method StartVertexWorkers(t0: map<string, Worker>, vertexClasses: set<string>, edges: seq<EdgeClass>, parallel: int)
    returns (t: map<string, Worker>)
    requires WellKeyed(t0, vertexClasses, edges, parallel)
    ensures WellKeyed(t, vertexClasses, edges, parallel)
    ensures t0.Keys <= t.Keys
    ensures forall c, i :: c in vertexClasses && 0 <= i < parallel ==> VertexWorkerKey(c, i) in t
  {
    t := t0;
    var todo := vertexClasses;
    while todo != {}
      invariant todo <= vertexClasses
      invariant WellKeyed(t, vertexClasses, edges, parallel)
      invariant t0.Keys <= t.Keys
      invariant forall c, i :: c in vertexClasses - todo && 0 <= i < parallel ==> VertexWorkerKey(c, i) in t
      decreases todo
    {
      var c :| c in todo;
      t := AddVertexWorkers(t, c, vertexClasses, edges, parallel);
      todo := todo - {c};
    }
  }

  /** The lock loops of `begin`: one lock per cluster of each used class. */
  method CollectClusterLocks(schema: Schema, classes: set<string>) returns (names: set<string>)
    requires classes <= schema.Keys
    ensures names == ClusterNames(schema, classes)
  {
    names := {};
    var todo := classes;
    while todo != {}
      invariant todo <= classes
      invariant names == ClusterNames(schema, classes - todo)
      decreases todo
    {
      var c :| c in todo;
      var clusterIds := schema[c];
      var k := 0;
      while k < |clusterIds|
        invariant 0 <= k <= |clusterIds|
        invariant names == ClusterNames(schema, classes - todo) + set n | n in clusterIds[..k]
      {
        assert clusterIds[..k + 1] == clusterIds[..k] + [clusterIds[k]];
        names := names + {clusterIds[k]};
        k := k + 1;
      }
      assert clusterIds[..k] == clusterIds;
      assert ClusterNames(schema, classes - (todo - {c})) == ClusterNames(schema, classes - todo) + set n | n in clusterIds;
      todo := todo - {c};
    }
  }

  /** The schema after the top-up of `classes`: besides V and E, exactly
      those classes were added, each is topped up, and every other class
      keeps the clusters it had. */
  ghost predicate SchemaToppedUp(schema: Schema, created: string -> seq<string>, classes: set<string>, parallel: int, result: Schema) {
    result.Keys == schema.Keys + {"V", "E"} + classes &&
    (forall c :: c in classes ==> ToppedUp(Existing(schema, created, c), c, parallel, result[c])) &&
    (forall c :: c in result && c !in classes ==> result[c] == Existing(schema, created, c))
  }

  /** One pass of the top-up loop, for the class `c`; a class seen before
      already has enough clusters and is left as it is. */
  method TopUpClass(schema: Schema, created: string -> seq<string>, classes: set<string>, parallel: int, result0: Schema, c: string)
    returns (result: Schema)
    requires SchemaToppedUp(schema, created, classes, parallel, result0)
    ensures SchemaToppedUp(schema, created, classes + {c}, parallel, result)
  {
    var existing := if c in result0 then result0[c] else created(c);
    var clusters := TopUpClusters(c, existing, parallel);
    if c in classes {
      ToppedUpAgain(Existing(schema, created, c), c, parallel, existing, clusters);
    }
    result := result0[c := clusters];
  }

  /** The holds after releasing `list` in order, and the outcome: the
      first lock that does not exist or is not held stops the release. */
  function ReleaseAll(held: multiset<string>, locks: set<string>, list: seq<string>): (r: (multiset<string>, Result<(), Failure>))
    ensures r.0 <= held
    ensures r.1.Err? ==> r.1.error == NullPointer || r.1.error == IllegalMonitorState
    decreases |list|
  {
    if list == [] then (held, Ok(()))
    else if list[0] !in locks then (held, Err(NullPointer))
    else if list[0] !in held then (held, Err(IllegalMonitorState))
    else ReleaseAll(held - multiset{list[0]}, locks, list[1..])
  }

  lemma ReleaseAllCons(held: multiset<string>, locks: set<string>, x: string, rest: seq<string>)
    ensures x !in locks ==> ReleaseAll(held, locks, [x] + rest) == (held, Err(NullPointer))
    ensures x in locks && x !in held ==> ReleaseAll(held, locks, [x] + rest) == (held, Err(IllegalMonitorState))
    ensures x in locks && x in held ==> ReleaseAll(held, locks, [x] + rest) == ReleaseAll(held - multiset{x}, locks, rest)
  {
    assert ([x] + rest)[0] == x && ([x] + rest)[1..] == rest;
  }

  /** Releasing `a + b` releases `a`, then, unless that failed, `b`. */
  lemma {:induction false} ReleaseAllAppend(held: multiset<string>, locks: set<string>, a: seq<string>, b: seq<string>)
    ensures ReleaseAll(held, locks, a + b) ==
      if ReleaseAll(held, locks, a).1.Err? then ReleaseAll(held, locks, a)
      else ReleaseAll(ReleaseAll(held, locks, a).0, locks, b)
    decreases |a|
  {
    if a == [] {
      assert a + b == b;
    } else {
      assert a + b == [a[0]] + (a[1..] + b);
      ReleaseAllCons(held, locks, a[0], a[1..] + b);
      assert a == [a[0]] + a[1..];
      ReleaseAllCons(held, locks, a[0], a[1..]);
      ReleaseAllAppend(held - multiset{a[0]}, locks, a[1..], b);
    }
  }

  /** The release succeeds exactly when every lock exists and is held often
      enough, and then it takes away one hold per list entry. */
  lemma {:induction false} ReleaseAllMeaning(held: multiset<string>, locks: set<string>, list: seq<string>)
    ensures ReleaseAll(held, locks, list).1.Ok? <==> (forall c :: c in list ==> c in locks) && multiset(list) <= held
    ensures ReleaseAll(held, locks, list).1.Ok? ==> ReleaseAll(held, locks, list).0 == held - multiset(list)
    decreases |list|
  {
    if list != [] {
      var x := list[0];
      assert list == [x] + list[1..];
      assert multiset(list) == multiset{x} + multiset(list[1..]);
      if x in locks && x in held {
        ReleaseAllMeaning(held - multiset{x}, locks, list[1..]);
        assert multiset(list[1..]) <= held - multiset{x} <==> multiset(list) <= held;
      }
    }
  }

  /** Releasing, in `unlockClusters`' order, the clusters of the same three
      arguments after `lockClusters` took them in sorted order succeeds and
      gives back exactly the holds there were before the lock. */
  lemma UnlockUndoesLock(held: multiset<string>, locks: set<string>, source: string, destination: Option<string>, edge: Option<string>)
    requires forall c :: c in LockList(source, destination, edge) ==> c in locks
    ensures ReleaseAll(held + multiset(LockOrder(source, destination, edge)), locks, LockList(source, destination, edge)) == (held, Ok(()))
  {
    ReleaseUndoesTaking(held, locks, LockList(source, destination, edge), LockOrder(source, destination, edge));
  }

  /** Releasing every lock of `list` after one hold was added for each entry
      of a rearrangement of `list` restores the holds, and succeeds. */
  lemma ReleaseUndoesTaking(held: multiset<string>, locks: set<string>, list: seq<string>, taken: seq<string>)
    requires forall c :: c in list ==> c in locks
    requires multiset(taken) == multiset(list)
    ensures ReleaseAll(held + multiset(taken), locks, list) == (held, Ok(()))
  {
    var before := held + multiset(taken);
    ReleaseAllMeaning(before, locks, list);
    ReleaseAllSucceedsWithUnit(before, locks, list);
    assert before - multiset(list) == held;
  }

  /** A release that succeeds reports plain success. */
  lemma {:induction false} ReleaseAllSucceedsWithUnit(held: multiset<string>, locks: set<string>, list: seq<string>)
    ensures ReleaseAll(held, locks, list).1.Ok? ==> ReleaseAll(held, locks, list).1 == Ok(())
    decreases |list|
  {
    if list != [] && list[0] in locks && list[0] in held {
      ReleaseAllSucceedsWithUnit(held - multiset{list[0]}, locks, list[1..]);
    }
  }

  /** The top-up loop over the vertex classes, in the map's order. */
  method TopUpVertexClasses(schema: Schema, created: string -> seq<string>, classes: set<string>, parallel: int, result0: Schema)
    returns (result: Schema)
    requires SchemaToppedUp(schema, created, {}, parallel, result0)
    ensures SchemaToppedUp(schema, created, classes, parallel, result)
  {
    result := result0;
    var todo := classes;
    while todo != {}
      invariant todo <= classes
      invariant SchemaToppedUp(schema, created, classes - todo, parallel, result)
      decreases todo
    {
      var c :| c in todo;
      result := TopUpClass(schema, created, classes - todo, parallel, result, c);
      assert classes - (todo - {c}) == (classes - todo) + {c};
      todo := todo - {c};
    }
  }

  /** The top-up loop over the edge classes, in registration order. */
  method TopUpEdgeClasses(schema: Schema, created: string -> seq<string>, done: set<string>, edges: seq<EdgeClass>, parallel: int, result0: Schema)
    returns (result: Schema)
    requires SchemaToppedUp(schema, created, done, parallel, result0)
    ensures SchemaToppedUp(schema, created, done + EdgeClassNames(edges), parallel, result)
  {
    result := result0;
    assert done + EdgeClassNames(edges[..0]) == done;
    var n := 0;
    while n < |edges|
      invariant 0 <= n <= |edges|
      invariant SchemaToppedUp(schema, created, done + EdgeClassNames(edges[..n]), parallel, result)
    {
      EdgeClassNamesStep(edges, n);
      result := TopUpClass(schema, created, done + EdgeClassNames(edges[..n]), parallel, result, edges[n].edge);
      n := n + 1;
    }
    assert edges[..n] == edges;
  }

  /** What a hash function that was given no key serializer makes of a key.
      Its code is not part of this model: it may fail, or give a value that
      owes nothing to the key's type. */
  type UnserializedHash = VertexKey -> Result<Long, Failure>

  /** The names of one more edge class of the list. */
  lemma EdgeClassNamesStep(edges: seq<EdgeClass>, n: int)
    requires 0 <= n < |edges|
    ensures EdgeClassNames(edges[..n + 1]) == EdgeClassNames(edges[..n]) + {edges[n].edge}
  {
    assert edges[..n + 1] == edges[..n] + [edges[n]];
  }

  /** The destination bucket of the edge router as the source writes it:
      the source's hash function is reused when the key types agree, and
      otherwise a hash function without the destination's serializer. */
  function DestinationBucketAsWritten(sourceType: PropertyType, destinationType: PropertyType, id: VertexKey,
                                      hash: Hash, unserialized: UnserializedHash, parallel: int): (r: Result<int, Failure>)
    ensures destinationType == sourceType ==> r == Bucket(hash(destinationType, id), parallel)
    ensures destinationType != sourceType && unserialized(id).Err? ==> r == Err(unserialized(id).error)
    ensures destinationType != sourceType && unserialized(id).Ok? ==> r == Bucket(unserialized(id).value, parallel)
  {
    if destinationType == sourceType then Bucket(hash(sourceType, id), parallel)
    else if unserialized(id).Err? then Err(unserialized(id).error)
    else Bucket(unserialized(id).value, parallel)
  }

  /** With an INTEGER source key and a STRING destination key, a hash that
      ignores the missing serializer can route the destination to another
      bucket than the vertex router gives the same vertex. */
  lemma DestinationBucketAsWrittenDiffers()
    ensures var hash: Hash := (t: PropertyType, k: VertexKey) => 1 as Long;
      var unserialized: UnserializedHash := (k: VertexKey) => Ok(0 as Long);
      DestinationBucketAsWritten(PropertyType("INTEGER"), PropertyType("STRING"), VertexKey(7), hash, unserialized, 4) == Ok(0) &&
      Bucket(hash(PropertyType("STRING"), VertexKey(7)), 4) == Ok(1)
  {
  }

  /** When the key types differ and the serializer-less hash fails, the edge
      router as written fails where the corrected one finds a bucket. */
  lemma DestinationBucketAsWrittenFails(sourceType: PropertyType, destinationType: PropertyType, id: VertexKey,
                                        hash: Hash, unserialized: UnserializedHash, parallel: int)
    requires destinationType != sourceType && parallel != 0 && unserialized(id).Err?
    ensures DestinationBucketAsWritten(sourceType, destinationType, id, hash, unserialized, parallel).Err?
    ensures Bucket(hash(destinationType, id), parallel).Ok?
  {
  }

  const NotRegisteredSuffix: string := "' because it has not been declared at first, by calling registerVertexClass() method"

  function NotRegisteredMessage(className: string): string {
    "Cannot find a vertex of class '" + className + NotRegisteredSuffix
  }

  // ---------------------------------------------------------------------
  // The importer
  // ---------------------------------------------------------------------

  class GraphImporter {
    var parallel: int
    /** Whether `begin` has run (the source tests `factory != null`). */
    var begun: bool
    var vertexClassesUsed: map<string, IdProperty>
    var edgeClassesUsed: seq<EdgeClass>
    var threads: map<string, Worker>
    /** Cluster names that have a lock. */
    var locks: set<string>
    /** Hold counts of the cluster locks. */
    var held: multiset<string>
    var pendingVertexCreation: map<string, PendingTable>

    ghost predicate Valid()
      reads this
    {
      vertexClassesUsed.Keys == pendingVertexCreation.Keys &&
      WellKeyed(threads, vertexClassesUsed.Keys, edgeClassesUsed, parallel) &&
      (begun ==> Complete(threads, vertexClassesUsed.Keys, edgeClassesUsed, parallel)) &&
      (forall c :: c in held ==> c in locks) &&
      (!begun ==> threads == map[] && locks == {} && held == multiset{})
    }

    /** `parallel` stands for the number of available processors. */
    constructor (parallel: int)
      ensures Valid() && this.parallel == parallel && !begun
      ensures vertexClassesUsed == map[] && edgeClassesUsed == [] && held == multiset{}
    {
      this.parallel := parallel;
      begun := false;
      vertexClassesUsed := map[];
      edgeClassesUsed := [];
      threads := map[];
      locks := {};
      held := multiset{};
      pendingVertexCreation := map[];
    }

    method SetParallel(p: int)
      requires Valid()
      modifies this`parallel
      ensures parallel == p
      ensures !begun ==> Valid()
    {
      parallel := p;
    }

    method RegisterVertexClass(name: string, idName: string, idType: PropertyType) returns (r: Result<(), Failure>)
      requires Valid()
      modifies this`vertexClassesUsed, this`pendingVertexCreation
      ensures Valid()
      ensures begun ==> r == Err(IllegalState("Cannot register vertex classes after the import begun")) &&
                        vertexClassesUsed == old(vertexClassesUsed) && pendingVertexCreation == old(pendingVertexCreation)
      ensures !begun ==> r.Ok? &&
                         vertexClassesUsed == old(vertexClassesUsed)[name := IdProperty(idName, idType)] &&
                         pendingVertexCreation == old(pendingVertexCreation)[name := map[]]
    {
      if begun {
        return Err(IllegalState("Cannot register vertex classes after the import begun"));
      }
      vertexClassesUsed := vertexClassesUsed[name := IdProperty(idName, idType)];
      pendingVertexCreation := pendingVertexCreation[name := map[]];
      return Ok(());
    }

    method RegisterEdgeClass(edge: string, source: string, destination: string) returns (r: Result<(), Failure>)
      requires Valid()
      modifies this`edgeClassesUsed
      ensures Valid()
      ensures begun ==> r == Err(IllegalState("Cannot register edge classes after the import begun")) &&
                        edgeClassesUsed == old(edgeClassesUsed)
      ensures !begun ==> r.Ok? && edgeClassesUsed == old(edgeClassesUsed) + [EdgeClass(edge, source, destination)]
    {
      if begun {
        return Err(IllegalState("Cannot register edge classes after the import begun"));
      }
      edgeClassesUsed := edgeClassesUsed + [EdgeClass(edge, source, destination)];
      return Ok(());
    }

    /** `isRegisteredEdgeClass` as the source writes it: it consults the vertex classes. */
    function IsRegisteredEdgeClassAsWritten(name: string): (b: bool)
      reads this`vertexClassesUsed
      ensures b <==> name in vertexClassesUsed
    {
      name in vertexClassesUsed
    }

    /** Whether an edge class of that name has been registered. */
    function IsRegisteredEdgeClass(name: string): (b: bool)
      reads this`edgeClassesUsed
      ensures b <==> name in EdgeClassNames(edgeClassesUsed)
    {
      exists i :: 0 <= i < |edgeClassesUsed| && edgeClassesUsed[i].edge == name
    }

    /** Every class whose clusters the import uses. */
    function UsedClasses(): set<string>
      reads this`vertexClassesUsed, this`edgeClassesUsed
    {
      vertexClassesUsed.Keys + EdgeClassNames(edgeClassesUsed)
    }

    /** `createBaseSchema` as far as the cluster counts go: the base classes
        V and E exist, and every used class has at least `parallel + 1`
        clusters. A class the schema lacks gets the clusters `created` gives. */
    method CreateBaseSchema(schema: Schema, created: string -> seq<string>) returns (result: Schema)
      ensures SchemaToppedUp(schema, created, UsedClasses(), parallel, result)
    {
      result := schema;
      if "V" !in result {
        result := result["V" := created("V")];
      }
      if "E" !in result {
        result := result["E" := created("E")];
      }
      assert SchemaToppedUp(schema, created, {}, parallel, result);
      result := TopUpVertexClasses(schema, created, vertexClassesUsed.Keys, parallel, result);
      result := TopUpEdgeClasses(schema, created, vertexClassesUsed.Keys, edgeClassesUsed, parallel, result);
    }

    /** `begin`: the schema is prepared, a worker is started for every
        combination of class and bucket, and every cluster of a used class
        gets a lock. Returns the schema as it is afterwards. */
    method Begin(schema: Schema, created: string -> seq<string>) returns (result: Schema)
      requires Valid()
      modifies this`begun, this`threads, this`locks
      ensures Valid() && begun
      ensures old(threads).Keys <= threads.Keys
      ensures SchemaToppedUp(schema, created, UsedClasses(), parallel, result)
      ensures locks == old(locks) + ClusterNames(result, UsedClasses())
    {
      result := CreateBaseSchema(schema, created);
      var names := CollectClusterLocks(result, UsedClasses());
      StartThreads(names);
    }

    /** The end of `begin`: the workers are started and the cluster locks
        `names` are created. */
    method StartThreads(names: set<string>)
      requires Valid()
      modifies this`begun, this`threads, this`locks
      ensures Valid() && begun
      ensures old(threads).Keys <= threads.Keys
      ensures locks == old(locks) + names
    {
      var workers := StartWorkers(threads, vertexClassesUsed.Keys, edgeClassesUsed, parallel);
      begun, threads, locks := true, workers, locks + names;
    }

    /** The bucket of a vertex key of a registered class. */
    function BucketOf(className: string, id: VertexKey, hash: Hash): (b: int)
      reads this`vertexClassesUsed, this`parallel
      requires className in vertexClassesUsed && parallel != 0
      ensures 0 <= b < Abs(parallel)
      ensures hash(vertexClassesUsed[className].propertyType, id) as int == LongMin ==> b == 0
      ensures hash(vertexClassesUsed[className].propertyType, id) as int != LongMin ==>
        b == Abs(hash(vertexClassesUsed[className].propertyType, id) as int) % Abs(parallel)
    {
      Bucket(hash(vertexClassesUsed[className].propertyType, id), parallel).value
    }

    /** `createVertex`: the worker that receives the vertex, routed under `C_i`. */
    method CreateVertex(className: string, id: VertexKey, hash: Hash) returns (r: Result<Worker, Failure>)
      requires Valid()
      ensures className !in vertexClassesUsed ==> r == Err(IllegalState(NotRegisteredMessage(className)))
      ensures className in vertexClassesUsed && !begun ==> r == Err(NullPointer)
      ensures className in vertexClassesUsed && begun && parallel == 0 ==> r == Err(Arithmetic)
      ensures r.Ok? ==>
        (className in vertexClassesUsed && parallel != 0 &&
         VertexWorkerKey(className, BucketOf(className, id, hash)) in threads &&
         r.value == threads[VertexWorkerKey(className, BucketOf(className, id, hash))] &&
         WorkerKey(r.value) == VertexWorkerKey(className, BucketOf(className, id, hash)))
      ensures (className in vertexClassesUsed && begun && parallel != 0 &&
               VertexWorkerKey(className, BucketOf(className, id, hash)) !in threads) ==> r == Err(NullPointer)
      ensures className in vertexClassesUsed && begun && parallel < 0 ==> r == Err(NullPointer)
      ensures className in vertexClassesUsed && begun && parallel > 0 ==> r.Ok?
    {
      if className !in vertexClassesUsed {
        return Err(IllegalState(NotRegisteredMessage(className)));
      }
      if !begun {
        // no graph before `begin`
        return Err(NullPointer);
      }
      var bucket := Bucket(hash(vertexClassesUsed[className].propertyType, id), parallel);
      if bucket.Err? {
        return Err(bucket.error);
      }
      var key := VertexWorkerKey(className, bucket.value);
      if key !in threads {
        return Err(NullPointer);
      }
      return Ok(threads[key]);
    }

    /** `createVertex` as the source writes it: the lookup key is `C_i->C_i`. */
    method CreateVertexAsWritten(className: string, id: VertexKey, hash: Hash) returns (r: Result<Worker, Failure>)
      requires Valid()
      ensures className !in vertexClassesUsed ==> r == Err(IllegalState(NotRegisteredMessage(className)))
      ensures className in vertexClassesUsed && (!begun || parallel == 0) ==> r.Err?
      ensures r.Ok? ==>
        (parallel != 0 && className in vertexClassesUsed &&
         VertexLookupKeyAsWritten(className, BucketOf(className, id, hash)) in threads &&
         WorkerKey(r.value) == VertexLookupKeyAsWritten(className, BucketOf(className, id, hash)))
    {
      if className !in vertexClassesUsed {
        return Err(IllegalState(NotRegisteredMessage(className)));
      }
      if !begun {
        return Err(NullPointer);
      }
      var bucket := Bucket(hash(vertexClassesUsed[className].propertyType, id), parallel);
      if bucket.Err? {
        return Err(bucket.error);
      }
      var key := VertexLookupKeyAsWritten(className, bucket.value);
      if key !in threads {
        return Err(NullPointer);
      }
      return Ok(threads[key]);
    }

    /** `createEdge`: the worker that receives the edge, routed under
        `src_i-[edge]-dst_j`, each key hashed by its own class's key type. */
    method CreateEdge(edge: string, source: string, sourceId: VertexKey, destination: string, destinationId: VertexKey, hash: Hash)
      returns (r: Result<Worker, Failure>)
      requires Valid()
      ensures source !in vertexClassesUsed ==> r == Err(IllegalState(NotRegisteredMessage(source)))
      ensures source in vertexClassesUsed && destination !in vertexClassesUsed ==>
        r == Err(IllegalState(NotRegisteredMessage(destination)))
      ensures source in vertexClassesUsed && destination in vertexClassesUsed && !begun ==> r == Err(NullPointer)
      ensures source in vertexClassesUsed && destination in vertexClassesUsed && begun && parallel == 0 ==> r == Err(Arithmetic)
      ensures r.Ok? ==>
        (source in vertexClassesUsed && destination in vertexClassesUsed && parallel != 0 &&
         EdgeRouteKey(edge, source, sourceId, destination, destinationId, hash) in threads &&
         r.value == threads[EdgeRouteKey(edge, source, sourceId, destination, destinationId, hash)] &&
         WorkerKey(r.value) == EdgeWorkerKey(EdgeClass(edge, source, destination),
                                             BucketOf(source, sourceId, hash), BucketOf(destination, destinationId, hash)))
      ensures (source in vertexClassesUsed && destination in vertexClassesUsed && begun && parallel != 0 &&
               EdgeRouteKey(edge, source, sourceId, destination, destinationId, hash) !in threads) ==> r == Err(NullPointer)
      ensures source in vertexClassesUsed && destination in vertexClassesUsed && begun && parallel < 0 ==> r == Err(NullPointer)
      ensures (source in vertexClassesUsed && destination in vertexClassesUsed && begun && parallel > 0 &&
               EdgeClass(edge, source, destination) in edgeClassesUsed) ==> r.Ok?
    {
      if source !in vertexClassesUsed {
        return Err(IllegalState(NotRegisteredMessage(source)));
      }
      if destination !in vertexClassesUsed {
        return Err(IllegalState(NotRegisteredMessage(destination)));
      }
      if !begun {
        return Err(NullPointer);
      }
      var sourceBucket := Bucket(hash(vertexClassesUsed[source].propertyType, sourceId), parallel);
      if sourceBucket.Err? {
        return Err(sourceBucket.error);
      }
      var destinationBucket := Bucket(hash(vertexClassesUsed[destination].propertyType, destinationId), parallel);
      var key := EdgeWorkerKey(EdgeClass(edge, source, destination), sourceBucket.value, destinationBucket.value);
      if key !in threads {
        return Err(NullPointer);
      }
      return Ok(threads[key]);
    }

    /** `createEdge` as the source writes it: when the two key types differ,
        the destination key is hashed by a fresh hash function that was given
        no serializer for the destination's key type (`unserialized`). */
    method CreateEdgeAsWritten(edge: string, source: string, sourceId: VertexKey, destination: string, destinationId: VertexKey,
                               hash: Hash, unserialized: UnserializedHash)
      returns (r: Result<Worker, Failure>)
      requires Valid()
      ensures (source in vertexClassesUsed && destination in vertexClassesUsed &&
               vertexClassesUsed[source].propertyType == vertexClassesUsed[destination].propertyType) ==>
        r == CreateEdgeSpec(edge, source, sourceId, destination, destinationId, hash)
      ensures (source in vertexClassesUsed && destination in vertexClassesUsed &&
               vertexClassesUsed[source].propertyType != vertexClassesUsed[destination].propertyType &&
               unserialized(destinationId).Err?) ==> r.Err?
      ensures (source in vertexClassesUsed && destination in vertexClassesUsed && begun && parallel < 0) ==> r.Err?
      ensures r.Ok? ==>
        (source in vertexClassesUsed && destination in vertexClassesUsed && parallel != 0 &&
         DestinationBucketAsWritten(vertexClassesUsed[source].propertyType, vertexClassesUsed[destination].propertyType,
                                    destinationId, hash, unserialized, parallel).Ok? &&
         EdgeRouteKeyAsWritten(edge, source, sourceId, destination, destinationId, hash, unserialized) in threads &&
         r.value == threads[EdgeRouteKeyAsWritten(edge, source, sourceId, destination, destinationId, hash, unserialized)] &&
         WorkerKey(r.value) == EdgeWorkerKey(EdgeClass(edge, source, destination), BucketOf(source, sourceId, hash),
           DestinationBucketAsWritten(vertexClassesUsed[source].propertyType, vertexClassesUsed[destination].propertyType,
                                      destinationId, hash, unserialized, parallel).value))
      ensures (source in vertexClassesUsed && destination in vertexClassesUsed && begun && parallel != 0 &&
               DestinationBucketAsWritten(vertexClassesUsed[source].propertyType, vertexClassesUsed[destination].propertyType,
                                          destinationId, hash, unserialized, parallel).Ok? &&
               EdgeRouteKeyAsWritten(edge, source, sourceId, destination, destinationId, hash, unserialized) !in threads)
              ==> r == Err(NullPointer)
    {
      if source !in vertexClassesUsed {
        return Err(IllegalState(NotRegisteredMessage(source)));
      }
      if destination !in vertexClassesUsed {
        return Err(IllegalState(NotRegisteredMessage(destination)));
      }
      if !begun {
        return Err(NullPointer);
      }
      var sourceType := vertexClassesUsed[source].propertyType;
      var sourceBucket := Bucket(hash(sourceType, sourceId), parallel);
      if sourceBucket.Err? {
        return Err(sourceBucket.error);
      }
      var destinationBucket := DestinationBucketAsWritten(sourceType, vertexClassesUsed[destination].propertyType,
                                                          destinationId, hash, unserialized, parallel);
      if destinationBucket.Err? {
        return Err(destinationBucket.error);
      }
      var key := EdgeWorkerKey(EdgeClass(edge, source, destination), sourceBucket.value, destinationBucket.value);
      if key !in threads {
        return Err(NullPointer);
      }
      return Ok(threads[key]);
    }

    /** The worker key the corrected `createEdge` looks up. */
    function EdgeRouteKey(edge: string, source: string, sourceId: VertexKey, destination: string, destinationId: VertexKey, hash: Hash): string
      requires source in vertexClassesUsed && destination in vertexClassesUsed && parallel != 0
      reads this`vertexClassesUsed, this`parallel
    {
      EdgeWorkerKey(EdgeClass(edge, source, destination), BucketOf(source, sourceId, hash), BucketOf(destination, destinationId, hash))
    }

    /** The worker key `createEdge` looks up as the source writes it, once
        the unserialized hash of the destination has given a value. */
    function EdgeRouteKeyAsWritten(edge: string, source: string, sourceId: VertexKey, destination: string, destinationId: VertexKey,
                                   hash: Hash, unserialized: UnserializedHash): string
      requires source in vertexClassesUsed && destination in vertexClassesUsed && parallel != 0
      requires DestinationBucketAsWritten(vertexClassesUsed[source].propertyType, vertexClassesUsed[destination].propertyType,
                                          destinationId, hash, unserialized, parallel).Ok?
      reads this`vertexClassesUsed, this`parallel
    {
      EdgeWorkerKey(EdgeClass(edge, source, destination), BucketOf(source, sourceId, hash),
        DestinationBucketAsWritten(vertexClassesUsed[source].propertyType, vertexClassesUsed[destination].propertyType,
                                   destinationId, hash, unserialized, parallel).value)
    }

    /** The outcome of the corrected `createEdge`, as a function of the state. */
    function CreateEdgeSpec(edge: string, source: string, sourceId: VertexKey, destination: string, destinationId: VertexKey, hash: Hash)
      : Result<Worker, Failure>
      reads this
    {
      if source !in vertexClassesUsed then Err(IllegalState(NotRegisteredMessage(source)))
      else if destination !in vertexClassesUsed then Err(IllegalState(NotRegisteredMessage(destination)))
      else if !begun then Err(NullPointer)
      else if parallel == 0 then Err(Arithmetic)
      else
        var key := EdgeWorkerKey(EdgeClass(edge, source, destination),
                                 BucketOf(source, sourceId, hash), BucketOf(destination, destinationId, hash));
        if key in threads then Ok(threads[key]) else Err(NullPointer)
    }

    /** The acquisition loop of `lockClusters`: a cluster without a lock
        stops it with a NullPointerException, after the locks before it
        were taken. */
    method AcquireInOrder(order: seq<string>) returns (acquired: seq<string>, r: Result<(), Failure>)
      modifies this`held
      ensures old(Valid()) ==> Valid()
      ensures |acquired| <= |order| && acquired == order[..|acquired|]
      ensures forall c :: c in acquired ==> c in locks
      ensures r.Ok? <==> acquired == order
      ensures r.Err? ==> r.error == NullPointer && |acquired| < |order| && order[|acquired|] !in locks
      ensures held == old(held) + multiset(acquired)
    {
      acquired := [];
      var i := 0;
      while i < |order|
        invariant 0 <= i <= |order|
        invariant acquired == order[..i]
        invariant forall c :: c in acquired ==> c in locks
        invariant held == old(held) + multiset(acquired)
      {
        if order[i] !in locks {
          return acquired, Err(NullPointer);
        }
        held := held + multiset{order[i]};
        acquired := acquired + [order[i]];
        i := i + 1;
      }
      assert acquired == order;
      return acquired, Ok(());
    }

    /** `lockClusters`: the locks in ascending name order; it succeeds
        exactly when every named cluster has a lock. */
    method LockClusters(source: string, destination: Option<string>, edge: Option<string>)
      returns (acquired: seq<string>, r: Result<(), Failure>)
      modifies this`held
      ensures old(Valid()) ==> Valid()
      ensures |acquired| <= |LockOrder(source, destination, edge)|
      ensures acquired == LockOrder(source, destination, edge)[..|acquired|]
      ensures r.Ok? ==> acquired == LockOrder(source, destination, edge)
      ensures r.Err? ==> r.error == NullPointer
      ensures r.Ok? <==> forall c :: c in LockList(source, destination, edge) ==> c in locks
      ensures held == old(held) + multiset(acquired)
    {
      var order := LockOrder(source, destination, edge);
      LockOrderMembers(source, destination, edge);
      acquired, r := AcquireInOrder(order);
      if r.Err? {
        assert order[|acquired|] in order;
      }
    }

    /** One `locks.get(c).unlock()`. */
    method Unlock(c: string) returns (r: Result<(), Failure>)
      modifies this`held
      ensures old(Valid()) ==> Valid()
      ensures c !in locks ==> r == Err(NullPointer) && held == old(held)
      ensures c in locks && c !in old(held) ==> r == Err(IllegalMonitorState) && held == old(held)
      ensures c in locks && c in old(held) ==> r == Ok(()) && held == old(held) - multiset{c}
      ensures (held, r) == ReleaseAll(old(held), locks, [c])
    {
      ReleaseAllCons(held, locks, c, []);
      if c !in locks {
        return Err(NullPointer);
      }
      if c !in held {
        return Err(IllegalMonitorState);
      }
      held := held - multiset{c};
      return Ok(());
    }

    /** The unlock of an optional cluster: nothing to do when it is absent. */
    method UnlockIfGiven(c: Option<string>) returns (r: Result<(), Failure>)
      modifies this`held
      ensures old(Valid()) ==> Valid()
      ensures (held, r) == ReleaseAll(old(held), locks, OptionList(c))
    {
      if c.Some? {
        r := Unlock(c.value);
      } else {
        r := Ok(());
      }
    }

    /** `unlockClusters`: source, then destination and edge when given,
        stopping at the first lock that is missing or not held. */
    method UnlockClusters(source: string, destination: Option<string>, edge: Option<string>) returns (r: Result<(), Failure>)
      modifies this`held
      ensures old(Valid()) ==> Valid()
      ensures (held, r) == ReleaseAll(old(held), locks, LockList(source, destination, edge))
    {
      ghost var h0 := held;
      ghost var first, second, third := [source], OptionList(destination), OptionList(edge);
      ReleaseAllAppend(h0, locks, first + second, third);
      ReleaseAllAppend(h0, locks, first, second);
      r := Unlock(source);
      if r.Err? {
        return;
      }
      r := UnlockIfGiven(destination);
      if r.Err? {
        return;
      }
      r := UnlockIfGiven(edge);
    }

    /** One attempt of `lockVertexCreationByKey`: `putIfAbsent`, succeeding
        when the key was free or is already the owner's. */
    method TryLockVertexCreation(className: string, key: VertexKey, owner: Owner) returns (r: Result<bool, Failure>)
      requires Valid()
      modifies this`pendingVertexCreation
      ensures Valid()
      ensures className !in old(pendingVertexCreation) ==>
        r == Err(NullPointer) && pendingVertexCreation == old(pendingVertexCreation)
      ensures className in old(pendingVertexCreation) ==>
        (r.Ok? &&
         (r.value <==> key !in old(pendingVertexCreation)[className] || old(pendingVertexCreation)[className][key] == owner))
      ensures className in old(pendingVertexCreation) && key !in old(pendingVertexCreation)[className] ==>
        pendingVertexCreation == old(pendingVertexCreation)[className := old(pendingVertexCreation)[className][key := owner]]
      ensures className in old(pendingVertexCreation) && key in old(pendingVertexCreation)[className] ==>
        pendingVertexCreation == old(pendingVertexCreation)
    {
      if className !in pendingVertexCreation {
        return Err(NullPointer);
      }
      var table := pendingVertexCreation[className];
      if key !in table {
        pendingVertexCreation := pendingVertexCreation[className := table[key := owner]];
        return Ok(true);
      }
      return Ok(table[key] == owner);
    }

    /** `unlockCreationCurrentThread`: every table loses exactly the entries
        of `owner`. */
    method UnlockCreation(owner: Owner)
      requires Valid()
      modifies this`pendingVertexCreation
      ensures Valid()
      ensures pendingVertexCreation == ReleaseOwner(old(pendingVertexCreation), owner)
    {
      var released := RemoveOwnerEverywhere(pendingVertexCreation, owner);
      pendingVertexCreation := released;
    }
  }

  /** Topping up a class that already has enough clusters adds none. */
  lemma ToppedUpAgain(base: seq<string>, name: string, parallel: int, now: seq<string>, again: seq<string>)
    requires ToppedUp(base, name, parallel, now)
    requires ToppedUp(now, name, parallel, again)
    ensures again == now
    ensures ToppedUp(base, name, parallel, again)
  {
  }

  // ---------------------------------------------------------------------
  // Properties of the routing
  // ---------------------------------------------------------------------

  predicate NoArrow(s: string) {
    '>' !in s
  }

  /** No registered name contains '>'. */
  ghost predicate PlainNames(vertexClasses: set<string>, edges: seq<EdgeClass>) {
    (forall c :: c in vertexClasses ==> NoArrow(c)) &&
    (forall e :: e in edges ==> NoArrow(e.edge) && NoArrow(e.source) && NoArrow(e.destination))
  }

  lemma IndexedNameNoArrow(c: string, i: int)
    requires NoArrow(c)
    ensures NoArrow(IndexedName(c, i))
  {
    var n := IntToString(i);
    assert '>' !in n;
  }

  lemma {:induction false} RegisteredKeyNoArrow(w: Worker, vertexClasses: set<string>, edges: seq<EdgeClass>, parallel: int)
    requires Registered(w, vertexClasses, edges, parallel) && PlainNames(vertexClasses, edges)
    ensures NoArrow(WorkerKey(w))
  {
    match w
    case VertexWorker(c, i) =>
      IndexedNameNoArrow(c, i);
    case EdgeWorker(s, i, d, j, e) =>
      assert EdgeClass(e, s, d) in edges;
      IndexedNameNoArrow(s, i);
      IndexedNameNoArrow(d, j);
  }

  /** The key the vertex router looks up as written is never a worker's key
      once names are free of '>', so `createVertex` as written always fails. */
  lemma {:induction false} AsWrittenVertexKeyNeverRegistered(g: GraphImporter, className: string, index: int)
    requires g.Valid() && PlainNames(g.vertexClassesUsed.Keys, g.edgeClassesUsed)
    ensures VertexLookupKeyAsWritten(className, index) !in g.threads
  {
    var name := IndexedName(className, index);
    var key := VertexLookupKeyAsWritten(className, index);
    assert key[|name| + 1] == '>';
    if key in g.threads {
      RegisteredKeyNoArrow(g.threads[key], g.vertexClassesUsed.Keys, g.edgeClassesUsed, g.parallel);
    }
  }

  /** The key the corrected router looks up is always registered after `begin`. */
  lemma VertexKeyRegistered(g: GraphImporter, className: string, id: VertexKey, hash: Hash)
    requires g.Valid() && g.begun && g.parallel > 0 && className in g.vertexClassesUsed
    ensures VertexWorkerKey(className, g.BucketOf(className, id, hash)) in g.threads
  {
  }

  /** After `begin`, the key the edge router builds for a registered edge
      class is always registered. */
  lemma EdgeKeyRegistered(g: GraphImporter, e: EdgeClass, sourceId: VertexKey, destinationId: VertexKey, hash: Hash)
    requires g.Valid() && g.begun && g.parallel > 0 && e in g.edgeClassesUsed
    requires e.source in g.vertexClassesUsed && e.destination in g.vertexClassesUsed
    ensures EdgeWorkerKey(e, g.BucketOf(e.source, sourceId, hash), g.BucketOf(e.destination, destinationId, hash)) in g.threads
  {
  }

  /** `isRegisteredEdgeClass` as written answers for vertex classes, not edge classes. */
  lemma EdgeClassCheckMismatch(g: GraphImporter)
    requires g.edgeClassesUsed == [EdgeClass("Friend", "User", "User")]
    requires g.vertexClassesUsed.Keys == {"User"}
    ensures g.IsRegisteredEdgeClass("Friend") && !g.IsRegisteredEdgeClassAsWritten("Friend")
    ensures g.IsRegisteredEdgeClassAsWritten("User") && !g.IsRegisteredEdgeClass("User")
  {
    assert g.edgeClassesUsed[0].edge == "Friend";
  }

  // ---------------------------------------------------------------------
  // The import the test drives
  // ---------------------------------------------------------------------

  /** Users linked by Friend edges: once `begin` has run, every edge is
      routed to a worker. */
  method ScenarioFriendImport(schema: Schema, created: string -> seq<string>, hash: Hash, from: VertexKey, to: VertexKey) {
    var g := ScenarioFriendRegistration();
    var after := g.Begin(schema, created);
    ScenarioFriendEdge(g, hash, from, to);
  }

  /** Four importer threads, users identified by an INTEGER id, and Friend
      edges between users. */
  method ScenarioFriendRegistration() returns (g: GraphImporter)
    ensures fresh(g) && g.Valid() && !g.begun && g.parallel == 4
    ensures "User" in g.vertexClassesUsed && EdgeClass("Friend", "User", "User") in g.edgeClassesUsed
  {
    g := new GraphImporter(4);
    var r1 := g.RegisterVertexClass("User", "id", PropertyType("INTEGER"));
    var r2 := g.RegisterEdgeClass("Friend", "User", "User");
  }

  /** A Friend edge between two users, after `begin`. */
  method ScenarioFriendEdge(g: GraphImporter, hash: Hash, from: VertexKey, to: VertexKey)
    requires g.Valid() && g.begun && g.parallel > 0
    requires "User" in g.vertexClassesUsed && EdgeClass("Friend", "User", "User") in g.edgeClassesUsed
  {
    var w := g.CreateEdge("Friend", "User", from, "User", to, hash);
    assert w.Ok?;
  }

  /** After `begin`, a vertex of a registered class is routed to a worker,
      while the router as written finds none. */
  method ScenarioVertexRouting(g: GraphImporter, className: string, id: VertexKey, hash: Hash)
    requires g.Valid() && g.begun && g.parallel > 0 && className in g.vertexClassesUsed
    requires PlainNames(g.vertexClassesUsed.Keys, g.edgeClassesUsed)
  {
    var v := g.CreateVertex(className, id, hash);
    assert v.Ok?;
    AsWrittenVertexKeyNeverRegistered(g, className, g.BucketOf(className, id, hash));
    var lost := g.CreateVertexAsWritten(className, id, hash);
    assert lost.Err?;
  }

  /** Locking the clusters of an edge and unlocking them gives back the
      holds there were. */
  method ScenarioLockUnlock(g: GraphImporter, s: string, d: Option<string>, e: Option<string>)
    modifies g`held
  {
    ghost var before := g.held;
    var acquired, r := g.LockClusters(s, d, e);
    if r.Ok? {
      UnlockUndoesLock(before, g.locks, s, d, e);
      var u := g.UnlockClusters(s, d, e);
      assert u.Ok?;
      assert g.held == before;
    }
  }
}
