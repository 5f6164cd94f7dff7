/**
  The H2 index base (GridH2IndexBase): index identity, the per-thread
  snapshot slot and its take/release protocol, the distributed-join cost
  multiplier gate, row filtering of scans, and the fixed answers it gives to
  H2's generic index operations.
 */
module IndexBase {
  import opened Wrappers
  import opened Snapshots
  import opened RowFiltering

  const LONG_MIN: int := -0x8000_0000_0000_0000
  const LONG_MAX: int := 0x7FFF_FFFF_FFFF_FFFF

  /** Values of a Java `long`. */
  predicate IsLong(v: int)
  {
    LONG_MIN <= v <= LONG_MAX
  }

  /** AtomicLong.incrementAndGet: adds one modulo 2^64, staying a `long`. */
  function IncrementAndGet(v: int): (r: int)
    requires IsLong(v)
    ensures IsLong(r)
    ensures (r - v - 1) % 0x1_0000_0000_0000_0000 == 0
  {
    if v == LONG_MAX then LONG_MIN else v + 1
  }

  /** The process-wide index id generator (the static AtomicLong idxIdGen). */
  class IdGenerator {
    /** The counter's current value: the last id issued. */
    var last: int
    /** The ids issued so far, in order. */
    ghost var issued: seq<int>
    /** Whether the counter has ever wrapped from LONG_MAX to LONG_MIN. */
    ghost var wrapped: bool

    ghost predicate Valid()
      reads this
    {
      IsLong(last) &&
      (!wrapped ==>
        (forall i, j :: 0 <= i < j < |issued| ==> issued[i] < issued[j]) &&
        (forall i :: 0 <= i < |issued| ==> issued[i] <= last))
    }

    constructor ()
      ensures Valid() && last == 0 && issued == [] && !wrapped
    {
      last := 0;
      issued := [];
      wrapped := false;
    }

    method Next() returns (id: int)
      requires Valid()
      modifies this
      ensures Valid()
      ensures id == IncrementAndGet(old(last)) && last == id
      ensures issued == old(issued) + [id]
      ensures wrapped == (old(wrapped) || old(last) == LONG_MAX)
      ensures !wrapped ==> forall i :: 0 <= i < |old(issued)| ==> old(issued)[i] < id
    {
      if last == LONG_MAX {
        wrapped := true;
      }
      last := IncrementAndGet(last);
      id := last;
      issued := issued + [id];
    }
  }

  /** GridH2QueryType. */
  datatype QueryType = Local | Prepare | Map | Reduce | Replicated

  /** Collocation multipliers are at least 1; 1 means no penalty. */
  type Multiplier = m: int | m >= 1 witness 1

  /** GridH2CollocationModel.MULTIPLIER_COLLOCATED. */
  const MULTIPLIER_COLLOCATED: Multiplier := 1

  type TableFilter = int
  type SubQueryInfo = int
  type ViewIndex = int

  /** The query context of the current thread (GridH2QueryContext). */
  class QueryContext {
    const qtype: QueryType
    const distributedJoins: bool
    const filter: Option<QueryFilter>
    /** Snapshots already taken in this query, by index id. */
    var snapshots: map<int, Snapshot>

    constructor (qtype: QueryType, distributedJoins: bool, filter: Option<QueryFilter>)
      ensures this.qtype == qtype && this.distributedJoins == distributedJoins
      ensures this.filter == filter && snapshots == map[]
    {
      this.qtype := qtype;
      this.distributedJoins := distributedJoins;
      this.filter := filter;
      snapshots := map[];
    }

    /** putSnapshot: registers `s` under the index id. */
    method PutSnapshot(idxId: int, s: Snapshot)
      modifies this`snapshots
      ensures snapshots == old(snapshots)[idxId := s]
    {
      snapshots := snapshots[idxId := s];
    }
  }

  /** The part of an H2 session this core touches. */
  class Session {
    /** The sub-query view index cache, as `getViewIndexCache(true)` returns it. */
    var viewIndexCache: map<int, ViewIndex>
    const preparingQueryExpression: bool
    const subQueryInfo: SubQueryInfo

    constructor (preparingQueryExpression: bool, subQueryInfo: SubQueryInfo)
      ensures viewIndexCache == map[]
      ensures this.preparingQueryExpression == preparingQueryExpression
      ensures this.subQueryInfo == subQueryInfo
    {
      viewIndexCache := map[];
      this.preparingQueryExpression := preparingQueryExpression;
      this.subQueryInfo := subQueryInfo;
    }
  }

  /** What buildCollocationModel is given. */
  datatype ModelInput = ModelInput(qctx: QueryContext, subQueryInfo: SubQueryInfo, filters: seq<TableFilter>, filter: int)

  /**
    buildCollocationModel followed by calculateMultiplier, as a function of
    the model's inputs and of the session's view index cache at the time it
    computes (sub-query plan costs come from that cache).
   */
  type CollocationModel = (ModelInput, map<int, ViewIndex>) -> Multiplier

  /** The guard of getDistributedMultiplier: planning a distributed join outside a query expression. */
  predicate PlansDistributedJoin(qctx: QueryContext?, ses: Session)
    reads ses
  {
    qctx != null && qctx.qtype == Prepare && qctx.distributedJoins && !ses.preparingQueryExpression
  }

  /** The multiplier getDistributedMultiplier returns. */
  function DistributedMultiplier(qctx: QueryContext?, ses: Session, filters: seq<TableFilter>, filter: int,
                                 model: CollocationModel): (m: Multiplier)
    reads ses
    ensures m != MULTIPLIER_COLLOCATED ==> PlansDistributedJoin(qctx, ses)
    ensures !PlansDistributedJoin(qctx, ses) ==> m == MULTIPLIER_COLLOCATED
    ensures PlansDistributedJoin(qctx, ses) ==>
      m == model(ModelInput(qctx, ses.subQueryInfo, filters, filter), map[])
  {
    if PlansDistributedJoin(qctx, ses) then
      model(ModelInput(qctx, ses.subQueryInfo, filters, filter), map[])
    else
      MULTIPLIER_COLLOCATED
  }

  /** clearViewIndexCache: empties the session's sub-query view index cache. */
  method ClearViewIndexCache(ses: Session)
    modifies ses`viewIndexCache
    ensures ses.viewIndexCache == map[]
  {
    if ses.viewIndexCache != map[] {
      ses.viewIndexCache := map[];
    }
  }

  /** threadLocalFilter: the filter of the current query, if there is one. */
  function ThreadLocalFilter(qctx: QueryContext?): (f: Option<QueryFilter>)
    ensures qctx == null ==> f.None?
    ensures qctx != null ==> f == qctx.filter
  {
    if qctx != null then qctx.filter else None
  }

  /** The exception H2 raises for an operation an index does not support. */
  datatype DbError = Unsupported(operation: string)

  /** One index object; `snapshot` is this thread's slot for it. */
  class Index {
    const idxId: int
    /** The thread-local snapshot slot. */
    var snapshot: Option<Snapshot>
    /** The calls this index has made on snapshots, in order. */
    ghost var calls: seq<SnapshotCall>

    /** The reservation this index holds on `s`: one for the reservable snapshot in the slot, none otherwise. */
    ghost function Held(s: Snapshot): int
      reads this
    {
      if snapshot == Some(s) && s.reservable then 1 else 0
    }

    /** Every reservation granted to this index is still held by the slot or has been released, once. */
    ghost predicate Valid()
      reads this
    {
      forall s :: Reservations(calls, s) == Held(s)
    }

    constructor (gen: IdGenerator)
      requires gen.Valid()
      modifies gen
      ensures gen.Valid() && idxId == gen.last && idxId == IncrementAndGet(old(gen.last))
      ensures gen.issued == old(gen.issued) + [idxId]
      ensures gen.wrapped == (old(gen.wrapped) || old(gen.last) == LONG_MAX)
      ensures !gen.wrapped ==> forall i :: 0 <= i < |old(gen.issued)| ==> old(gen.issued)[i] < idxId
      ensures Valid() && snapshot == None && calls == []
    {
      var id := gen.Next();
      idxId := id;
      snapshot := None;
      calls := [];
    }

    /** threadLocalSnapshot: the slot's snapshot, the only one this index holds a reservation on. */
    function ThreadLocalSnapshot(): (s: Option<Snapshot>)
      reads this
      requires Valid()
      ensures s == snapshot
      ensures s.Some? && s.value.reservable ==> Reservations(calls, s.value) == 1
      ensures forall t :: Reservations(calls, t) != 0 ==> s == Some(t) && t.reservable
    {
      snapshot
    }

    /**
      takeSnapshot: uses `given`, or else the snapshot doTakeSnapshot
      produces; reserves it when it is reservable, with the outcome
      `reserveOk`; on success puts it in the slot and registers it in the
      query context under this index's id.
     */
    method TakeSnapshot(given: Option<Snapshot>, produced: Option<Snapshot>, reserveOk: bool, qctx: QueryContext?)
      returns (r: Option<Snapshot>)
      requires Valid()
      requires snapshot.None?
      modifies this`snapshot, this`calls, qctx
      ensures Valid()
      ensures r == TakeOutcome(given, produced, reserveOk)
      ensures snapshot == r
      ensures calls == old(calls) + TakeCalls(given, produced, reserveOk)
      ensures qctx != null ==>
        qctx.snapshots == if r.Some? then old(qctx.snapshots)[idxId := r.value] else old(qctx.snapshots)
    {
      ghost var before := calls;
      var s := given;
      if s.None? {
        calls := calls + [DoTakeSnapshot];
        s := produced;
      }
      if s.Some? {
        if s.value.reservable {
          calls := calls + [Reserve(s.value, reserveOk)];
          if !reserveOk {
            r := None;
            TakeBalanceKept(before, given, produced, reserveOk);
            return;
          }
        }
        snapshot := s;
        if qctx != null {
          qctx.PutSnapshot(idxId, s.value);
        }
      }
      r := s;
      TakeBalanceKept(before, given, produced, reserveOk);
    }

    /** Reservations after a take: what was held before (nothing) plus what the take holds. */
    lemma TakeBalanceKept(before: seq<SnapshotCall>, given: Option<Snapshot>, produced: Option<Snapshot>, reserveOk: bool)
      requires snapshot == TakeOutcome(given, produced, reserveOk)
      requires calls == before + TakeCalls(given, produced, reserveOk)
      requires forall s :: Reservations(before, s) == 0
      ensures Valid()
    {
      forall s ensures Reservations(calls, s) == Held(s) {
        ReservationsAppend(before, TakeCalls(given, produced, reserveOk), s);
        TakeBalance(given, produced, reserveOk, s);
      }
    }

    /**
      releaseSnapshot: clears the slot, then releases the reservation of a
      reservable snapshot and closes a closeable one (close errors are
      swallowed, so the release always completes).
     */
    method ReleaseSnapshot()
      requires Valid()
      requires snapshot.Some?
      modifies this`snapshot, this`calls
      ensures Valid()
      ensures snapshot.None?
      ensures calls == old(calls) + ReleaseCalls(old(snapshot).value)
    {
      var s := snapshot.value;
      ghost var before := calls;
      snapshot := None;
      if s.reservable {
        calls := calls + [SnapshotCall.Release(s)];
      }
      if s.closeable {
        calls := calls + [SnapshotCall.Close(s)];
      }
      assert calls == before + ReleaseCalls(s);
      forall t ensures Reservations(calls, t) == Held(t) {
        ReservationsAppend(before, ReleaseCalls(s), t);
        ReleaseBalance(s, t);
      }
    }

    /**
      getDistributedMultiplier: outside the planning of a distributed join
      the collocated multiplier, with the session untouched; otherwise the
      view index cache is cleared and the collocation model decides.
     */
    method GetDistributedMultiplier(ses: Session, filters: seq<TableFilter>, filter: int, qctx: QueryContext?,
                                    model: CollocationModel) returns (m: Multiplier)
      modifies ses`viewIndexCache
      ensures m == DistributedMultiplier(qctx, ses, filters, filter, model)
      ensures ses.viewIndexCache == if PlansDistributedJoin(qctx, ses) then map[] else old(ses.viewIndexCache)
    {
      if !PlansDistributedJoin(qctx, ses) {
        return MULTIPLIER_COLLOCATED;
      }
      ClearViewIndexCache(ses);
      var input := ModelInput(qctx, ses.subQueryInfo, filters, filter);
      m := model(input, ses.viewIndexCache);
    }

    /** filter: the rows of a scan that a filter built at `time` yields. */
    function Filter(rows: seq<Row>, time: int, qryFilter: Option<QueryFilter>, spaceName: string): (out: seq<Row>)
      ensures out == Filtered(NewFilteringIterator(time, qryFilter, spaceName), rows)
      ensures forall r :: r in out ==> r in rows && !Expired(time, r)
      ensures qryFilter.None? ==> forall r :: r in rows && !Expired(time, r) ==> r in out
      ensures forall r :: r in out <==> r in rows && Accept(NewFilteringIterator(time, qryFilter, spaceName), r)
    {
      var it := NewFilteringIterator(time, qryFilter, spaceName);
      FilteredKeepsAccepted(it, rows);
      Filtered(it, rows)
    }

    /** close(Session): a no-op; destruction is a separate operation. */
    method Close(ses: Session)
      ensures unchanged(this, ses)
    {
    }

    /** The default rebuild: the index is its own rebuilt copy. */
    method Rebuild() returns (r: Index)
      ensures r == this
    {
      r := this;
    }

    function NeedRebuild(): (b: bool)
      ensures !b
    {
      false
    }

    function DiskSpaceUsed(): (n: int)
      ensures n == 0
    {
      0
    }

    function CheckRename(): (o: Outcome<DbError>)
      ensures o.Fail? && o.error.operation == "rename"
    {
      Fail(Unsupported("rename"))
    }

    function Add(ses: Session, row: Row): (o: Outcome<DbError>)
      ensures o.Fail? && o.error.operation == "add"
    {
      Fail(Unsupported("add"))
    }

    function RemoveRow(ses: Session, row: Row): (o: Outcome<DbError>)
      ensures o.Fail? && o.error.operation == "remove row"
    {
      Fail(Unsupported("remove row"))
    }

    function RemoveIndex(ses: Session): (o: Outcome<DbError>)
      ensures o.Fail? && o.error.operation == "remove index"
    {
      Fail(Unsupported("remove index"))
    }

    function Truncate(ses: Session): (o: Outcome<DbError>)
      ensures o.Fail? && o.error.operation == "truncate"
    {
      Fail(Unsupported("truncate"))
    }
  }

  /**
    A non-reservable, non-closeable snapshot taken by index 7 with no query
    context sits in the slot until released, and the release makes no call.
   */
  method PlainSnapshotScenario(gen: IdGenerator)
    requires gen.Valid() && gen.last == 6
    modifies gen
  {
    var idx := new Index(gen);
    assert idx.idxId == 7;
    var s1 := Snapshot(1, false, false);
    var r := idx.TakeSnapshot(None, Some(s1), true, null);
    assert r == Some(s1) && idx.ThreadLocalSnapshot() == Some(s1);
    assert idx.calls == [DoTakeSnapshot];
    idx.ReleaseSnapshot();
    assert idx.snapshot.None? && idx.calls == [DoTakeSnapshot];
  }

  /** Two indexes built one after the other, before the counter wraps, get increasing ids. */
  method SuccessiveIdsScenario(gen: IdGenerator)
    requires gen.Valid() && !gen.wrapped && gen.last < 100
    modifies gen
  {
    var first := new Index(gen);
    var second := new Index(gen);
    assert !gen.wrapped;
    assert first.idxId == gen.issued[|gen.issued| - 2];
    assert first.idxId < second.idxId;
  }

  /** While planning a distributed join the cache is emptied and the model's answer is returned as it is. */
  method PlanningScenario(idx: Index, model: CollocationModel)
  {
    var qctx := new QueryContext(Prepare, true, None);
    var ses := new Session(false, 3);
    ses.viewIndexCache := map[1 := 10];
    var m := idx.GetDistributedMultiplier(ses, [100, 101, 102], 1, qctx, model);
    assert ses.viewIndexCache == map[];
    assert m == model(ModelInput(qctx, 3, [100, 101, 102], 1), map[]);
    var local := new QueryContext(Local, true, None);
    ses.viewIndexCache := map[1 := 10];
    m := idx.GetDistributedMultiplier(ses, [100, 101, 102], 1, local, model);
    assert m == MULTIPLIER_COLLOCATED && ses.viewIndexCache == map[1 := 10];
  }
}
