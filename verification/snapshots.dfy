/**
  The snapshot reservation protocol of an H2 index: which snapshot a take
  ends up with, which calls it makes on that snapshot, which calls a release
  makes, and the reservation balance those calls leave behind.
 */
module Snapshots {
  import opened Wrappers

  /**
    An opaque snapshot handle. `id` stands for the object's identity;
    `reservable` says that it is a GridReservable (reserve can fail),
    `closeable` that it is an AutoCloseable resource.
   */
  datatype Snapshot = Snapshot(id: int, reservable: bool, closeable: bool)

  /** A call the index makes while taking or releasing a snapshot. */
  datatype SnapshotCall =
    | DoTakeSnapshot
    | Reserve(target: Snapshot, granted: bool)
    | Release(target: Snapshot)
    | Close(target: Snapshot)

  /** The snapshot a take works with: the given one, else what doTakeSnapshot produced. */
  function Candidate(given: Option<Snapshot>, produced: Option<Snapshot>): Option<Snapshot>
  {
    if given.Some? then given else produced
  }

  /**
    The result of takeSnapshot, given the caller's snapshot (if any), what
    doTakeSnapshot returns (consulted only when the caller gave none) and the
    answer reserve() gives.
   */
  function TakeOutcome(given: Option<Snapshot>, produced: Option<Snapshot>, reserveOk: bool): (r: Option<Snapshot>)
    ensures given.Some? && r.Some? ==> r == given
    ensures given.None? && r.Some? ==> r == produced
    ensures r.Some? && r.value.reservable ==> reserveOk
    ensures r.None? <==> Candidate(given, produced).None? || (Candidate(given, produced).value.reservable && !reserveOk)
  {
    match Candidate(given, produced)
    case None => None
    case Some(s) => if s.reservable && !reserveOk then None else Some(s)
  }

  /** The calls takeSnapshot makes, in order. */
  function TakeCalls(given: Option<Snapshot>, produced: Option<Snapshot>, reserveOk: bool): (calls: seq<SnapshotCall>)
    ensures DoTakeSnapshot in calls <==> given.None?
    ensures forall c :: c in calls ==> !c.Release? && !c.Close?
    ensures forall c :: c in calls && c.Reserve? ==>
      Candidate(given, produced) == Some(c.target) && c.target.reservable && c.granted == reserveOk
    ensures Candidate(given, produced).Some? && Candidate(given, produced).value.reservable ==>
      Reserve(Candidate(given, produced).value, reserveOk) in calls
    ensures |calls| == (if given.None? then 1 else 0)
                     + (if Candidate(given, produced).Some? && Candidate(given, produced).value.reservable then 1 else 0)
    ensures given.None? ==> calls[0] == DoTakeSnapshot
  {
    (if given.None? then [DoTakeSnapshot] else [])
    + match Candidate(given, produced)
      case Some(s) => if s.reservable then [Reserve(s, reserveOk)] else []
      case None => []
  }

  /** The calls releaseSnapshot makes on the snapshot it clears from the slot, in order. */
  function ReleaseCalls(s: Snapshot): (calls: seq<SnapshotCall>)
    ensures multiset(calls)[Release(s)] == (if s.reservable then 1 else 0)
    ensures multiset(calls)[Close(s)] == (if s.closeable then 1 else 0)
    ensures |calls| == multiset(calls)[Release(s)] + multiset(calls)[Close(s)]
    ensures s.reservable && s.closeable ==> calls[0] == Release(s)
  {
    (if s.reservable then [Release(s)] else []) + (if s.closeable then [Close(s)] else [])
  }

  /** How one call changes the number of reservations held on `s`. */
  function Effect(c: SnapshotCall, s: Snapshot): int
  {
    match c
    case Reserve(t, granted) => if t == s && granted then 1 else 0
    case Release(t) => if t == s then -1 else 0
    case _ => 0
  }

  /** Granted reservations of `s` minus releases of `s` in a call log. */
  function Reservations(calls: seq<SnapshotCall>, s: Snapshot): int
  {
    if calls == [] then 0 else Reservations(calls[..|calls| - 1], s) + Effect(calls[|calls| - 1], s)
  }

  /** The reservation balance of a log is the sum of the balances of its parts. */
  lemma {:induction false} ReservationsAppend(a: seq<SnapshotCall>, b: seq<SnapshotCall>, s: Snapshot)
    ensures Reservations(a + b, s) == Reservations(a, s) + Reservations(b, s)
    decreases |b|
  {
    if b == [] {
      assert a + b == a;
    } else {
      var b' := b[..|b| - 1];
      assert (a + b)[..|a + b| - 1] == a + b';
      assert (a + b)[|a + b| - 1] == b[|b| - 1];
      ReservationsAppend(a, b', s);
    }
  }

  lemma ReservationsSingle(c: SnapshotCall, s: Snapshot)
    ensures Reservations([c], s) == Effect(c, s)
  {
    assert [c][..0] == [];
  }

  /** A take holds one reservation on `s` exactly when it succeeds with the reservable snapshot `s`. */
  lemma TakeBalance(given: Option<Snapshot>, produced: Option<Snapshot>, reserveOk: bool, s: Snapshot)
    ensures Reservations(TakeCalls(given, produced, reserveOk), s)
         == (if TakeOutcome(given, produced, reserveOk) == Some(s) && s.reservable then 1 else 0)
  {
    var first: seq<SnapshotCall> := if given.None? then [DoTakeSnapshot] else [];
    var second: seq<SnapshotCall> := match Candidate(given, produced)
      case Some(t) => if t.reservable then [Reserve(t, reserveOk)] else []
      case None => [];
    assert TakeCalls(given, produced, reserveOk) == first + second;
    ReservationsAppend(first, second, s);
    if given.None? { ReservationsSingle(DoTakeSnapshot, s); }
    if second != [] { ReservationsSingle(second[0], s); }
  }

  /** A release gives back exactly the one reservation a reservable snapshot holds, and touches no other. */
  lemma ReleaseBalance(t: Snapshot, s: Snapshot)
    ensures Reservations(ReleaseCalls(t), s) == (if t == s && t.reservable then -1 else 0)
  {
    var first: seq<SnapshotCall> := if t.reservable then [Release(t)] else [];
    var second: seq<SnapshotCall> := if t.closeable then [Close(t)] else [];
    ReservationsAppend(first, second, s);
    if t.reservable { ReservationsSingle(Release(t), s); }
    if t.closeable { ReservationsSingle(Close(t), s); }
  }

  /** A failed reservation leaves nothing behind: no slot content and no reservation. */
  lemma ReserveFailureTakesNothing(given: Option<Snapshot>, produced: Option<Snapshot>, s: Snapshot)
    requires Candidate(given, produced) == Some(s) && s.reservable
    ensures TakeOutcome(given, produced, false) == None
    ensures Reserve(s, false) in TakeCalls(given, produced, false)
    ensures forall t :: Reservations(TakeCalls(given, produced, false), t) == 0
  {
    forall t ensures Reservations(TakeCalls(given, produced, false), t) == 0 {
      TakeBalance(given, produced, false, t);
    }
  }
}
