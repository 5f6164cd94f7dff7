/**
  The row filter of an index scan (FilteringIterator): expired key/value rows
  are dropped against a cutoff fixed when the filter is built, and the
  query's predicate, if any, decides the rest, seeing the value only when it
  asked for it.
 */
module RowFiltering {
  import opened Wrappers

  type Key = int
  type Value = int

  /** An IgniteBiPredicate over (key, value); the value is `None` where the source passes null. */
  type Predicate = (Key, Option<Value>) -> bool

  /**
    A scanned row. `KeyValueRow` is a GridH2AbstractKeyValueRow and carries
    an expiration time; `PlainRow` is any other row.
   */
  datatype Row =
    | KeyValueRow(key: Key, val: Value, expirationTime: int)
    | PlainRow(key: Key, val: Value)

  /** An IndexingQueryFilter: the predicate it gives per space (null for none) and whether it needs values. */
  datatype QueryFilter = QueryFilter(forSpace: string -> Option<Predicate>, valueRequired: bool)

  /** The fixed fields of a FilteringIterator. */
  datatype FilteringIterator = FilteringIterator(time: int, fltr: Option<Predicate>, isValRequired: bool)

  /** A row is expired at `time` when it is a key/value row whose expiration time is not after `time`. */
  predicate Expired(time: int, row: Row)
  {
    row.KeyValueRow? && row.expirationTime <= time
  }

  /** Builds the filter of a scan; `time` is read once, here, and never again. */
  function NewFilteringIterator(time: int, qryFilter: Option<QueryFilter>, spaceName: string): (it: FilteringIterator)
    ensures it.time == time
    ensures qryFilter.None? ==> it.fltr.None? && !it.isValRequired
    ensures qryFilter.Some? ==>
      it.fltr == qryFilter.value.forSpace(spaceName) && it.isValRequired == qryFilter.value.valueRequired
  {
    match qryFilter
    case Some(q) => FilteringIterator(time, q.forSpace(spaceName), q.valueRequired)
    case None => FilteringIterator(time, None, false)
  }

  /** The per-row decision of FilteringIterator.accept. */
  function Accept(it: FilteringIterator, row: Row): (ok: bool)
    ensures Expired(it.time, row) ==> !ok
    ensures !Expired(it.time, row) && it.fltr.None? ==> ok
    ensures !Expired(it.time, row) && it.fltr.Some? ==>
      ok == it.fltr.value(row.key, if it.isValRequired then Some(row.val) else None)
  {
    if Expired(it.time, row) then false
    else if it.fltr.None? then true
    else
      var key := row.key;
      var val := if it.isValRequired then Some(row.val) else None;
      it.fltr.value(key, val)
  }

  /** The rows a FilteringIterator yields from `rows`, in their original order. */
  function Filtered(it: FilteringIterator, rows: seq<Row>): (out: seq<Row>)
    ensures |out| <= |rows|
    ensures forall r :: r in out ==> r in rows && Accept(it, r)
  {
    if rows == [] then []
    else (if Accept(it, rows[0]) then [rows[0]] else []) + Filtered(it, rows[1..])
  }

  /** Every row the filter accepts is yielded. */
  lemma {:induction false} FilteredKeepsAccepted(it: FilteringIterator, rows: seq<Row>)
    ensures forall r :: r in rows && Accept(it, r) ==> r in Filtered(it, rows)
  {
    if rows != [] {
      FilteredKeepsAccepted(it, rows[1..]);
      forall r | r in rows && Accept(it, r) ensures r in Filtered(it, rows) {
        if r != rows[0] {
          assert r in rows[1..];
        }
      }
    }
  }

  /**
    The cutoff is the same for every row: filtering a scan in two pieces
    yields what filtering it whole yields.
   */
  lemma {:induction false} FilteredAppend(it: FilteringIterator, a: seq<Row>, b: seq<Row>)
    ensures Filtered(it, a + b) == Filtered(it, a) + Filtered(it, b)
  {
    if a == [] {
      assert a + b == b;
    } else {
      assert (a + b)[0] == a[0];
      assert (a + b)[1..] == a[1..] + b;
      FilteredAppend(it, a[1..], b);
    }
  }

  /** Filtering a filtered scan again changes nothing. */
  lemma {:induction false} FilteredIdempotent(it: FilteringIterator, rows: seq<Row>)
    ensures Filtered(it, Filtered(it, rows)) == Filtered(it, rows)
  {
    if rows != [] {
      var head: seq<Row> := if Accept(it, rows[0]) then [rows[0]] else [];
      FilteredIdempotent(it, rows[1..]);
      FilteredAppend(it, head, Filtered(it, rows[1..]));
      if head != [] {
        assert head[1..] == [];
      }
    }
  }

  /** Without a predicate, a scan with no expired row comes through whole and in order. */
  lemma {:induction false} FilteredWithoutPredicate(it: FilteringIterator, rows: seq<Row>)
    requires it.fltr.None?
    requires forall k :: 0 <= k < |rows| ==> !Expired(it.time, rows[k])
    ensures Filtered(it, rows) == rows
  {
    if rows != [] {
      FilteredWithoutPredicate(it, rows[1..]);
      assert [rows[0]] + rows[1..] == rows;
    }
  }

  /** When the predicate does not need the value, the row's value does not influence the decision. */
  lemma ValueNotReadUnlessRequired(it: FilteringIterator, row: Row, v: Value)
    requires !it.isValRequired
    ensures Accept(it, row) == Accept(it, row.(val := v))
  {
  }

  /**
    A filter built at 1000 over a predicate that needs only the key (and
    accepts only when it is given no value) yields the unexpired row alone.
   */
  lemma KeyOnlyScan()
    ensures
      var keyOnly: Predicate := (k: Key, v: Option<Value>) => v.None?;
      var q := QueryFilter(_ => Some(keyOnly), false);
      var it := NewFilteringIterator(1000, Some(q), "space");
      Filtered(it, [KeyValueRow(1, 10, 500), KeyValueRow(2, 20, 2000)]) == [KeyValueRow(2, 20, 2000)]
  {
    var keyOnly: Predicate := (k: Key, v: Option<Value>) => v.None?;
    var q := QueryFilter(_ => Some(keyOnly), false);
    var it := NewFilteringIterator(1000, Some(q), "space");
    var rows := [KeyValueRow(1, 10, 500), KeyValueRow(2, 20, 2000)];
    assert rows[1..][1..] == [];
    assert !Accept(it, rows[0]);
    assert Accept(it, rows[1]);
  }
}
