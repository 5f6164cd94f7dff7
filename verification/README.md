# GridH2IndexBase in Dafny

This project models the base class of Apache Ignite's H2 indexes, `GridH2IndexBase`. It covers four parts:

- **Snapshot reservation protocol.** An index keeps one snapshot slot per thread. `takeSnapshot` fills it with a snapshot the caller passes in, or with one from `doTakeSnapshot`. A reservable snapshot is reserved first; if the reservation is refused, nothing is taken. On success the snapshot is registered in the query context under the index id. `releaseSnapshot` clears the slot, then releases the reservation and closes the resource.
- **Distributed-join multiplier gate.** `getDistributedMultiplier` returns the collocated multiplier (1) unless a distributed join is being planned. In that case it empties the session's sub-query view index cache and returns what the collocation model computes.
- **Row filter.** `FilteringIterator` fixes its time cutoff once, when it is built. Each row is then judged the same way: key/value rows that expired at or before the cutoff are dropped, and the query predicate, if any, decides the rest. The predicate sees the row's value only when it asks for it.
- **Fixed contract surface.** The generic H2 mutation entry points always fail with an "unsupported" error naming the operation. `needRebuild` is false, the disk space used is 0, `close(Session)` does nothing and the default `rebuild` returns the index itself. Index ids come from a process-wide counter.

Modules:
- `Wrappers`: `Option` (for Java `null`) and `Outcome` (for a `void` method that may throw).
- `Snapshots`: the snapshot datatype and the calls made on snapshots (reserve with its outcome, release, close, `doTakeSnapshot`). It also holds the pure take and release decisions and the reservation balance of a call log.
- `RowFiltering`: rows, query filters, `FilteringIterator`, the per-row `Accept`, and `Filtered`, which lifts `Accept` over a sequence of rows.
- `IndexBase`: the `Index` class (the id, the thread's snapshot slot, and a ghost log of the calls it makes on snapshots), `IdGenerator` (the static `AtomicLong`), `QueryContext`, `Session`, the multiplier gate and the unsupported operations.

The main invariant is `Index.Valid()`. For every snapshot `s`, the granted reservations of `s` minus its releases in the index's call log equal 1 when `s` is the reservable snapshot in the slot, and 0 otherwise. `TakeSnapshot` and `ReleaseSnapshot` preserve it. So every reservation the index is granted is still held by the slot or has been released once; none is released twice or without having been granted, and a refused reservation leaves nothing to release. Releasing the slot's reservation is the caller's duty: a scan that never calls `releaseSnapshot` keeps it.

A behaviour worth knowing: when `doTakeSnapshot` produces a reservable snapshot that is also closeable and the reservation is refused, `takeSnapshot` returns null without closing that snapshot. `Snapshots.TakeCalls` states that a take never closes anything.

## Model

| member | source | states |
|---|---|---|
| `Snapshots.TakeOutcome` | modules/indexing/src/main/java/org/apache/ignite/internal/processors/query/h2/opt/GridH2IndexBase.java:102-118 | A take yields the caller's snapshot when one is given, otherwise the one `doTakeSnapshot` produced. It yields null exactly when there is no snapshot or when a reservable snapshot's reservation is refused. A snapshot that comes back reservable was reserved successfully. |
| `Snapshots.TakeCalls` | modules/indexing/src/main/java/org/apache/ignite/internal/processors/query/h2/opt/GridH2IndexBase.java:105-110 | `doTakeSnapshot` is called exactly when the caller gives no snapshot, at most once and first. `reserve` is called at most once, exactly on a reservable candidate, and the call records its outcome. A take makes no other call and never releases or closes anything. |
| `Snapshots.ReleaseCalls` | modules/indexing/src/main/java/org/apache/ignite/internal/processors/query/h2/opt/GridH2IndexBase.java:189-193 | A release calls `release` exactly once if the snapshot is reservable, `close` exactly once if it is closeable, and nothing else. When both apply, `release` comes first. |
| `Snapshots.ReservationsAppend` | modules/indexing/src/main/java/org/apache/ignite/internal/processors/query/h2/opt/GridH2IndexBase.java:102-194 | The reservation balance of a call log is the sum of the balances of its parts. |
| `Snapshots.TakeBalance` | modules/indexing/src/main/java/org/apache/ignite/internal/processors/query/h2/opt/GridH2IndexBase.java:108-112 | A take holds one reservation on `s` exactly when it returns `s` and `s` is reservable, and holds none on any other snapshot. |
| `Snapshots.ReleaseBalance` | modules/indexing/src/main/java/org/apache/ignite/internal/processors/query/h2/opt/GridH2IndexBase.java:189-190 | A release gives back exactly the one reservation held on a reservable snapshot and changes no other balance. |
| `Snapshots.ReserveFailureTakesNothing` | modules/indexing/src/main/java/org/apache/ignite/internal/processors/query/h2/opt/GridH2IndexBase.java:109-110 | A refused reservation makes the take return null, even for a snapshot the caller supplied. The attempt is recorded, and no reservation is left on any snapshot. |
| `IndexBase.Index.TakeSnapshot` | modules/indexing/src/main/java/org/apache/ignite/internal/processors/query/h2/opt/GridH2IndexBase.java:102-119 | Requires an empty slot. The result is the one `TakeOutcome` gives, and the slot then holds exactly that result. The query context, if there is one, gains the entry `idxId -> s` on success and is otherwise unchanged. The calls made are those of `TakeCalls`, and the reservation invariant is kept. |
| `IndexBase.Index.ReleaseSnapshot` | modules/indexing/src/main/java/org/apache/ignite/internal/processors/query/h2/opt/GridH2IndexBase.java:182-194 | Requires an active snapshot. The slot is always left empty. The calls made are those of `ReleaseCalls` for the snapshot that was in the slot, and the reservation invariant is kept. |
| `IndexBase.Index.ThreadLocalSnapshot` | modules/indexing/src/main/java/org/apache/ignite/internal/processors/query/h2/opt/GridH2IndexBase.java:175-177 | Returns whatever the slot holds, whether it is reservable or not, and null when it is empty. A reservable snapshot there holds exactly one reservation, and no other snapshot holds one. |
| `IndexBase.QueryContext.PutSnapshot` | modules/indexing/src/main/java/org/apache/ignite/internal/processors/query/h2/opt/GridH2IndexBase.java:114-115 | Registers the snapshot under the index id and leaves every other entry as it was. |
| `IndexBase.DistributedMultiplier` | modules/indexing/src/main/java/org/apache/ignite/internal/processors/query/h2/opt/GridH2IndexBase.java:137-157 | The result differs from the collocated multiplier only while a distributed join is planned. That means a query context in the PREPARE phase with distributed joins on, in a session that is not preparing a query expression. Any other case gives 1. A planned join gives the model's answer, computed from (qctx, sub-query info, filters, filter) with an empty view index cache. |
| `IndexBase.Index.GetDistributedMultiplier` | modules/indexing/src/main/java/org/apache/ignite/internal/processors/query/h2/opt/GridH2IndexBase.java:137-157 | Returns `DistributedMultiplier`. The session's view index cache is emptied when a distributed join is planned and is untouched otherwise. |
| `IndexBase.ClearViewIndexCache` | modules/indexing/src/main/java/org/apache/ignite/internal/processors/query/h2/opt/GridH2IndexBase.java:124-129 | Leaves the session's sub-query view index cache empty. |
| `IndexBase.IncrementAndGet` | modules/indexing/src/main/java/org/apache/ignite/internal/processors/query/h2/opt/GridH2IndexBase.java:49-52 | The next counter value is a `long` one above the previous value, modulo 2^64. |
| `IndexBase.IdGenerator.constructor` | modules/indexing/src/main/java/org/apache/ignite/internal/processors/query/h2/opt/GridH2IndexBase.java:49 | The counter starts at 0, with no id issued. |
| `IndexBase.IdGenerator.Next` | modules/indexing/src/main/java/org/apache/ignite/internal/processors/query/h2/opt/GridH2IndexBase.java:49-52 | Issues `IncrementAndGet` of the counter and records the id. Until the counter wraps, the new id is strictly greater than every id issued before, and the issued ids stay strictly increasing. |
| `IndexBase.Index.constructor` | modules/indexing/src/main/java/org/apache/ignite/internal/processors/query/h2/opt/GridH2IndexBase.java:52-55 | A new index takes the next id from the generator, and the generator's wrap flag is updated as `Next` does. Until the counter wraps, that id is greater than every earlier id, so successive indexes get strictly increasing ids. The index starts with an empty slot and no snapshot calls. |
| `IndexBase.ThreadLocalFilter` | modules/indexing/src/main/java/org/apache/ignite/internal/processors/query/h2/opt/GridH2IndexBase.java:212-219 | The query's filter when a query context exists, and null otherwise. |
| `IndexBase.Index.Filter` | modules/indexing/src/main/java/org/apache/ignite/internal/processors/query/h2/opt/GridH2IndexBase.java:203-205 | A filtered scan is `Filtered` over the iterator built at `time` from the query filter: every row of the scan that the iterator accepts is kept, in scan order and as often as the scan holds it, and every other row is dropped (with `FilteredAppend` and `FilteredKeepsAccepted`). It never yields an expired row. With a query filter it yields only rows the predicate accepts, and without one it yields every unexpired row. |
| `RowFiltering.NewFilteringIterator` | modules/indexing/src/main/java/org/apache/ignite/internal/processors/query/h2/opt/GridH2IndexBase.java:275-290 | The cutoff is the `time` given at construction. Without a query filter there is no predicate and no value is required. With one, the predicate is the filter's for the space, and the value flag is the filter's. |
| `RowFiltering.Accept` | modules/indexing/src/main/java/org/apache/ignite/internal/processors/query/h2/opt/GridH2IndexBase.java:297-313 | An expired key/value row is rejected whatever the predicate says. Without a predicate, every unexpired row is accepted. Otherwise the answer is the predicate applied to the key and to the value if required, null if not. Non-key/value rows skip the expiration check. |
| `RowFiltering.Filtered` | modules/indexing/src/main/java/org/apache/ignite/internal/processors/query/h2/opt/GridH2IndexBase.java:259-313 | The iterator yields at most as many rows as the scan has. Every row it yields comes from the scan and is accepted. |
| `RowFiltering.FilteredKeepsAccepted` | modules/indexing/src/main/java/org/apache/ignite/internal/processors/query/h2/opt/GridH2IndexBase.java:297-313 | Every accepted row of the scan is yielded. |
| `RowFiltering.FilteredAppend` | modules/indexing/src/main/java/org/apache/ignite/internal/processors/query/h2/opt/GridH2IndexBase.java:264-279 | Because the cutoff is fixed at construction, filtering a scan in two pieces gives the same rows as filtering it whole. |
| `RowFiltering.FilteredIdempotent` | modules/indexing/src/main/java/org/apache/ignite/internal/processors/query/h2/opt/GridH2IndexBase.java:297-313 | Filtering already-filtered rows again changes nothing. |
| `RowFiltering.FilteredWithoutPredicate` | modules/indexing/src/main/java/org/apache/ignite/internal/processors/query/h2/opt/GridH2IndexBase.java:303-304 | Without a predicate, a scan with no expired row comes through whole and in order. |
| `RowFiltering.ValueNotReadUnlessRequired` | modules/indexing/src/main/java/org/apache/ignite/internal/processors/query/h2/opt/GridH2IndexBase.java:307 | When the predicate does not need the value, the row's value has no influence on the decision. |
| `RowFiltering.KeyOnlyScan` | modules/indexing/src/main/java/org/apache/ignite/internal/processors/query/h2/opt/GridH2IndexBase.java:297-313 | With a filter built at 1000 and a key-only predicate, rows (1, expires 500) and (2, expires 2000) yield only row 2, and the predicate is given no value. |
| `IndexBase.Index.Close` | modules/indexing/src/main/java/org/apache/ignite/internal/processors/query/h2/opt/GridH2IndexBase.java:58-60 | Closing through the session changes nothing. |
| `IndexBase.Index.Rebuild` | modules/indexing/src/main/java/org/apache/ignite/internal/processors/query/h2/opt/GridH2IndexBase.java:75-77 | The default rebuild returns the same index. |
| `IndexBase.Index.NeedRebuild` | modules/indexing/src/main/java/org/apache/ignite/internal/processors/query/h2/opt/GridH2IndexBase.java:252-254 | The index never asks to be rebuilt. |
| `IndexBase.Index.DiskSpaceUsed` | modules/indexing/src/main/java/org/apache/ignite/internal/processors/query/h2/opt/GridH2IndexBase.java:222-224 | The reported disk space is 0. |
| `IndexBase.Index.CheckRename` | modules/indexing/src/main/java/org/apache/ignite/internal/processors/query/h2/opt/GridH2IndexBase.java:227-229 | Always fails with an unsupported-operation error naming "rename". |
| `IndexBase.Index.Add` | modules/indexing/src/main/java/org/apache/ignite/internal/processors/query/h2/opt/GridH2IndexBase.java:232-234 | Always fails with an unsupported-operation error naming "add". |
| `IndexBase.Index.RemoveRow` | modules/indexing/src/main/java/org/apache/ignite/internal/processors/query/h2/opt/GridH2IndexBase.java:237-239 | Always fails with an unsupported-operation error naming "remove row". |
| `IndexBase.Index.RemoveIndex` | modules/indexing/src/main/java/org/apache/ignite/internal/processors/query/h2/opt/GridH2IndexBase.java:242-244 | Always fails with an unsupported-operation error naming "remove index". |
| `IndexBase.Index.Truncate` | modules/indexing/src/main/java/org/apache/ignite/internal/processors/query/h2/opt/GridH2IndexBase.java:247-249 | Always fails with an unsupported-operation error naming "truncate". |

## Left out

- `ThreadLocal` and `AtomicLong` are not modelled as such. The snapshot slot is a plain field of `Index`, for one thread. The id counter is a plain field of `IdGenerator`. Cross-thread behaviour is not modelled.
- `GridH2QueryContext.get()` is an ambient lookup in the source. Here the query context is an explicit parameter, and `null` stands for "no context".
- `doTakeSnapshot`, `destroy`, `put` and `remove(SearchRow)` are abstract in the source. What `doTakeSnapshot` returns is the `produced` parameter of `TakeSnapshot`. The other three have no body to model.
- The outcome of `reserve()` is the `reserveOk` parameter. Reservation counts kept inside snapshots and shared between indexes are not modelled. `Index.Valid` is about the calls this index makes.
- `U.closeQuiet` swallows and logs close errors. Here a close is a recorded call that always completes. Logging is not modelled.
- The wall clock (`U.currentTimeMillis`) is not modelled; `Index.Filter` takes `time` as a parameter. `getTable()` and `spaceName()` are not modelled either: the space name is a parameter.
- `GridFilteredIterator` iterates lazily. Here the filtered scan is a finite sequence (`RowFiltering.Filtered`).
- `accept` asserts that the key is non-null, and that the value is non-null when required. Here the row's key and value types have no null, so those asserts cannot fail.
- The internals of `buildCollocationModel` and `calculateMultiplier` are not modelled; `CollocationModel` is an arbitrary function value that returns at least 1. The H2 `Session`, `ViewIndex` and `TableFilter` are reduced to the fields and identifiers this class uses.
- `GridH2QueryContext.putSnapshot` is not part of this model. `QueryContext.PutSnapshot` is a plain map update.
- `GridH2QueryType` is not part of this model. Only `LOCAL`, `PREPARE` and `REPLICATED` appear in the modelled file; `Map` and `Reduce` complete the enumeration.
- `IndexBase.IdGenerator.Next`: strictly growing ids are proved only until the counter passes `LONG_MAX`. `incrementAndGet` then wraps to `LONG_MIN` (see `IncrementAndGet`), and later ids can repeat earlier ones.
