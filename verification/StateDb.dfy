/** The slots table of state.sqlite (state.py): upsert, end, boot reconciliation and the background sweep.
    The table is a map from the primary key; a SELECT without ORDER BY yields its rows in any order. */
module StateDb {
  import opened Wrappers
  import opened Fsm
  import opened Slots

  datatype Row = Row(
    state: SlotState, pid: Option<Pid>, createdAt: int, endedAt: Option<int>, endReason: Option<string>)

  type Table = map<SlotId, Row>

  /** `upsert_slot` as every caller uses it, without `ended_at`: it clears an earlier end. */
  function Upserted(rows: Table, id: SlotId, state: SlotState, pid: Option<Pid>, now: int): Table {
    rows[id := Row(state, pid, if id in rows then rows[id].createdAt else now, None, None)]
  }

  function EndedRow(r: Row, reason: string, now: int): Row {
    r.(state := COLD, endedAt := Some(now), endReason := Some(reason))
  }

  /** `mark_slot_ended`: an UPDATE, so a missing row stays missing. */
  function Ended(rows: Table, id: SlotId, reason: string, now: int): Table {
    if id in rows then rows[id := EndedRow(rows[id], reason, now)] else rows
  }

  /** `mark_slot_ended` on each of `ids`. */
  function EndedAll(rows: Table, ids: set<SlotId>, reason: string, now: int): Table {
    map id | id in rows :: if id in ids then EndedRow(rows[id], reason, now) else rows[id]
  }

  predicate HasStalePid(r: Row) {
    r.pid.Some? && r.state != POPPED && r.state != COLD && r.endedAt.None?
  }

  predicate IsPreActiveOrphan(r: Row) {
    r.pid.None? && r.state != POPPED && r.state != COLD && r.state != IDLE_HOT && r.endedAt.None?
  }

  predicate IsStale(r: Row, cutoff: int) {
    r.state == STAGED && r.createdAt < cutoff && r.pid.None? && r.endedAt.None?
  }

  /** What one boot reconciliation makes of one row. */
  function ReconciledRow(r: Row, live: set<Pid>, now: int): Row {
    if HasStalePid(r) && r.pid.value !in live then EndedRow(r, "boot-reconcile-orphaned-pid", now)
    else if IsPreActiveOrphan(r) then EndedRow(r, "boot-reconcile-pre-active-orphan", now)
    else r
  }

  function Reconciled(rows: Table, live: set<Pid>, now: int): Table {
    map id | id in rows :: ReconciledRow(rows[id], live, now)
  }

  function Orphans(rows: Table, live: set<Pid>): set<SlotId> {
    set id | id in rows && ((HasStalePid(rows[id]) && rows[id].pid.value !in live) || IsPreActiveOrphan(rows[id]))
  }

  function Stale(rows: Table, cutoff: int): set<SlotId> {
    set id | id in rows && IsStale(rows[id], cutoff)
  }

  /** Some open row outside POPPED and COLD has this pid. */
  ghost predicate HasRowInUse(rows: Table, p: Pid) {
    exists id :: id in rows && HasStalePid(rows[id]) && rows[id].pid == Some(p)
  }

  /** Ended, POPPED or COLD; or its process is alive; or a pid-less IDLE_HOT. */
  predicate AccountedFor(r: Row, isAlive: Pid -> bool) {
    || r.endedAt.Some? || r.state == POPPED || r.state == COLD
    || match r.pid case Some(p) => p != 0 && isAlive(p) case None => r.state == IDLE_HOT
  }

  function Unaccounted(rows: Table, isAlive: Pid -> bool): set<SlotId> {
    set id | id in rows && !AccountedFor(rows[id], isAlive)
  }

  predicate EndedNow(r: Row, now: int) {
    r.state == COLD && r.endedAt == Some(now) && r.endReason.Some?
  }

  const SWEEP_BATCH := 100

  /** One sweep may end any `ids` of this kind: stale rows, all of them or a full batch. */
  ghost predicate IsSweep(rows: Table, cutoff: int, ids: set<SlotId>) {
    ids <= Stale(rows, cutoff)
        && |ids| == if |Stale(rows, cutoff)| < SWEEP_BATCH then |Stale(rows, cutoff)| else SWEEP_BATCH
  }

  class StateDb {
    var rows: Table
    var finalized: nat

    constructor ()
      ensures rows == map[] && finalized == 0
    {
      rows, finalized := map[], 0;
    }

    method UpsertSlot(id: SlotId, state: SlotState, pid: Option<Pid>, now: int)
      modifies this`rows
      ensures rows == Upserted(old(rows), id, state, pid, now)
    {
      var created := if id in rows then rows[id].createdAt else now;
      rows := rows[id := Row(state, pid, created, None, None)];
    }

    method MarkSlotEnded(id: SlotId, reason: string, now: int)
      modifies this`rows
      ensures rows == Ended(old(rows), id, reason, now)
    {
      if id in rows {
        rows := rows[id := rows[id].(state := COLD, endedAt := Some(now), endReason := Some(reason))];
      }
    }

    /** The pids worth asking the host about: those that some open row outside POPPED and COLD has. A zero pid is
        dropped, as the source drops falsy ones. */
    method KnownActivePids() returns (pids: set<Pid>)
      ensures forall p :: p in pids <==> p != 0 && HasRowInUse(rows, p)
    {
      pids := set id | id in rows && HasStalePid(rows[id]) && rows[id].pid.value != 0 :: rows[id].pid.value;
    }

    /** The row part of `boot_reconcile`: ask which known pids are alive and end the orphans. Afterwards every row
        is accounted for; the rows that were are untouched, and the others are ended now and counted. */
    method BootReconcile(isAlive: Pid -> bool, now: int) returns (n: nat)
      modifies this`rows
      ensures rows.Keys == old(rows).Keys
      ensures forall id :: id in rows ==> AccountedFor(rows[id], isAlive)
      ensures forall id :: id in rows && AccountedFor(old(rows)[id], isAlive) ==> rows[id] == old(rows)[id]
      ensures forall id :: id in Unaccounted(old(rows), isAlive) ==> EndedNow(rows[id], now)
      ensures n == |Unaccounted(old(rows), isAlive)|
    {
      ghost var before := rows;
      var known := KnownActivePids();
      var live := set p | p in known && isAlive(p);
      BootAccounts(before, isAlive, live, now);
      n := ReconcileOrphanedSlots(live, now);
    }

    /** Two passes: rows whose pid is not live, then rows that never had one. */
    method ReconcileOrphanedSlots(live: set<Pid>, now: int) returns (n: nat)
      modifies this`rows
      ensures rows == Reconciled(old(rows), live, now)
      ensures n == |Orphans(old(rows), live)|
    {
      ghost var before := rows;
      var first := set id | id in rows && HasStalePid(rows[id]) && rows[id].pid.value !in live;
      n := EndEach(first, "boot-reconcile-orphaned-pid", now);
      var second := set id | id in rows && IsPreActiveOrphan(rows[id]);
      assert second == set id | id in before && IsPreActiveOrphan(before[id]);
      var m := EndEach(second, "boot-reconcile-pre-active-orphan", now);
      assert Orphans(before, live) == first + second;
      n := n + m;
    }

    /** The loop over fetched rows: end each and count. */
    method EndEach(ids: set<SlotId>, reason: string, now: int) returns (n: nat)
      requires ids <= rows.Keys
      modifies this`rows
      ensures rows == EndedAll(old(rows), ids, reason, now)
      ensures n == |ids|
    {
      ghost var before := rows;
      var todo := ids;
      n := 0;
      while todo != {}
        invariant todo <= ids && n == |ids| - |todo|
        invariant rows == EndedAll(before, ids - todo, reason, now)
        decreases todo
      {
        var id :| id in todo;
        MarkSlotEnded(id, reason, now);
        todo, n := todo - {id}, n + 1;
      }
    }

    /** The sweep's SELECT: all stale rows, or a full batch of them. */
    method SelectStale(cutoff: int) returns (ids: set<SlotId>)
      ensures IsSweep(rows, cutoff, ids)
    {
      var batch, left := {}, Stale(rows, cutoff);
      while left != {} && |batch| < SWEEP_BATCH
        invariant batch + left == Stale(rows, cutoff) && batch !! left && |batch| <= SWEEP_BATCH
        decreases left
      {
        var id :| id in left;
        batch, left := batch + {id}, left - {id};
      }
      ids := batch;
      assert left == {} ==> batch == Stale(rows, cutoff);
      assert |batch + left| == |batch| + |left|;
    }

    /** The sweep's UPDATEs, counted. */
    method EndBatch(ids: set<SlotId>, now: int) returns (n: nat)
      requires ids <= rows.Keys
      modifies this
      ensures rows == EndedAll(old(rows), ids, "background_sweeper_evicted", now)
      ensures n == |ids| && finalized == old(finalized) + n
    {
      n := EndEach(ids, "background_sweeper_evicted", now);
      finalized := finalized + n;
    }
  }

  // ---- reconciliation ----

  /** After a reconciliation an un-ended row is in POPPED or COLD, or has a live pid, or is a pid-less
      IDLE_HOT row; and exactly the rows that were none of these are the ones changed. */
  lemma ReconcileLeavesNoOrphan(rows: Table, live: set<Pid>, now: int, id: SlotId)
    requires id in rows
    ensures var before, after := rows[id], Reconciled(rows, live, now)[id];
            && (after.endedAt.None? ==>
                  || after.state == POPPED || after.state == COLD
                  || (after.pid.Some? && after.pid.value in live)
                  || (after.pid.None? && after.state == IDLE_HOT))
            && (after != before <==> id in Orphans(rows, live))
            && (after != before ==> after.state == COLD && after.endedAt == Some(now) && after.endReason.Some?)
  {
  }

  /** With the pids the host reports alive among the known ones, the orphans are exactly the rows that are not
      accounted for, and reconciling accounts for them. */
  lemma BootAccounts(rows: Table, isAlive: Pid -> bool, live: set<Pid>, now: int)
    requires forall p :: p in live <==> p != 0 && isAlive(p) && HasRowInUse(rows, p)
    ensures Orphans(rows, live) == Unaccounted(rows, isAlive)
    ensures forall id :: id in rows ==> AccountedFor(Reconciled(rows, live, now)[id], isAlive)
    ensures forall id :: id in rows && AccountedFor(rows[id], isAlive) ==> Reconciled(rows, live, now)[id] == rows[id]
    ensures forall id :: id in Unaccounted(rows, isAlive) ==> EndedNow(Reconciled(rows, live, now)[id], now)
  {
    forall id | id in rows ensures id in Orphans(rows, live) <==> id in Unaccounted(rows, isAlive) {
      var r := rows[id];
      assert HasStalePid(r) ==> HasRowInUse(rows, r.pid.value);
    }
    assert forall id :: id in rows ==> Reconciled(rows, live, now)[id] == ReconciledRow(rows[id], live, now);
  }

  /** A second reconciliation with the same live pids finds nothing. */
  lemma ReconcileIsIdempotent(rows: Table, live: set<Pid>, now: int, later: int)
    ensures Reconciled(Reconciled(rows, live, now), live, later) == Reconciled(rows, live, now)
    ensures Orphans(Reconciled(rows, live, now), live) == {}
  {
    var once := Reconciled(rows, live, now);
    forall id | id in once ensures ReconciledRow(once[id], live, later) == once[id] && id !in Orphans(once, live) {
      ReconcileLeavesNoOrphan(rows, live, now, id);
    }
  }

  // ---- sweeps ----

  /** A sweep ends nothing that the reconciliation of a next start would keep, whatever processes are alive then. */
  lemma StaleIsUnaccounted(rows: Table, cutoff: int, isAlive: Pid -> bool)
    ensures Stale(rows, cutoff) <= Unaccounted(rows, isAlive)
    ensures forall id :: id in Stale(rows, cutoff) ==> rows[id].createdAt < cutoff
  {
  }

  /** The table after a list of sweeps. */
  ghost function AfterSweeps(rows: Table, sweeps: seq<set<SlotId>>, now: int): Table
    decreases sweeps
  {
    if sweeps == [] then rows
    else AfterSweeps(EndedAll(rows, sweeps[0], "background_sweeper_evicted", now), sweeps[1..], now)
  }

  ghost predicate AreSweeps(rows: Table, cutoff: int, sweeps: seq<set<SlotId>>, now: int)
    decreases sweeps
  {
    sweeps == [] ||
    (IsSweep(rows, cutoff, sweeps[0])
     && AreSweeps(EndedAll(rows, sweeps[0], "background_sweeper_evicted", now), cutoff, sweeps[1..], now))
  }

  function Finalized(sweeps: seq<set<SlotId>>): nat
    decreases sweeps
  {
    if sweeps == [] then 0 else |sweeps[0]| + Finalized(sweeps[1..])
  }

  lemma SweepShrinksStale(rows: Table, cutoff: int, ids: set<SlotId>, now: int)
    requires IsSweep(rows, cutoff, ids)
    ensures Stale(EndedAll(rows, ids, "background_sweeper_evicted", now), cutoff) == Stale(rows, cutoff) - ids
    ensures |Stale(rows, cutoff) - ids| == |Stale(rows, cutoff)| - |ids|
  {
    var after := EndedAll(rows, ids, "background_sweeper_evicted", now);
    forall id ensures id in Stale(after, cutoff) <==> id in Stale(rows, cutoff) - ids {
    }
  }

  /** `k` sweeps of a table with `n` stale rows end exactly min(n, 100k) of them, whichever rows each
      SELECT returns, and the lifetime counter grows by exactly that. */
  lemma {:induction false} SweepsFinalizeExactly(rows: Table, cutoff: int, sweeps: seq<set<SlotId>>, now: int)
    requires AreSweeps(rows, cutoff, sweeps, now)
    ensures var n, most := |Stale(rows, cutoff)|, SWEEP_BATCH * |sweeps|;
            && Finalized(sweeps) == (if n < most then n else most)
            && |Stale(AfterSweeps(rows, sweeps, now), cutoff)| == n - Finalized(sweeps)
    decreases sweeps
  {
    if sweeps != [] {
      SweepShrinksStale(rows, cutoff, sweeps[0], now);
      SweepsFinalizeExactly(EndedAll(rows, sweeps[0], "background_sweeper_evicted", now), cutoff, sweeps[1..], now);
    }
  }

  /** So ceil(n / 100) sweeps, and no fewer, leave no stale row. */
  lemma SweepsNeeded(rows: Table, cutoff: int, sweeps: seq<set<SlotId>>, now: int)
    requires AreSweeps(rows, cutoff, sweeps, now)
    ensures Stale(AfterSweeps(rows, sweeps, now), cutoff) == {} <==>
            |sweeps| >= (|Stale(rows, cutoff)| + SWEEP_BATCH - 1) / SWEEP_BATCH
  {
    SweepsFinalizeExactly(rows, cutoff, sweeps, now);
  }
}
