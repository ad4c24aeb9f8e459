/** The invariant of the scheduler machine, and the facts about single writes that every step needs. */
module SchedulerInvariant {
  import opened Wrappers
  import opened Fsm
  import opened Slots
  import opened Queue
  import opened QueueRuns
  import opened StateDb
  import opened Scheduler

  // ---- sidecars ----

  predicate Terminating(d: Sidecars, p: Pid) {
    p in d.procs && d.procs[p].terminating
  }

  /** Custody: a process that is alive and was never sent SIGTERM is in a holder; two filled holders hold
      the same process; the idle holder's tag is its process's. */
  ghost predicate SideOk(d: Sidecars) {
    && (d.active.Some? ==> d.active.value in d.procs)
    && (d.idle.Some? ==> d.idle.value in d.procs && d.procs[d.idle.value].tag == d.idleTag)
    && (d.active.Some? && d.idle.Some? ==> d.active == d.idle)
    && (forall p :: p in d.procs && d.procs[p].alive && !d.procs[p].terminating ==>
          d.active == Some(p) || d.idle == Some(p))
  }

  /** The active holder is empty, or keeps a process after a SIGTERM call for it raised. */
  predicate Parked(d: Sidecars) {
    d.active.Some? ==> d.idle.None? && Terminating(d, d.active.value) && d.active.value in d.raised
  }

  /** The active handle is being terminated. */
  predicate Ending(d: Sidecars) {
    d.active.Some? && d.idle.None? && Terminating(d, d.active.value)
  }

  // ---- book ----

  predicate Queued(q: QueueState, id: SlotId) {
    id in q.staging || id in q.buf
  }

  ghost predicate Distinct(ids: seq<SlotId>) {
    forall x :: Count(ids, x) <= 1
  }

  /** A slot the scheduler is done with: no pending future and, unless it was evicted or dropped by
      shutdown, a COLD row with an end and a reason. */
  predicate Finished(b: Book, id: SlotId) {
    && id in b.slots && b.slots[id].future != Pending
    && (|| (id in b.dropped && (b.slots[id].state == STAGED || b.slots[id].state == ACCEPT_BUFFER))
        || (id in b.gone && b.slots[id].state == STAGED && b.slots[id].evicted)
        || (id !in b.gone && (b.slots[id].state == POPPED || b.slots[id].state == COLD)
            && id in b.rows && b.rows[id].state == COLD && b.rows[id].endedAt.Some? && b.rows[id].endReason.Some?))
  }

  /** A slot is queued in the state of its tier, in hand, or finished, and only one of these. */
  ghost predicate PlaceOk(b: Book, hand: set<SlotId>, id: SlotId) {
    && (id in b.slots <==> id in b.rows) && (id in b.slots ==> LegalHistory(b.slots[id]))
    && (id in b.q.staging ==> At(b, id, STAGED) && b.slots[id].pid.None?)
    && (id in b.q.buf ==> At(b, id, ACCEPT_BUFFER) && b.slots[id].pid.None?)
    && (id in b.gone || id in b.dropped ==> id in b.slots && !Queued(b.q, id) && id !in hand)
    && (id in hand ==> id in b.slots && !Queued(b.q, id))
    && (id in b.slots && !Queued(b.q, id) && id !in hand ==> Finished(b, id))
  }

  ghost predicate BookOk(b: Book, hand: set<SlotId>) {
    Distinct(Line(b.q)) && Distinct(b.gone) && !b.badMove && forall id :: PlaceOk(b, hand, id)
  }

  // ---- what the worker knows where it is suspended ----

  predicate At(b: Book, id: SlotId, state: SlotState) {
    id in b.slots && b.slots[id].state == state
  }

  predicate Resolved(b: Book, id: SlotId) {
    id in b.slots && b.slots[id].future != Pending
  }

  /** No process was spawned for the slot yet. */
  predicate Unspawned(s: Sched, id: SlotId, state: SlotState) {
    At(s.book, id, state) && s.book.slots[id].pid.None? && Parked(s.side)
  }

  /** The slot runs on the active handle, which was spawned for its model; nothing is parked. */
  predicate Owns(s: Sched, id: SlotId, state: SlotState) {
    && At(s.book, id, state)
    && s.side.active.Some? && s.side.idle.None? && s.book.slots[id].pid == s.side.active
    && s.side.active.value in s.side.procs && s.side.procs[s.side.active.value].tag == s.book.slots[id].modelTag
  }

  /** `m` is a follow-up of the anchor's thread and model on the anchor's process. */
  predicate Paired(b: Book, id: SlotId, m: SlotId) {
    && id in b.slots && m in b.slots && id != m
    && b.slots[m].threadId == b.slots[id].threadId && b.slots[m].modelTag == b.slots[id].modelTag
    && b.slots[m].pid == b.slots[id].pid
  }

  predicate Matched(s: Sched, id: SlotId, m: SlotId, state: SlotState) {
    Owns(s, id, GRACE) && Paired(s.book, id, m) && At(s.book, m, state)
  }

  /** `_force_cold` reaches COLD from here by legal hops. */
  predicate Freezable(b: Book, id: SlotId) {
    id in b.slots && b.slots[id].state != RECEIVED && b.slots[id].state != ACTIVE_MATCH
  }

  predicate OneServing(b: Book, ids: set<SlotId>) {
    forall x, y | x in ids && y in ids && x in b.slots && y in b.slots ::
      Serving(b.slots[x].state) && Serving(b.slots[y].state) ==> x == y
  }

  predicate TdOk(s: Sched, id: SlotId, why: Why) {
    match why
    case LoadFail => At(s.book, id, POPPED)
    case GraceOver => At(s.book, id, POPPED) && Resolved(s.book, id)
    case Uncaught => Freezable(s.book, id) && Resolved(s.book, id)
  }

  predicate RowEnded(b: Book, id: SlotId) {
    id in b.rows && b.rows[id].state == COLD && b.rows[id].endedAt.Some? && b.rows[id].endReason.Some?
  }

  predicate LeavingOk(b: Book, how: Leaving) {
    match how
    case Returned => true
    case Raised(id) => Freezable(b, id)
    case Cancelled(left) => OneServing(b, left)
  }

  predicate PcOk(s: Sched) {
    match s.pc
    case Head | HeadSleep | EvictAudit | FcAudit => Parked(s.side)
    case RiskLoading(id) => Unspawned(s, id, LOADING)
    case RiskFail(id) => Unspawned(s, id, LOADING_FAIL)
    case LoadAudit(id) => Unspawned(s, id, LOADING)
    case SwapTerm(id, p) => Unspawned(s, id, LOADING) && s.side.idle.None? && Terminating(s.side, p)
    case SwapVerify(id) => Unspawned(s, id, LOADING) && s.side.idle.None?
    case RefuseAudit(id) => Unspawned(s, id, LOADING_FAIL)
    case InheritAudit(id) => Owns(s, id, LOADING)
    case HealthWait(id) => Owns(s, id, LOADING)
    case FailAudit(id) => Owns(s, id, LOADING_FAIL)
    case ActiveAudit(id) => Owns(s, id, ACTIVE)
    case Serve(id) => Owns(s, id, ACTIVE)
    case GraceAudit(id) => Owns(s, id, GRACE) && Resolved(s.book, id)
    case GraceTop(id, _) => Owns(s, id, GRACE) && Resolved(s.book, id)
    case GraceSleep(id, _, _) => Owns(s, id, GRACE) && Resolved(s.book, id)
    case MatchAudit(id, m, _) => Matched(s, id, m, ACTIVE_MATCH) && Resolved(s.book, id)
    case MatchServe(id, m, _) => Matched(s, id, m, ACTIVE) && Resolved(s.book, id)
    case MatchGrace(id, m, _, _) => Matched(s, id, m, GRACE) && Resolved(s.book, id) && Resolved(s.book, m)
    case MatchExtended(id, m, _) => Matched(s, id, m, GRACE) && Resolved(s.book, id) && Resolved(s.book, m)
    case MatchPopped(id, m, _, _) => Matched(s, id, m, POPPED) && Resolved(s.book, id) && Resolved(s.book, m)
    case MatchCancel(id, m) => Matched(s, id, m, ACTIVE) && Resolved(s.book, id) && Resolved(s.book, m)
    case Drift(_, _) => false
    case IdleAudit(id) =>
      && At(s.book, id, POPPED) && Resolved(s.book, id) && s.side.active.Some?
      && (s.side.idle == s.side.active || Ending(s.side))
    case ColdIdleAudit(id) => Finished(s.book, id) && At(s.book, id, POPPED) && Parked(s.side)
    case TdTerm(id, why) => TdOk(s, id, why) && Ending(s.side)
    case TdVerify(id, why) => TdOk(s, id, why) && Ending(s.side)
    case TdAudit(id, why) => TdOk(s, id, why) && Ending(s.side) && RowEnded(s.book, id)
    case FinTerm(how) => LeavingOk(s.book, how) && Ending(s.side)
    case FcTerm(id) => Freezable(s.book, id) && Resolved(s.book, id) && Ending(s.side)
    case Exited(left) => OneServing(s.book, left) && (s.side.active.Some? ==> Ending(s.side))
  }

  /** Evictions are counted once each; a cancelled audit leaves one uncounted. */
  predicate CountOk(s: Sched) {
    match s.pc
    case EvictAudit => s.evictions + 1 == |s.book.gone|
    case Exited(_) => s.evictions <= |s.book.gone| <= s.evictions + 1
    case _ => s.evictions == |s.book.gone|
  }

  /** A row is only ever handed to a thread by the worker, which waits for it; a cancelled worker does not, but keeps
      the slot in hand. */
  predicate WritingOk(s: Sched) {
    s.book.writing.Some? ==>
      match s.pc
      case FinTerm(how) => how.Cancelled? && s.book.writing.value in how.left
      case Exited(left) => s.book.writing.value in left
      case _ => s.book.writing == Awaited(s.pc)
  }

  ghost predicate Core(s: Sched) {
    SideOk(s.side) && BookOk(s.book, Hand(s.pc)) && PcOk(s) && CountOk(s)
  }

  ghost predicate Inv(s: Sched) {
    Core(s) && WritingOk(s)
  }

  // ---- queue positions ----

  lemma {:induction false} InIsCounted(ids: seq<SlotId>, x: SlotId)
    ensures x in ids <==> Count(ids, x) >= 1
  {
    if ids != [] {
      InIsCounted(ids[1..], x);
    }
  }

  lemma QueuedIsCounted(q: QueueState, x: SlotId)
    ensures Queued(q, x) <==> Count(Line(q), x) >= 1
  {
    InIsCounted(Line(q), x);
  }

  /** After any queue operation that lets in at most fresh slots, exactly the slots that were queued or
      let in, and were not handed out, are queued, each once. */
  lemma QueueOpKeepsPlaces(q: QueueState, op: Op, caps: Caps)
    requires caps.staging >= 1 && Distinct(Line(q))
    requires (op.Fresh? || op.AtHead?) ==> !Queued(q, op.id)
    ensures var q' := Apply(q, op, caps);
            && Distinct(Line(q'))
            && forall x :: Queued(q', x) <==>
                 (Queued(q, x) || x in Entering(q, op, caps)) && x !in HandedOut(q, op, caps)
  {
    var q' := Apply(q, op, caps);
    var coming, going := Entering(q, op, caps), HandedOut(q, op, caps);
    forall x
      ensures Count(Line(q'), x) <= 1
      ensures Queued(q', x) <==> (Queued(q, x) || x in coming) && x !in going
    {
      ApplyConserves(q, op, caps, x);
      QueuedIsCounted(q, x);
      QueuedIsCounted(q', x);
      InIsCounted(coming, x);
      InIsCounted(going, x);
      assert Count(Line(q), x) <= 1;
      assert |coming| <= 1 && |going| <= 1;
    }
  }

  // ---- single writes to a slot in hand ----

  /** A write that changes nothing but one slot in hand and its row, by legal moves, keeps the book. */
  lemma TouchKeeps(b: Book, b': Book, hand: set<SlotId>, id: SlotId)
    requires BookOk(b, hand) && id in hand
    requires b' == b.(slots := b'.slots, rows := b'.rows, writing := b'.writing, reopened := b'.reopened)
    requires b'.slots.Keys == b.slots.Keys && b'.rows.Keys == b.rows.Keys
    requires forall x :: x in b.slots && x != id ==> b'.slots[x] == b.slots[x]
    requires forall x :: x in b.rows && x != id ==> b'.rows[x] == b.rows[x]
    requires id in b'.slots ==> LegalHistory(b'.slots[id])
    ensures BookOk(b', hand)
  {
    hide LegalHistory;
    forall x ensures PlaceOk(b', hand, x) {
      assert PlaceOk(b, hand, x);
    }
  }

  /** Finished slots may leave the hand. */
  lemma ReleaseKeeps(b: Book, hand: set<SlotId>, rest: set<SlotId>)
    requires BookOk(b, hand) && rest <= hand
    requires forall id :: id in hand - rest ==> Finished(b, id)
    ensures BookOk(b, rest)
  {
    hide LegalHistory;
    forall x ensures PlaceOk(b, rest, x) {
      assert PlaceOk(b, hand, x);
    }
  }

  /** A slot in hand is nowhere else. */
  lemma HandFacts(b: Book, hand: set<SlotId>, id: SlotId)
    requires BookOk(b, hand) && id in hand
    ensures id in b.slots && id in b.rows && !Queued(b.q, id) && id !in b.gone && id !in b.dropped
    ensures LegalHistory(b.slots[id])
  {
    assert PlaceOk(b, hand, id);
  }

  /** A slot in POPPED or COLD with its future done and its row ended is finished. */
  lemma FinishKeeps(b: Book, hand: set<SlotId>, id: SlotId)
    requires BookOk(b, hand) && id in hand && Resolved(b, id) && RowEnded(b, id)
    requires b.slots[id].state == POPPED || b.slots[id].state == COLD
    ensures Finished(b, id) && BookOk(b, hand - {id})
  {
    HandFacts(b, hand, id);
    ReleaseKeeps(b, hand, hand - {id});
  }

  lemma MoveKeeps(b: Book, hand: set<SlotId>, id: SlotId, to: SlotState)
    requires BookOk(b, hand) && id in hand && id in b.slots && Legal(b.slots[id].state, to)
    ensures BookOk(Move(b, id, to), hand)
  {
    HandFacts(b, hand, id);
    MovedKeepsLegalHistory(b.slots[id], to);
    TouchKeeps(b, Move(b, id, to), hand, id);
  }

  lemma SettleKeeps(b: Book, hand: set<SlotId>, id: SlotId, v: Verdict)
    requires BookOk(b, hand) && id in hand
    ensures BookOk(Settle(b, id, v), hand)
    ensures id in b.slots && Settle(b, id, v).slots == b.slots[id := Settled(b.slots[id], v)]
    ensures Settle(b, id, v).gone == b.gone
  {
    HandFacts(b, hand, id);
    TouchKeeps(b, Settle(b, id, v), hand, id);
  }

  lemma SetPidKeeps(b: Book, hand: set<SlotId>, id: SlotId, pid: Option<Pid>)
    requires BookOk(b, hand) && id in hand
    ensures BookOk(SetPid(b, id, pid), hand)
  {
    HandFacts(b, hand, id);
    TouchKeeps(b, SetPid(b, id, pid), hand, id);
  }

  lemma MarkKeeps(b: Book, hand: set<SlotId>, id: SlotId, reason: string, now: int)
    requires BookOk(b, hand) && id in hand
    ensures BookOk(Mark(b, id, reason, now), hand) && RowEnded(Mark(b, id, reason, now), id)
  {
    HandFacts(b, hand, id);
    TouchKeeps(b, Mark(b, id, reason, now), hand, id);
  }

  lemma HandOffKeeps(b: Book, hand: set<SlotId>, id: SlotId)
    requires BookOk(b, hand) && id in hand
    ensures BookOk(HandOff(b, id), hand)
  {
    HandFacts(b, hand, id);
    TouchKeeps(b, HandOff(b, id), hand, id);
  }

  /** The write of a row in hand, when it lands. */
  lemma LandedKeeps(b: Book, hand: set<SlotId>, now: int)
    requires BookOk(b, hand) && (b.writing.Some? ==> b.writing.value in hand)
    ensures BookOk(Landed(b, now), hand)
  {
    if b.writing.Some? {
      HandFacts(b, hand, b.writing.value);
      TouchKeeps(b, Landed(b, now), hand, b.writing.value);
    }
  }

  lemma AdvanceKeeps(b: Book, hand: set<SlotId>, id: SlotId, to: SlotState)
    requires BookOk(b, hand) && id in hand && id in b.slots && Legal(b.slots[id].state, to)
    ensures BookOk(Advance(b, id, to), hand)
    ensures Advance(b, id, to).slots == b.slots[id := Moved(b.slots[id], to)]
    ensures Advance(b, id, to).gone == b.gone
  {
    MoveKeeps(b, hand, id, to);
    HandOffKeeps(Move(b, id, to), hand, id);
  }

  lemma {:induction false} WalkedKeeps(s: Slot, states: seq<SlotState>)
    requires LegalHistory(s) && LegalPath([s.state] + states)
    ensures LegalHistory(Walked(s, states))
    ensures Walked(s, states).future == s.future
    decreases states
  {
    if states != [] {
      var path := [s.state] + states;
      assert path[0] == s.state && path[1] == states[0];
      MovedKeepsLegalHistory(s, states[0]);
      forall i | 0 <= i < |states| - 1 ensures Legal(states[i], states[i + 1]) {
        assert Legal(path[i + 1], path[i + 2]);
      }
      assert [states[0]] + states[1..] == states;
      WalkedKeeps(Moved(s, states[0]), states[1..]);
    }
  }

  lemma {:induction false} WalkedEnds(s: Slot, hops: nat)
    ensures Walked(s, ColdWalk(s.state, hops)).state == ColdEnd(s.state, hops)
    decreases hops
  {
    if s.state != COLD && hops > 0 {
      var hop := ColdHop(s.state);
      assert ColdWalk(s.state, hops) == [hop] + ColdWalk(hop, hops - 1);
      WalkedEnds(Moved(s, hop), hops - 1);
    }
  }

  /** `_force_cold` on a slot whose future is done finishes it, by legal hops. */
  lemma FreezeKeeps(b: Book, hand: set<SlotId>, id: SlotId, now: int)
    requires BookOk(b, hand) && id in hand && Freezable(b, id) && Resolved(b, id)
    ensures BookOk(Freeze(b, id, now), hand - {id}) && Freeze(b, id, now).gone == b.gone
  {
    var walk := ColdWalk(b.slots[id].state, 4);
    HandFacts(b, hand, id);
    ColdWalkLegal(b.slots[id].state);
    ColdWalkReachesCold(b.slots[id].state);
    WalkedKeeps(b.slots[id], walk);
    WalkedEnds(b.slots[id], 4);
    TouchKeeps(b, Freeze(b, id, now), hand, id);
    FinishKeeps(Freeze(b, id, now), hand, id);
  }
}
