/** The scheduler of manager.py as a machine over values: one worker, its sidecar processes, the request
    queue, the clients and the shutdown. A step runs from one suspension point of the worker to the next;
    what other tasks do happens in between, as events of their own. */
module Scheduler {
  import opened Wrappers
  import opened Fsm
  import opened Slots
  import opened Queue
  import opened StateDb
  import opened Timers

  const KEEP_ALIVE_MAX_S := 1800

  /** No sweep takes rows younger than this, whatever age is configured. */
  const SWEEP_MIN_AGE_S := 60

  datatype Config = Config(
    stagingMax: int, acceptanceMax: int, graceSeconds: int, maxExtensions: nat, idleSeconds: int, pollTick: int)

  // ---- sidecar processes ----

  /** `terminating` says that a SIGTERM call for the process has started. */
  datatype Proc = Proc(tag: string, alive: bool, terminating: bool)

  /** The two handle holders, and every process ever spawned. `raised` records the processes for which a
      SIGTERM call raised instead of returning. */
  datatype Sidecars = Sidecars(
    procs: map<Pid, Proc>, active: Option<Pid>, idle: Option<Pid>, idleTag: string, idleExpires: Option<int>,
    raised: set<Pid>)

  function StartTerm(d: Sidecars, p: Pid): Sidecars {
    if p in d.procs then d.(procs := d.procs[p := d.procs[p].(terminating := true)]) else d
  }

  function Kill(d: Sidecars, p: Pid): Sidecars {
    if p in d.procs then d.(procs := d.procs[p := d.procs[p].(alive := false)]) else d
  }

  /** The outcome of the SIGTERM call on the active handle: it returned, so the process is gone, or it raised. */
  function EndActiveTerm(d: Sidecars, returned: bool): Sidecars {
    if d.active.None? then d
    else if returned then Kill(d, d.active.value)
    else d.(raised := d.raised + {d.active.value})
  }

  function TakeIdle(d: Sidecars): Sidecars {
    if d.idle.None? then d
    else StartTerm(d, d.idle.value).(idle := None, idleTag := "", idleExpires := None)
  }

  predicate Alive(d: Sidecars, p: Pid) {
    p in d.procs && d.procs[p].alive
  }

  // ---- the book: queue, slots and rows ----

  /** `gone` lists the slots popped as evicted, `dropped` those cleared by shutdown. `writing` is the slot whose row
      the worker has handed to a thread that has not written it yet. `badMove` records a transition outside the
      table, `reopened` an upsert of a row that had been ended. */
  datatype Book = Book(
    q: QueueState, slots: map<SlotId, Slot>, rows: Table, gone: seq<SlotId>, dropped: set<SlotId>,
    writing: Option<SlotId>, badMove: bool, reopened: bool)

  function Move(b: Book, id: SlotId, to: SlotState): Book {
    if id in b.slots && Legal(b.slots[id].state, to) then b.(slots := b.slots[id := Moved(b.slots[id], to)])
    else b.(badMove := true)
  }

  function Settle(b: Book, id: SlotId, verdict: Verdict): Book {
    if id in b.slots then b.(slots := b.slots[id := Settled(b.slots[id], verdict)]) else b
  }

  function Upsert(b: Book, id: SlotId, now: int): Book {
    if id in b.slots then
      b.(rows := Upserted(b.rows, id, b.slots[id].state, b.slots[id].pid, now),
         reopened := b.reopened || (id in b.rows && b.rows[id].endedAt.Some?))
    else b
  }

  function Mark(b: Book, id: SlotId, reason: string, now: int): Book {
    b.(rows := Ended(b.rows, id, reason, now))
  }

  /** `_audit_async` hands the row to a thread, and the worker suspends until it is written. */
  function HandOff(b: Book, id: SlotId): Book {
    b.(writing := Some(id))
  }

  /** The thread's write: the slot as it is, which nothing changes meanwhile. */
  function Landed(b: Book, now: int): Book {
    if b.writing.Some? then Upsert(b, b.writing.value, now).(writing := None) else b
  }

  /** `transition` followed by `_audit_async`. */
  function Advance(b: Book, id: SlotId, to: SlotState): Book {
    HandOff(Move(b, id, to), id)
  }

  function SetPid(b: Book, id: SlotId, pid: Option<Pid>): Book {
    if id in b.slots then b.(slots := b.slots[id := b.slots[id].(pid := pid)]) else b
  }

  function Walked(s: Slot, states: seq<SlotState>): Slot
    decreases states
  {
    if states == [] then s else Walked(Moved(s, states[0]), states[1..])
  }

  /** The state writes of `_force_cold` and its `mark_slot_ended`. */
  function Freeze(b: Book, id: SlotId, now: int): Book {
    if id !in b.slots then b
    else Mark(b.(slots := b.slots[id := Walked(b.slots[id], ColdWalk(b.slots[id].state, 4))]),
              id, "worker-uncaught-exception", now)
  }

  // ---- the worker ----

  datatype Why = LoadFail | GraceOver | Uncaught

  /** How `_process_slot` is being left; `Cancelled` keeps the slots it had in hand. */
  datatype Leaving = Returned | Raised(id: SlotId) | Cancelled(left: set<SlotId>)

  /** Where the worker is suspended. `id` is the slot in `_process_slot`, `m` a matched follow-up. Head and
      GraceTop are the tops of the two loops, which the source passes without suspending. */
  datatype Pc =
    | Head
    | HeadSleep
    | EvictAudit
    | RiskLoading(id: SlotId)
    | RiskFail(id: SlotId)
    | LoadAudit(id: SlotId)
    | InheritAudit(id: SlotId)
    | SwapTerm(id: SlotId, p: Pid)
    | SwapVerify(id: SlotId)
    | RefuseAudit(id: SlotId)
    | HealthWait(id: SlotId)
    | FailAudit(id: SlotId)
    | ActiveAudit(id: SlotId)
    | Serve(id: SlotId)
    | GraceAudit(id: SlotId)
    | GraceTop(id: SlotId, deadline: int)
    | GraceSleep(id: SlotId, deadline: int, wakeBy: int)
    | MatchAudit(id: SlotId, m: SlotId, deadline: int)
    | MatchServe(id: SlotId, m: SlotId, deadline: int)
    | MatchGrace(id: SlotId, m: SlotId, deadline: int, ok: bool)
    | MatchExtended(id: SlotId, m: SlotId, deadline: int)
    | MatchPopped(id: SlotId, m: SlotId, deadline: int, ok: bool)
    | MatchCancel(id: SlotId, m: SlotId)
    | Drift(id: SlotId, m: SlotId)
    | IdleAudit(id: SlotId)
    | ColdIdleAudit(id: SlotId)
    | TdTerm(id: SlotId, why: Why)
    | TdVerify(id: SlotId, why: Why)
    | TdAudit(id: SlotId, why: Why)
    | FinTerm(how: Leaving)
    | FcTerm(id: SlotId)
    | FcAudit
    | Exited(left: set<SlotId>)

  datatype Shutdown = NotAsked | Asked | Complete

  /** `exts` counts the deadline extensions of the current grace loop and `waited` the time it has slept. */
  datatype Sched = Sched(
    side: Sidecars, book: Book, pc: Pc, activeSlot: Option<SlotId>, latest: Option<int>, grace: GraceState,
    now: int, stop: bool, shut: Shutdown, tasks: nat, evictions: nat, exts: nat, waited: int)

  datatype Manifest = Found | Missing | Invalid
  datatype Verdict3 = Yes | No | Raises

  /** Everything a worker step takes from outside: the manifest read, the safety gates, the spawn, the
      health wait, the completion and the outcome of a SIGTERM call. */
  datatype Inputs = Inputs(manifest: Manifest, gates: Verdict3, spawn: Option<Pid>, healthy: Verdict3, answered: bool,
                           termReturned: bool)

  function Init(): Sched {
    Sched(Sidecars(map[], None, None, "", None, {}),
          Book(QueueState([], [], false), map[], map[], [], {}, None, false, false),
          Head, None, None, Stopped, 0, false, NotAsked, 0, 0, 0, 0)
  }

  /** The idle-expiry check of the worker's idle and eviction ticks; the teardown runs as its own task. */
  function IdleTick(s: Sched): Sched {
    if s.side.idle.Some? && s.side.idleExpires.Some? && s.now >= s.side.idleExpires.value
    then s.(side := s.side.(idleExpires := None), tasks := s.tasks + 1)
    else s
  }

  function PopBook(b: Book, c: Config): Book {
    b.(q := AfterPop(b.q, c.stagingMax),
       slots := Flagged(AllStaged(b.slots, Promoted(b.q, c.stagingMax)), Popped(b.q, c.stagingMax)))
  }

  function FromHead(s: Sched, c: Config, i: Inputs): Sched {
    if s.stop then s.(pc := Exited({}))
    else
      var popped := Popped(s.book.q, c.stagingMax);
      var b := PopBook(s.book, c);
      if popped.None? then IdleTick(s.(book := b)).(pc := HeadSleep)
      else
        var id := popped.value;
        if id in b.slots && b.slots[id].evicted then
          s.(book := Settle(b, id, Failed("evicted")).(gone := b.gone + [id]), pc := EvictAudit)
        else StartSlot(s.(book := b, activeSlot := Some(id), latest := None), id, i)
  }

  /** `_process_slot` up to its first suspension. */
  function StartSlot(s: Sched, id: SlotId, i: Inputs): Sched {
    if i.manifest == Invalid then Unwind(s, Raised(id))
    else
      var b := Advance(s.book, id, LOADING);
      var atRisk := i.manifest == Missing && s.side.idle.Some? && s.side.idleTag != TagOf(s.book, id);
      s.(book := b, pc := if atRisk then RiskLoading(id) else LoadAudit(id))
  }

  function TagOf(b: Book, id: SlotId): string {
    if id in b.slots then b.slots[id].modelTag else ""
  }

  function PidOf(b: Book, id: SlotId): Option<Pid> {
    if id in b.slots then b.slots[id].pid else None
  }

  function FromLoadAudit(s: Sched, id: SlotId, i: Inputs): Sched {
    var d := s.side;
    if d.idle.Some? && d.idleTag == TagOf(s.book, id) && d.idleExpires.Some? && s.now < d.idleExpires.value then
      s.(side := d.(active := d.idle, idle := None, idleTag := "", idleExpires := None),
         book := HandOff(SetPid(s.book, id, d.idle), id),
         pc := InheritAudit(id))
    else if d.idle.Some? then s.(side := TakeIdle(d), pc := SwapTerm(id, d.idle.value))
    else GateAndSpawn(s, id, i)
  }

  function FromSwapTerm(s: Sched, id: SlotId, p: Pid, i: Inputs): Sched {
    if i.termReturned then s.(side := Kill(s.side, p), pc := SwapVerify(id))
    else Unwind(s.(side := s.side.(raised := s.side.raised + {p})), Raised(id))
  }

  function GateAndSpawn(s: Sched, id: SlotId, i: Inputs): Sched {
    match i.gates
    case Raises => Unwind(s, Raised(id))
    case No => s.(book := Advance(s.book, id, LOADING_FAIL), pc := RefuseAudit(id))
    case Yes =>
      match i.spawn
      case None => Unwind(s, Raised(id))
      case Some(p) =>
        s.(side := s.side.(procs := s.side.procs[p := Proc(TagOf(s.book, id), true, false)], active := Some(p)),
           book := SetPid(s.book, id, Some(p)),
           pc := HealthWait(id))
  }

  /** The refusals before any spawn: POPPED, row ended, caller failed. */
  function Refuse(s: Sched, id: SlotId, reason: string): Sched {
    Unwind(s.(book := Settle(Mark(Move(s.book, id, POPPED), id, reason, s.now), id, Failed(reason))), Returned)
  }

  function FromHealthWait(s: Sched, id: SlotId, i: Inputs): Sched {
    match i.healthy
    case Yes => Activate(s, id)
    case No => s.(book := Advance(s.book, id, LOADING_FAIL), pc := FailAudit(id))
    case Raises => Unwind(s, Raised(id))
  }

  function Activate(s: Sched, id: SlotId): Sched {
    s.(book := Advance(s.book, id, ACTIVE), pc := ActiveAudit(id))
  }

  function KeepAliveOf(b: Book, id: SlotId): Option<int> {
    if id in b.slots then b.slots[id].keepAlive else None
  }

  function FromServe(s: Sched, id: SlotId, i: Inputs): Sched {
    if !i.answered then Unwind(s, Raised(id))
    else if id !in s.book.slots then s
    else
      s.(book := Advance(Settle(s.book, id, Answered), id, GRACE),
         grace := GraceState(Some(s.now), s.book.slots[id].threadId, s.book.slots[id].modelTag, 0),
         pc := GraceAudit(id))
  }

  /** One round of the grace loop's head: promote a matched follow-up, sleep, or leave. */
  function FromGraceTop(s: Sched, c: Config, id: SlotId, deadline: int): Sched {
    if id !in s.book.slots then s
    else if s.now < deadline && !s.stop then
      var slot := s.book.slots[id];
      match FirstMatch(s.book.q.staging, s.book.slots, slot.threadId, slot.modelTag)
      case None => s.(pc := GraceSleep(id, deadline, s.now + c.pollTick))
      case Some(at) => PromoteMatch(s, id, at, deadline)
    else LeaveGrace(s, c, id)
  }

  function PromoteMatch(s: Sched, id: SlotId, at: nat, deadline: int): Sched
    requires at < |s.book.q.staging|
  {
    var m := s.book.q.staging[at];
    var q := s.book.q.(staging := Without(s.book.q.staging, at));
    var taken := s.book.(q := q, slots := Flagged(s.book.slots, Some(m)));
    var b := SetPid(taken, m, PidOf(s.book, id));
    if m in b.slots && Legal(b.slots[m].state, ACTIVE_MATCH) then
      s.(book := Advance(b, m, ACTIVE_MATCH), activeSlot := Some(m), pc := MatchAudit(id, m, deadline))
    else s.(book := b, activeSlot := Some(m), pc := Drift(id, m))
  }

  /** The idle window a keep-alive intent asks for. */
  function IdleWindow(keepAlive: Option<int>, c: Config): int {
    match keepAlive
    case None => c.idleSeconds
    case Some(k) => if k < 0 || k > KEEP_ALIVE_MAX_S then KEEP_ALIVE_MAX_S else k
  }

  function LeaveGrace(s: Sched, c: Config, id: SlotId): Sched {
    var b := Move(s.book, id, POPPED);
    var window := IdleWindow(s.latest, c);
    if window > 0 && s.side.active.Some? then
      s.(book := b, latest := None,
         side := s.side.(idle := s.side.active, idleTag := TagOf(s.book, id), idleExpires := Some(s.now + window)),
         pc := IdleAudit(id))
    else BeginTeardown(s.(book := b, latest := None), id, GraceOver)
  }

  function FromMatchAudit(s: Sched, id: SlotId, m: SlotId, deadline: int): Sched {
    s.(book := Move(s.book, m, ACTIVE), latest := KeepAliveOf(s.book, m), pc := MatchServe(id, m, deadline))
  }

  function FromMatchServe(s: Sched, id: SlotId, m: SlotId, deadline: int, i: Inputs): Sched {
    var verdict := if i.answered then Answered else Failed("active_match");
    s.(book := Advance(Settle(s.book, m, verdict), m, GRACE), pc := MatchGrace(id, m, deadline, i.answered))
  }

  function FromMatchGrace(s: Sched, c: Config, id: SlotId, m: SlotId, deadline: int, ok: bool): Sched {
    if ok && s.grace.extensions < c.maxExtensions && m in s.book.slots then
      var g := Restarted(s.grace, c.maxExtensions, s.now);
      s.(grace := g, exts := s.exts + 1,
         book := s.book.(slots := s.book.slots[m := s.book.slots[m].(extensions := g.extensions)]),
         pc := MatchExtended(id, m, s.now + c.graceSeconds))
    else PopMatch(s, id, m, deadline, ok)
  }

  function PopMatch(s: Sched, id: SlotId, m: SlotId, deadline: int, ok: bool): Sched {
    s.(book := Advance(s.book, m, POPPED), pc := MatchPopped(id, m, deadline, ok))
  }

  function FromMatchPopped(s: Sched, id: SlotId, m: SlotId, deadline: int, ok: bool): Sched {
    var reason := if ok then "active_match_completed" else "active_match_failed";
    s.(book := Mark(s.book, m, reason, s.now), activeSlot := Some(id), pc := GraceTop(id, deadline))
  }

  // ---- teardown, the finally block and _force_cold ----

  function BeginTeardown(s: Sched, id: SlotId, why: Why): Sched {
    if s.side.active.Some? then s.(side := StartTerm(s.side, s.side.active.value), pc := TdTerm(id, why))
    else AfterTeardown(s, id, why)
  }

  function FromTdTerm(s: Sched, id: SlotId, why: Why, i: Inputs): Sched {
    var s' := s.(side := EndActiveTerm(s.side, i.termReturned));
    if i.termReturned then s'.(pc := TdVerify(id, why))
    else if why == Uncaught then ForceCold(s', id)
    else Unwind(s', Raised(id))
  }

  function TdReason(why: Why): string {
    match why
    case LoadFail => "loading-fail-health-timeout"
    case GraceOver => "grace-expired"
    case Uncaught => "worker-uncaught-exception"
  }

  function AfterTeardown(s: Sched, id: SlotId, why: Why): Sched {
    match why
    case LoadFail => Unwind(s.(book := Settle(s.book, id, Failed("loading-fail-health-timeout"))), Returned)
    case GraceOver => s.(pc := ColdIdleAudit(id))
    case Uncaught => ForceCold(s, id)
  }

  /** The finally block: reap an active handle that was not parked and is still alive, then leave. */
  function Unwind(s: Sched, how: Leaving): Sched {
    if s.side.active.Some? && s.side.idle != s.side.active && Alive(s.side, s.side.active.value)
    then s.(activeSlot := None, side := StartTerm(s.side, s.side.active.value), pc := FinTerm(how))
    else Leave(s.(activeSlot := None, side := s.side.(active := None)), how)
  }

  function FromFinTerm(s: Sched, how: Leaving, i: Inputs): Sched {
    var d := EndActiveTerm(s.side, i.termReturned);
    Leave(s.(side := if i.termReturned then d.(active := None) else d), how)
  }

  /** Back in `worker_loop`: carry on, stop, or handle the exception. */
  function Leave(s: Sched, how: Leaving): Sched {
    match how
    case Returned => s.(pc := Head)
    case Cancelled(left) => s.(pc := Exited(left))
    case Raised(id) =>
      var s' := s.(book := Settle(s.book, id, Failed("worker")));
      if s.side.active.Some? then s'.(side := StartTerm(s.side, s.side.active.value), pc := TdTerm(id, Uncaught))
      else ForceCold(s', id)
  }

  function ForceCold(s: Sched, id: SlotId): Sched {
    var shares := s.side.active.Some? && PidOf(s.book, id) == s.side.active;
    if shares && !(s.activeSlot.Some? && s.activeSlot.value != id)
    then s.(side := StartTerm(s.side, s.side.active.value), pc := FcTerm(id))
    else s.(book := Freeze(s.book, id, s.now), pc := FcAudit)
  }

  function FromFcTerm(s: Sched, id: SlotId, i: Inputs): Sched {
    var d := EndActiveTerm(s.side, i.termReturned);
    s.(side := if i.termReturned then d.(active := None) else d, book := Freeze(s.book, id, s.now), pc := FcAudit)
  }

  /** The worker runs from where it is suspended to its next suspension. */
  function Resume(s: Sched, c: Config, i: Inputs): Sched {
    match s.pc
    case Head => FromHead(s, c, i)
    case HeadSleep => s.(pc := Head)
    case EvictAudit => IdleTick(s.(evictions := s.evictions + 1)).(pc := Head)
    case RiskLoading(id) => s.(book := Advance(s.book, id, LOADING_FAIL), pc := RiskFail(id))
    case RiskFail(id) => Refuse(s, id, "manifest_not_found")
    case LoadAudit(id) => FromLoadAudit(s, id, i)
    case InheritAudit(id) => Activate(s, id)
    case SwapTerm(id, p) => FromSwapTerm(s, id, p, i)
    case SwapVerify(id) => GateAndSpawn(s, id, i)
    case RefuseAudit(id) => Refuse(s, id, "safety_gate_refused")
    case HealthWait(id) => FromHealthWait(s, id, i)
    case FailAudit(id) => BeginTeardown(s.(book := Move(s.book, id, POPPED)), id, LoadFail)
    case ActiveAudit(id) => s.(latest := KeepAliveOf(s.book, id), pc := Serve(id))
    case Serve(id) => FromServe(s, id, i)
    case GraceAudit(id) => s.(exts := 0, waited := 0, pc := GraceTop(id, s.now + c.graceSeconds))
    case GraceTop(id, deadline) => FromGraceTop(s, c, id, deadline)
    case GraceSleep(id, deadline, _) => s.(pc := GraceTop(id, deadline))
    case MatchAudit(id, m, deadline) => FromMatchAudit(s, id, m, deadline)
    case MatchServe(id, m, deadline) => FromMatchServe(s, id, m, deadline, i)
    case MatchGrace(id, m, deadline, ok) => FromMatchGrace(s, c, id, m, deadline, ok)
    case MatchExtended(id, m, deadline) => PopMatch(s, id, m, deadline, true)
    case MatchPopped(id, m, deadline, ok) => FromMatchPopped(s, id, m, deadline, ok)
    case MatchCancel(id, m) =>
      Unwind(s.(book := Mark(s.book, m, "active_match_cancelled", s.now)), Cancelled({id, m}))
    case IdleAudit(id) => Unwind(s.(book := Mark(s.book, id, "grace-expired-held-idle", s.now)), Returned)
    case ColdIdleAudit(id) => Unwind(s, Returned)
    case TdTerm(id, why) => FromTdTerm(s, id, why, i)
    case TdVerify(id, why) => s.(book := Mark(s.book, id, TdReason(why), s.now), pc := TdAudit(id, why))
    case TdAudit(id, why) => AfterTeardown(s.(side := s.side.(active := None)), id, why)
    case FinTerm(how) => FromFinTerm(s, how, i)
    case FcTerm(id) => FromFcTerm(s, id, i)
    case FcAudit => s.(pc := Head)
    case Drift(_, _) | Exited(_) => s
  }

  // ---- the other tasks ----

  /** A slot just made and let into the queue, with its first row. */
  function LetIn(b: Book, id: SlotId, slot: Slot, q: QueueState, now: int): Book {
    Upsert(b.(q := q, slots := b.slots[id := slot]), id, now)
  }

  /** `submit`, from its stop check to the audit it hands to a thread. */
  function Submit(s: Sched, c: Config, id: SlotId, threadId: string, modelTag: string, keepAlive: Option<int>,
                  wait: bool): Sched {
    var slot := NewSlot(modelTag, threadId, keepAlive, wait);
    var q := s.book.q;
    if s.stop then s
    else if GraceMatches(s.grace, c.graceSeconds, s.now, threadId, modelTag) then
      if q.closed then s
      else s.(book := LetIn(s.book, id, Moved(slot, STAGED), q.(staging := [id] + q.staging), s.now),
              grace := Restarted(s.grace, c.maxExtensions, s.now))
    else
      var a := Admit(q, c.stagingMax, c.acceptanceMax);
      match a
      case RefusedClosed | RefusedFull => s
      case Staged => s.(book := LetIn(s.book, id, Moved(slot, STAGED), AfterEnqueue(q, id, a), s.now))
      case Buffered => s.(book := LetIn(s.book, id, Moved(slot, ACCEPT_BUFFER), AfterEnqueue(q, id, a), s.now))
  }

  /** `shutdown` up to its wait for the worker: the stop flag, and the cancellation at the suspension point. */
  function Cancel(s0: Sched): Sched {
    var s := s0.(stop := true, shut := Asked);
    match s.pc
    case Head | HeadSleep | EvictAudit | FcAudit => s.(pc := Exited({}))
    case TdTerm(id, why) =>
      if why == Uncaught then s.(pc := Exited({id})) else Unwind(s, Cancelled({id}))
    case TdVerify(id, why) =>
      if why == Uncaught then s.(pc := Exited({id})) else Unwind(s, Cancelled({id}))
    case TdAudit(id, why) =>
      if why == Uncaught then s.(pc := Exited({id})) else Unwind(s, Cancelled({id}))
    case FcTerm(id) => s.(pc := Exited({id}))
    case FinTerm(how) => s.(pc := Exited(LeftBy(how)))
    case MatchServe(id, m, _) =>
      var b := Settle(s.book, m, Failed("shutdown during active_match"));
      var b' := if m in b.slots && Legal(b.slots[m].state, POPPED) then Move(b, m, POPPED) else b;
      s.(book := HandOff(b', m), pc := MatchCancel(id, m))
    case Drift(_, _) | Exited(_) => s
    case _ => Unwind(s, Cancelled(Hand(s.pc)))
  }

  function LeftBy(how: Leaving): set<SlotId> {
    match how
    case Returned => {}
    case Raised(id) => {id}
    case Cancelled(left) => left
  }

  /** The slots the worker has in hand at a suspension point. */
  function Hand(pc: Pc): set<SlotId> {
    match pc
    case Head | HeadSleep | EvictAudit | FcAudit => {}
    case FinTerm(how) => LeftBy(how)
    case Exited(left) => left
    case MatchAudit(id, m, _) => {id, m}
    case MatchServe(id, m, _) => {id, m}
    case MatchGrace(id, m, _, _) => {id, m}
    case MatchExtended(id, m, _) => {id, m}
    case MatchPopped(id, m, _, _) => {id, m}
    case MatchCancel(id, m) => {id, m}
    case Drift(id, m) => {id, m}
    case RiskLoading(id) => {id}
    case RiskFail(id) => {id}
    case LoadAudit(id) => {id}
    case InheritAudit(id) => {id}
    case SwapTerm(id, _) => {id}
    case SwapVerify(id) => {id}
    case RefuseAudit(id) => {id}
    case HealthWait(id) => {id}
    case FailAudit(id) => {id}
    case ActiveAudit(id) => {id}
    case Serve(id) => {id}
    case GraceAudit(id) => {id}
    case GraceTop(id, _) => {id}
    case GraceSleep(id, _, _) => {id}
    case IdleAudit(id) => {id}
    case ColdIdleAudit(id) => {id}
    case TdTerm(id, _) => {id}
    case TdVerify(id, _) => {id}
    case TdAudit(id, _) => {id}
    case FcTerm(id) => {id}
  }

  /** The slot whose row the worker waits for at this point. */
  function Awaited(pc: Pc): Option<SlotId> {
    match pc
    case RiskLoading(id) => Some(id)
    case RiskFail(id) => Some(id)
    case LoadAudit(id) => Some(id)
    case InheritAudit(id) => Some(id)
    case RefuseAudit(id) => Some(id)
    case FailAudit(id) => Some(id)
    case ActiveAudit(id) => Some(id)
    case GraceAudit(id) => Some(id)
    case MatchAudit(_, m, _) => Some(m)
    case MatchGrace(_, m, _, _) => Some(m)
    case MatchPopped(_, m, _, _) => Some(m)
    case MatchCancel(_, m) => Some(m)
    case _ => None
  }

  function AllSettled(slots: map<SlotId, Slot>, ids: seq<SlotId>, verdict: Verdict): map<SlotId, Slot> {
    map id | id in slots :: if id in ids then Settled(slots[id], verdict) else slots[id]
  }

  /** `shutdown` once the worker has ended: close the queue, fail what it held, take down the idle holder. */
  function Close(s: Sched): Sched {
    var cleared := Line(s.book.q);
    s.(shut := Complete, side := TakeIdle(s.side),
       book := s.book.(q := QueueState([], [], true),
                       slots := AllSettled(s.book.slots, cleared, Failed("manager shutdown")),
                       dropped := s.book.dropped + set id | id in cleared))
  }

  /** The sweeper's UPDATEs, which go by the id alone. */
  function Swept(b: Book, ids: set<SlotId>, now: int): Book {
    b.(rows := EndedAll(b.rows, ids, "background_sweeper_evicted", now))
  }

  datatype Event =
    | Worker(i: Inputs)
    | Request(id: SlotId, threadId: string, modelTag: string, keepAlive: Option<int>, wait: bool)
    | Disconnect(id: SlotId)      // the client closes its connection
    | GiveUp(id: SlotId)          // the caller's wait times out and cancels its future
    | IdleTeardown                // a detached teardown task takes its first step
    | Dies(p: Pid)                // a process ends, of itself or because a detached SIGTERM call returns
    | RowWritten                  // the thread writes the row it was handed
    | Sweep(ids: set<SlotId>, cutoff: int, between: bool) // `between`: it does so between SELECT and UPDATE
    | Elapse(d: nat)
    | ShutdownAsked
    | ShutdownCloses

  function Step(s: Sched, c: Config, e: Event): Sched {
    match e
    case Worker(i) => Resume(s, c, i)
    case Request(id, threadId, modelTag, keepAlive, wait) => Submit(s, c, id, threadId, modelTag, keepAlive, wait)
    case Disconnect(id) =>
      if id in s.book.slots
          then s.(book := s.book.(slots := s.book.slots[id := s.book.slots[id].(disconnected := true)]))
      else s
    case GiveUp(id) => s.(book := Settle(s.book, id, ClientGone))
    case IdleTeardown => if s.tasks == 0 then s else s.(tasks := s.tasks - 1, side := TakeIdle(s.side))
    case Dies(p) => s.(side := Kill(s.side, p))
    case RowWritten => s.(book := Landed(s.book, s.now))
    case Sweep(ids, _, between) => s.(book := Swept(if between then Landed(s.book, s.now) else s.book, ids, s.now))
    case Elapse(d) => s.(now := s.now + d, waited := s.waited + if s.pc.GraceSleep? then d else 0)
    case ShutdownAsked => Cancel(s)
    case ShutdownCloses => Close(s)
  }

  /** What the environment keeps to: ids and pids are fresh, the worker goes on when the row it waits for is written, a
      sleeper wakes by its due time, the loop tops are passed without suspending, a sweep is one of the sweeper's, and
      `shutdown` is called once and closes the queue when the worker has ended. */
  ghost predicate Allowed(s: Sched, e: Event) {
    match e
    case Worker(i) =>
      && (Awaited(s.pc).Some? ==> s.book.writing.None?)
      && (i.spawn.Some? ==> i.spawn.value !in s.side.procs)
    case Request(id, _, _, _, _) => id !in s.book.slots
    case Disconnect(_) | GiveUp(_) | IdleTeardown | Dies(_) => true
    case RowWritten => s.book.writing.Some?
    case Sweep(ids, cutoff, _) => cutoff <= s.now - SWEEP_MIN_AGE_S && IsSweep(s.book.rows, cutoff, ids)
    case Elapse(d) => !s.pc.GraceTop? && (s.pc.GraceSleep? ==> s.now + d <= s.pc.wakeBy)
    case ShutdownAsked => s.shut == NotAsked && !s.pc.GraceTop?
    case ShutdownCloses => s.shut == Asked && s.pc.Exited?
  }

  /** The states of a run, its start first. */
  function States(s: Sched, c: Config, events: seq<Event>): (r: seq<Sched>)
    ensures |r| == |events| + 1 && r[0] == s
    decreases events
  {
    if events == [] then [s] else [s] + States(Step(s, c, events[0]), c, events[1..])
  }

  /** Every event of the run respects the environment's side. */
  ghost predicate IsRun(s: Sched, c: Config, events: seq<Event>)
    decreases events
  {
    events == [] || (Allowed(s, events[0]) && IsRun(Step(s, c, events[0]), c, events[1..]))
  }

  predicate ConfigOk(c: Config) {
    c.stagingMax >= 1 && c.acceptanceMax >= 1 && c.graceSeconds >= 0 && c.idleSeconds >= 0 && c.pollTick >= 1
  }
}
