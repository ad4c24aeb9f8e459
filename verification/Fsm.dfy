/** The slot state machine of fsm.py, and the walk to COLD that manager.py makes over it. */
module Fsm {
  datatype SlotState =
    | RECEIVED | ACCEPT_BUFFER | STAGED | LOADING | LOADING_FAIL | ACTIVE
    | GRACE | GRACE_BUSY | ACTIVE_MATCH | POPPED | IDLE_HOT | COLD

  /** LEGAL_TRANSITIONS: `to` is in the table's entry for `from`. */
  predicate Legal(from: SlotState, to: SlotState) {
    match from
    case RECEIVED => to == ACCEPT_BUFFER || to == STAGED
    case ACCEPT_BUFFER => to == STAGED || to == COLD
    case STAGED => to == LOADING || to == COLD || to == ACTIVE_MATCH
    case LOADING => to == ACTIVE || to == LOADING_FAIL || to == COLD
    case LOADING_FAIL => to == STAGED || to == POPPED
    case ACTIVE => to == GRACE || to == ACTIVE_MATCH
    case GRACE => to == GRACE_BUSY || to == POPPED || to == ACTIVE
    case GRACE_BUSY => to == GRACE || to == POPPED
    case ACTIVE_MATCH => to == ACTIVE
    case POPPED => to == IDLE_HOT || to == STAGED || to == COLD
    case IDLE_HOT => to == ACTIVE || to == POPPED || to == COLD
    case COLD => false
  }

  /** No state may follow `s`. */
  predicate IsTerminal(s: SlotState): (terminal: bool)
    ensures terminal <==> forall to :: !Legal(s, to)
  {
    assert s != COLD ==> exists to :: Legal(s, to) by {
      assert Legal(RECEIVED, STAGED) && Legal(ACCEPT_BUFFER, COLD) && Legal(STAGED, COLD) && Legal(LOADING, COLD);
      assert Legal(LOADING_FAIL, POPPED) && Legal(ACTIVE, GRACE) && Legal(GRACE, POPPED) && Legal(GRACE_BUSY, POPPED);
      assert Legal(ACTIVE_MATCH, ACTIVE) && Legal(POPPED, COLD) && Legal(IDLE_HOT, COLD);
    }
    s == COLD
  }

  /** The two states in which a slot of this scheduler is being answered. */
  predicate Serving(s: SlotState) {
    s == ACTIVE || s == ACTIVE_MATCH
  }

  /** `states` is a walk along LEGAL_TRANSITIONS. */
  ghost predicate LegalPath(states: seq<SlotState>) {
    forall i :: 0 <= i < |states| - 1 ==> Legal(states[i], states[i + 1])
  }

  /** One hop of `_force_cold`: COLD if legal, else the first of POPPED, GRACE and LOADING_FAIL that
      is; None stands for the branch that writes COLD without a legal hop. */
  function ColdHop(s: SlotState): (hop: SlotState)
    requires s != COLD
  {
    if Legal(s, COLD) then COLD
    else if Legal(s, POPPED) then POPPED
    else if Legal(s, GRACE) then GRACE
    else if Legal(s, LOADING_FAIL) then LOADING_FAIL
    else COLD
  }

  /** The states `_force_cold` writes, in order, in at most `hops` rounds of its loop. */
  function ColdWalk(s: SlotState, hops: nat): seq<SlotState>
    decreases hops
  {
    if s == COLD || hops == 0 then []
    else [ColdHop(s)] + ColdWalk(ColdHop(s), hops - 1)
  }

  /** The state a walk ends in. */
  function ColdEnd(s: SlotState, hops: nat): SlotState
    decreases hops
  {
    if s == COLD || hops == 0 then s else ColdEnd(ColdHop(s), hops - 1)
  }

  /** Four rounds always end in COLD. */
  lemma {:induction false} ColdWalkReachesCold(s: SlotState)
    ensures ColdEnd(s, 4) == COLD
  {
    if s != COLD {
      var a := ColdHop(s);
      assert ColdEnd(s, 4) == ColdEnd(a, 3);
      if a != COLD {
        assert ColdEnd(a, 3) == ColdEnd(ColdHop(a), 2);
      }
    }
  }

  /** Every hop is legal exactly when the walk starts neither in RECEIVED nor in ACTIVE_MATCH, the two
      states from which COLD is written directly; and no walk has more than three hops. */
  lemma {:induction false} ColdWalkLegal(s: SlotState)
    ensures |ColdWalk(s, 4)| <= 3
    ensures LegalPath([s] + ColdWalk(s, 4)) <==> s != RECEIVED && s != ACTIVE_MATCH
  {
    var w := [s] + ColdWalk(s, 4);
    assert w[0] == s;
    if s != COLD {
      var a := ColdHop(s);
      assert ColdWalk(s, 4) == [a] + ColdWalk(a, 3);
      assert w[1] == a;
      if a == COLD {
        assert w == [s, a];
      } else {
        var b := ColdHop(a);
        assert ColdWalk(a, 3) == [b] + ColdWalk(b, 2);
        assert w == [s, a, b] + ColdWalk(b, 2);
        assert ColdWalk(b, 2) == if b == COLD then [] else [COLD];
      }
    }
  }

  lemma ColdWalkStep(s: SlotState, hops: nat)
    requires s != COLD && hops > 0
    ensures ColdWalk(s, hops) == [ColdHop(s)] + ColdWalk(ColdHop(s), hops - 1)
    ensures ColdEnd(s, hops) == ColdEnd(ColdHop(s), hops - 1)
  {
  }

  /** The loop of `_force_cold`, with the states it writes collected in `written`. */
  method ForceColdLoop(start: SlotState, rounds: nat) returns (s: SlotState, written: seq<SlotState>)
    ensures written == ColdWalk(start, rounds)
    ensures s == ColdEnd(start, rounds)
  {
    s, written := start, [];
    var left := rounds;
    while left > 0 && s != COLD
      invariant written + ColdWalk(s, left) == ColdWalk(start, rounds)
      invariant ColdEnd(s, left) == ColdEnd(start, rounds)
    {
      ColdWalkStep(s, left);
      var hop := ColdHop(s);
      assert written + ([hop] + ColdWalk(hop, left - 1)) == (written + [hop]) + ColdWalk(hop, left - 1);
      s, written, left := hop, written + [hop], left - 1;
    }
    assert written + [] == written;
  }
}
