/**
 How long the freeze of a disputed payout holds.  openDispute puts the payout
 back to PENDING; what can make it ELIGIBLE again is the eligibility gate, which
 does not look at disputes, and the winning of any dispute attached to it.
 */
module PayoutFreeze {
  import opened Wrappers
  import opened PayoutMachine
  import opened PayoutSafety
  import D = DisputeStates

  predicate Gating(k: Worker) {
    k.GateRead? || k.GateCheck? || k.GateGrant?
  }

  predicate NoGate(s: State) {
    forall v :: 0 <= v < |s.workers| ==> !Gating(s.workers[v])
  }

  /** The action is the win of a dispute attached to the payout. */
  predicate WinsFor(s: State, a: Action) {
    a.ResolveWon? && a.d < |s.disputes| && s.disputes[a.d].attached
  }

  /**
   A PENDING payout leaves PENDING in one step exactly when a gate worker makes its
   grant or a dispute attached to it is won.
   */
  lemma LeavesPendingIff(s: State, a: Action)
    requires Inv(s) && s.row.status.Pending? && Enabled(s, a)
    ensures !Step(s, a).row.status.Pending? <==> WinsFor(s, a) || (a.Run? && s.workers[a.w].GateGrant?)
    ensures !Step(s, a).row.status.Pending? ==> Step(s, a).row.status.Eligible?
  {
    if a.Run? {
      assert WorkerOk(s, s.workers[a.w]);
    }
  }

  /** Nobody calls the gate, and no dispute attached to the payout is won. */
  predicate Undisturbed(s: State, acts: seq<Action>)
    requires Feasible(s, acts)
    decreases |acts|
  {
    acts == [] || (acts[0] != Spawn(GateRead) && !WinsFor(s, acts[0]) && Undisturbed(Step(s, acts[0]), acts[1..]))
  }

  lemma KeepNoGate(s: State, a: Action)
    requires Enabled(s, a) && NoGate(s) && a != Spawn(GateRead)
    ensures NoGate(Step(s, a))
  {
    if a.Run? {
      assert !Gating(s.workers[a.w]);
      assert !Gating(RunStep(s, a.w, a.ok).workers[a.w]);
    }
  }

  lemma {:induction false} StaysPending(s: State, acts: seq<Action>)
    requires Inv(s) && s.row.status.Pending? && NoGate(s) && Feasible(s, acts) && Undisturbed(s, acts)
    ensures Exec(s, acts).row.status.Pending?
    decreases |acts|
  {
    if acts != [] {
      if acts[0].Run? {
        assert !Gating(s.workers[acts[0].w]);
      }
      LeavesPendingIff(s, acts[0]);
      KeepNoGate(s, acts[0]);
      Keep(s, acts[0]);
      StaysPending(Step(s, acts[0]), acts[1..]);
    }
  }

  /**
   The freeze holds: a payout attached to a dispute as it opens is PENDING, and
   stays PENDING over every run of any workers, if no gate worker is live at the
   freeze, none is started after it, and no dispute attached to it is won.
   */
  lemma FreezeHolds(n: nat, before: seq<Action>, acts: seq<Action>)
    requires Feasible(Created(n), before)
    requires var s := Exec(Created(n), before); (s.row.status.Pending? || s.row.status.Eligible?) && NoGate(s)
    requires var z := Step(Exec(Created(n), before), OpenDispute(true)); Feasible(z, acts) && Undisturbed(z, acts)
    ensures var z := Step(Exec(Created(n), before), OpenDispute(true));
      z.row.status.Pending? && Exec(z, acts).row.status.Pending?
  {
    KeepAll(Created(n), before);
    var s := Exec(Created(n), before);
    Keep(s, OpenDispute(true));
    StaysPending(Step(s, OpenDispute(true)), acts);
  }

  /** Dispute d is attached to the payout and not decided. */
  predicate Contested(s: State, d: nat) {
    d < |s.disputes| && s.disputes[d].attached && !D.Terminal(s.disputes[d].status)
  }

  /** One gate call with passing facts breaks it, from any state with a PENDING row and whatever disputes are open. */
  lemma GateBreaksFreeze(s: State, d: nat, f: Facts) returns (acts: seq<Action>)
    requires s.row.status.Pending? && Contested(s, d) && Passes(f)
    ensures |acts| > 0 && acts[0] == Spawn(GateRead) && Feasible(s, acts)
    ensures Exec(s, acts).row.status.Eligible? && Contested(Exec(s, acts), d)
  {
    acts := GatePasses(s, [], f);
  }

  /** So does the win of any other attached dispute, without a gate call, from any such state. */
  lemma WinBreaksFreeze(s: State, d: nat) returns (acts: seq<Action>)
    requires s.row.status.Pending? && Contested(s, d)
    ensures acts == [OpenDispute(true), StartReview(|s.disputes|), ResolveWon(|s.disputes|)] && Feasible(s, acts)
    ensures Exec(s, acts).row.status.Eligible? && Contested(Exec(s, acts), d)
  {
    var n := |s.disputes|;
    Snoc(s, [], OpenDispute(true));
    assert [] + [OpenDispute(true)] == [OpenDispute(true)];
    acts := [OpenDispute(true)];
    Snoc(s, acts, StartReview(n));
    acts := acts + [StartReview(n)];
    Snoc(s, acts, ResolveWon(n));
    acts := acts + [ResolveWon(n)];
  }

  /**
   Each dispute call moves its own dispute to the state it names and no other; a
   decision against the seller leaves the row.
   */
  lemma DisputeSteps(s: State, a: Action, d: nat)
    requires Enabled(s, a) && d < |s.disputes|
    ensures var after := Step(s, a).disputes[d];
      && after.attached == s.disputes[d].attached
      && after.status == (match a
           case StartReview(e) => if e == d then D.UNDER_REVIEW else s.disputes[d].status
           case ResolveWon(e) => if e == d then D.WON else s.disputes[d].status
           case ResolveAgainst(e, outcome) => if e == d then outcome else s.disputes[d].status
           case _ => s.disputes[d].status)
    ensures a.ResolveAgainst? || a.StartReview? ==> Step(s, a).row == s.row
  {
  }
}
