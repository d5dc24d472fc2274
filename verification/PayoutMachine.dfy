/**
 One payout under any number of concurrent callers.  Each worker is a call of
 processPayout, retryPayout, forceRetry, markEligible or reversePayout cut at
 its database and Stripe calls; workers interleave freely, read stale rows, and
 may crash anywhere.  `transfers` and `released`/`reversed` record what really
 happened at Stripe and in the ledger.

 Taken as given: a Stripe call that throws moved no money, and a ledger
 transaction that throws rolled back.  Stripe answers a known idempotency key
 with the transfer it already made.  Dispute operations are single steps.  The
 claim of a FAILED payout is refused by the database while another payout of
 its transaction is PENDING, ELIGIBLE or PROCESSING.
 */
module PayoutMachine {
  import opened Wrappers
  import D = DisputeStates

  datatype Status = Pending | Eligible | Processing | Paid | Failed | Reversed

  predicate Allowed(current: Status, next: Status) {
    match current
    case Pending => next.Eligible?
    case Eligible => next.Processing?
    case Processing => next.Paid? || next.Failed?
    case Paid => next.Reversed?
    case Failed => next.Processing?
    case Reversed => false
  }

  datatype Row = Row(status: Status, attempts: nat, maxAttempts: nat, transferId: Option<nat>)

  datatype Decision = Allow | Review | Block

  /** What the eligibility gate looks at. */
  datatype Facts = Facts(payoutsEnabled: bool, payoutsBlocked: bool, balance: int, decision: Decision)

  predicate Passes(f: Facts) {
    f.payoutsEnabled && !f.payoutsBlocked && f.balance >= 0 && !f.decision.Block?
  }

  datatype Grant = ByGate(facts: Facts) | ByDispute(d: nat)

  /** A dispute of the payout's transaction, as far as the payout is concerned. */
  datatype Contest = Contest(status: D.Status, attached: bool)

  datatype Worker =
    | RetryRead
    | ForceRead
    | ForceReset
    | Read
    | Claim(seen: Row)
    | Escrow(seen: Row)
    | Transfer(seen: Row)
    | Persist(transfer: nat)
    | Release
    | MarkPaid
    | MarkFailed
    | GateRead
    | GateCheck
    | GateGrant(facts: Facts)
    | ReversalRead
    | ReversalStripe
    | ReversalLedger
    | ReversalMark
    | Finished
    | Crashed

  /** `transfers` maps the attempt number in the idempotency key to the transfer Stripe made for it. */
  datatype State = State(
    row: Row, workers: seq<Worker>, transfers: map<nat, nat>, nextTransfer: nat, released: nat, reversed: nat,
    disputes: seq<Contest>, grant: Option<Grant>)

  datatype Action =
    | Spawn(entry: Worker)
    | Run(w: nat, ok: bool)
    | Gate(w: nat, facts: Facts)
    | Crash(w: nat)
    | OpenDispute(chosen: bool)
    | StartReview(d: nat)
    | ResolveWon(d: nat)
    | ResolveAgainst(d: nat, outcome: D.Status)

  predicate Live(k: Worker) {
    !k.Finished? && !k.Crashed?
  }

  predicate Entry(k: Worker) {
    k.RetryRead? || k.ForceRead? || k.Read? || k.GateRead? || k.ReversalRead?
  }

  predicate Enabled(s: State, a: Action) {
    match a
    case Spawn(k) => Entry(k)
    case Run(w, _) => w < |s.workers| && Live(s.workers[w]) && !s.workers[w].GateCheck?
    case Gate(w, _) => w < |s.workers| && s.workers[w].GateCheck?
    case Crash(w) => w < |s.workers| && Live(s.workers[w])
    case OpenDispute(_) => true
    case StartReview(d) => d < |s.disputes| && D.Allowed(s.disputes[d].status, D.UNDER_REVIEW)
    case ResolveWon(d) => d < |s.disputes| && D.Allowed(s.disputes[d].status, D.WON)
    case ResolveAgainst(d, outcome) =>
      d < |s.disputes| && !outcome.WON? && D.Terminal(outcome) && D.Allowed(s.disputes[d].status, outcome)
  }

  function Goto(s: State, w: nat, k: Worker): State
    requires w < |s.workers|
  {
    s.(workers := s.workers[w := k])
  }

  /** The transfer Stripe answers with for an attempt number. */
  function Charge(s: State, key: nat): (State, nat) {
    if key in s.transfers then (s, s.transfers[key])
    else (s.(transfers := s.transfers[key := s.nextTransfer], nextTransfer := s.nextTransfer + 1), s.nextTransfer)
  }

  /**
   One step of worker w; `ok` is what the seller record, the index on active
   payouts, the escrow balance, Stripe or the ledger answers.
   */
  function RunStep(s: State, w: nat, ok: bool): State
    requires w < |s.workers|
  {
    match s.workers[w]
    case RetryRead => Goto(s, w, if s.row.attempts >= s.row.maxAttempts then Finished else Read)
    case ForceRead => Goto(s, w, if s.row.status.Failed? then ForceReset else Finished)
    case ForceReset => Goto(s, w, Read).(row := s.row.(attempts := 0))
    case Read => Goto(s, w, if Allowed(s.row.status, Processing) && ok then Claim(s.row) else Finished)
    case Claim(seen) =>
      if s.row.status == seen.status && (ok || !seen.status.Failed?) then
        Goto(s, w, Escrow(seen)).(row := s.row.(status := Processing, attempts := s.row.attempts + 1))
      else Goto(s, w, Finished)
    case Escrow(seen) => Goto(s, w, if ok then Transfer(seen) else MarkFailed)
    case Transfer(seen) =>
      if ok then
        var (s', id) := Charge(s, seen.attempts + 1);
        s'.(workers := s.workers[w := Persist(id)])
      else Goto(s, w, MarkFailed)
    case Persist(id) => Goto(s, w, Release).(row := s.row.(transferId := Some(id)))
    case Release => if ok then Goto(s, w, MarkPaid).(released := s.released + 1) else Goto(s, w, MarkFailed)
    case MarkPaid => Goto(s, w, Finished).(row := s.row.(status := Paid))
    case MarkFailed => Goto(s, w, Finished).(row := s.row.(status := Failed))
    case GateRead => Goto(s, w, if Allowed(s.row.status, Eligible) then GateCheck else Finished)
    case GateGrant(f) =>
      if s.row.status.Pending? then Goto(s, w, Finished).(row := s.row.(status := Eligible), grant := Some(ByGate(f)))
      else Goto(s, w, Finished)
    case ReversalRead => Goto(s, w, if s.row.status.Paid? then ReversalStripe else Finished)
    case ReversalStripe => Goto(s, w, if s.row.transferId.None? || ok then ReversalLedger else Finished)
    case ReversalLedger => if ok then Goto(s, w, ReversalMark).(reversed := s.reversed + 1) else Goto(s, w, Finished)
    case ReversalMark => Goto(s, w, Finished).(row := s.row.(status := Reversed))
    case _ => s
  }

  function Step(s: State, a: Action): State
    requires Enabled(s, a)
  {
    match a
    case Spawn(k) => s.(workers := s.workers + [k])
    case Run(w, ok) => RunStep(s, w, ok)
    case Gate(w, f) => Goto(s, w, if Passes(f) then GateGrant(f) else Finished)
    case Crash(w) => Goto(s, w, Crashed)
    case OpenDispute(chosen) =>
      var attached := chosen && (s.row.status.Pending? || s.row.status.Eligible?);
      s.(disputes := s.disputes + [Contest(D.OPEN, attached)],
         row := if attached then s.row.(status := Pending) else s.row)
    case StartReview(d) => s.(disputes := s.disputes[d := s.disputes[d].(status := D.UNDER_REVIEW)])
    case ResolveWon(d) =>
      var s' := s.(disputes := s.disputes[d := s.disputes[d].(status := D.WON)]);
      if s.disputes[d].attached && s.row.status.Pending? then
        s'.(row := s.row.(status := Eligible), grant := Some(ByDispute(d)))
      else s'
    case ResolveAgainst(d, outcome) => s.(disputes := s.disputes[d := s.disputes[d].(status := outcome)])
  }

  predicate Feasible(s: State, acts: seq<Action>)
    decreases |acts|
  {
    acts == [] || (Enabled(s, acts[0]) && Feasible(Step(s, acts[0]), acts[1..]))
  }

  function Exec(s: State, acts: seq<Action>): State
    requires Feasible(s, acts)
    decreases |acts|
  {
    if acts == [] then s else Exec(Step(s, acts[0]), acts[1..])
  }

  /** A payout as createPayout leaves it. */
  function Created(maxAttempts: nat): State {
    State(Row(Pending, 0, maxAttempts, None), [], map[], 0, 0, 0, [], None)
  }

  // ---- The invariant ----

  /** Between its claim and its final write. */
  predicate Holding(k: Worker) {
    k.Escrow? || k.Transfer? || k.Persist? || k.Release? || k.MarkPaid? || k.MarkFailed?
  }

  /** Stripe made a transfer that the row does not show. */
  predicate Unrecorded(s: State) {
    s.transfers != map[] && s.row.transferId.None?
  }

  ghost predicate WorkerOk(s: State, k: Worker) {
    && (Holding(k) ==> s.row.status.Processing? && s.released == if k.MarkPaid? then 1 else 0)
    && (Holding(k) && Unrecorded(s) ==> k.Persist?)
    && (k.Persist? ==> k.transfer in s.transfers.Values)
    && (k.Release? ==> s.row.transferId.Some?)
    && (k.Claim? ==> k.seen.status.Eligible? || k.seen.status.Failed?)
    && (k.GateGrant? ==> Passes(k.facts))
    && (k.ReversalStripe? || k.ReversalLedger? || k.ReversalMark? ==> s.row.status.Paid? || s.row.status.Reversed?)
  }

  ghost predicate Inv(s: State) {
    && (forall v :: 0 <= v < |s.workers| ==> WorkerOk(s, s.workers[v]))
    && (forall v, w :: 0 <= v < |s.workers| && 0 <= w < |s.workers| && v != w ==>
          !(Holding(s.workers[v]) && Holding(s.workers[w])))
    && s.released <= 1
    && (s.row.status.Paid? || s.row.status.Reversed? ==> s.released == 1)
    && (s.row.status.Pending? || s.row.status.Eligible? || s.row.status.Failed? ==> s.released == 0)
    && (Unrecorded(s) ==> s.row.status.Processing?)
    && (s.row.transferId.Some? ==> s.row.transferId.value in s.transfers.Values)
    && (s.released == 1 ==> s.row.transferId.Some?)
    && (s.row.status.Pending? || s.row.status.Eligible? ==> s.transfers == map[])
    && GrantOk(s)
  }

  ghost predicate GrantOk(s: State) {
    && (!s.row.status.Pending? ==> s.grant.Some?)
    && (s.grant.Some? ==> match s.grant.value
          case ByGate(f) => Passes(f)
          case ByDispute(d) => d < |s.disputes| && s.disputes[d].attached && s.disputes[d].status.WON?)
  }

  lemma KeepClaim(s: State, w: nat, ok: bool)
    requires Inv(s) && Enabled(s, Run(w, ok)) && s.workers[w].Claim?
    ensures Inv(RunStep(s, w, ok))
  {
    assert WorkerOk(s, s.workers[w]);
    var s' := RunStep(s, w, ok);
    forall v | 0 <= v < |s.workers| && v != w ensures WorkerOk(s', s.workers[v]) {
      assert WorkerOk(s, s.workers[v]);
    }
  }

  lemma KeepTransfer(s: State, w: nat)
    requires Inv(s) && Enabled(s, Run(w, true)) && s.workers[w].Transfer?
    ensures Inv(RunStep(s, w, true))
  {
    assert WorkerOk(s, s.workers[w]);
    var s' := RunStep(s, w, true);
    var key := s.workers[w].seen.attempts + 1;
    assert key in s'.transfers && s'.transfers[key] == s'.workers[w].transfer;
    forall x | x in s.transfers.Values ensures x in s'.transfers.Values {
      var k :| k in s.transfers && s.transfers[k] == x;
      assert k in s'.transfers && s'.transfers[k] == x;
    }
    forall v | 0 <= v < |s.workers| && v != w ensures WorkerOk(s', s.workers[v]) {
      assert WorkerOk(s, s.workers[v]);
    }
  }

  lemma KeepHeld(s: State, w: nat, ok: bool)
    requires Inv(s) && Enabled(s, Run(w, ok)) && Holding(s.workers[w]) && !(s.workers[w].Transfer? && ok)
    ensures Inv(RunStep(s, w, ok))
  {
    assert WorkerOk(s, s.workers[w]);
    var s' := RunStep(s, w, ok);
    forall v | 0 <= v < |s.workers| && v != w ensures WorkerOk(s', s.workers[v]) {
      assert WorkerOk(s, s.workers[v]);
    }
  }

  /** A worker outside the held section moves on without touching the row. */
  lemma Move(s: State, w: nat, k: Worker)
    requires Inv(s) && w < |s.workers| && !Holding(k) && WorkerOk(s, k)
    ensures Inv(Goto(s, w, k))
  {
  }

  /** The three row writes made outside the held section. */
  lemma KeepFreeWrite(s: State, w: nat, ok: bool)
    requires Inv(s) && Enabled(s, Run(w, ok))
    requires s.workers[w].ForceReset? || s.workers[w].GateGrant? || s.workers[w].ReversalMark?
    ensures Inv(RunStep(s, w, ok))
  {
    assert WorkerOk(s, s.workers[w]);
    var s' := RunStep(s, w, ok);
    forall v | 0 <= v < |s.workers| && v != w ensures WorkerOk(s', s.workers[v]) {
      assert WorkerOk(s, s.workers[v]);
    }
  }

  lemma KeepFree(s: State, w: nat, ok: bool)
    requires Inv(s) && Enabled(s, Run(w, ok)) && !Holding(s.workers[w]) && !s.workers[w].Claim?
    ensures Inv(RunStep(s, w, ok))
  {
    if s.workers[w].ForceReset? || s.workers[w].GateGrant? || s.workers[w].ReversalMark? {
      KeepFreeWrite(s, w, ok);
    } else {
      assert WorkerOk(s, s.workers[w]);
      var s' := RunStep(s, w, ok);
      Move(s.(reversed := s'.reversed), w, s'.workers[w]);
    }
  }

  lemma KeepSpawn(s: State, k: Worker)
    requires Inv(s) && Entry(k)
    ensures Inv(Step(s, Spawn(k)))
  {
    var s' := Step(s, Spawn(k));
    forall v | 0 <= v < |s.workers| ensures WorkerOk(s', s.workers[v]) {
      assert WorkerOk(s, s.workers[v]);
    }
  }

  lemma KeepDispute(s: State, a: Action)
    requires Inv(s) && Enabled(s, a) && (a.OpenDispute? || a.StartReview? || a.ResolveWon? || a.ResolveAgainst?)
    ensures Inv(Step(s, a))
  {
    var s' := Step(s, a);
    forall v | 0 <= v < |s.workers| ensures WorkerOk(s', s.workers[v]) {
      assert WorkerOk(s, s.workers[v]);
    }
  }

  lemma KeepOutside(s: State, a: Action)
    requires Inv(s) && Enabled(s, a) && !a.Run?
    ensures Inv(Step(s, a))
  {
    match a {
      case Spawn(k) => KeepSpawn(s, k);
      case Gate(w, f) => Move(s, w, if Passes(f) then GateGrant(f) else Finished);
      case Crash(w) => Move(s, w, Crashed);
      case _ => KeepDispute(s, a);
    }
  }

  lemma Keep(s: State, a: Action)
    requires Inv(s) && Enabled(s, a)
    ensures Inv(Step(s, a))
  {
    if !a.Run? {
      KeepOutside(s, a);
    } else if s.workers[a.w].Claim? {
      KeepClaim(s, a.w, a.ok);
    } else if s.workers[a.w].Transfer? && a.ok {
      KeepTransfer(s, a.w);
    } else if Holding(s.workers[a.w]) {
      KeepHeld(s, a.w, a.ok);
    } else {
      KeepFree(s, a.w, a.ok);
    }
  }

  lemma {:induction false} KeepAll(s: State, acts: seq<Action>)
    requires Inv(s) && Feasible(s, acts)
    ensures Inv(Exec(s, acts))
    decreases |acts|
  {
    if acts != [] {
      Keep(s, acts[0]);
      KeepAll(Step(s, acts[0]), acts[1..]);
    }
  }
}
