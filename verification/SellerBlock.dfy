/**
 A seller blocked for a negative balance stays blocked: no payout or dispute
 call lifts the block, whatever the balance becomes.
 */
module SellerBlock {
  import opened Wrappers
  import opened Ledger
  import opened Payouts
  import opened PayoutBooking
  import Disputes
  import P = PayoutMachine

  predicate Blocked(w: World, s: nat) {
    s in w.sellers && w.sellers[s].payoutsBlocked
  }

  lemma BlockStays(w: World, op: Op, s: nat)
    requires Blocked(w, s)
    ensures Blocked(Apply(w, op), s)
  {
  }

  lemma {:induction false} BlockStaysAll(w: World, ops: seq<Op>, s: nat)
    requires Blocked(w, s)
    ensures Blocked(Run(w, ops), s)
    decreases |ops|
  {
    if ops != [] {
      BlockStays(w, ops[0], s);
      BlockStaysAll(Apply(w, ops[0]), ops[1..], s);
    }
  }

  /**
   Once a decision has left a seller negative, no gate call in any later run
   lets a payout of that seller through, even after the balance has recovered.
   */
  lemma NegativeSellerStopped(
    w: World, i: nat, stripeOk: bool, id: nat, ops: seq<Op>, j: nat, decision: P.Decision)
    requires DecideAgainst(w, i, stripeOk, id).1.Done?
    requires var w' := DecideAgainst(w, i, stripeOk, id).0;
             Balance(w'.ledger.rows, w'.sellers[w.payouts[i].seller].account) < 0
    requires var z := Run(DecideAgainst(w, i, stripeOk, id).0, ops);
             j < |z.payouts| && z.payouts[j].seller == w.payouts[i].seller
    ensures var z := Run(DecideAgainst(w, i, stripeOk, id).0, ops);
      MarkEligible(z, j, decision).0 == z && !MarkEligible(z, j, decision).1.Done?
  {
    BlockStaysAll(DecideAgainst(w, i, stripeOk, id).0, ops, w.payouts[i].seller);
  }

  /** A PENDING payout of a blocked seller leaves PENDING by a call exactly when the call is a dispute won for it. */
  lemma LeavesPendingIff(w: World, op: Op, j: nat)
    requires j < |w.payouts| && w.payouts[j].row.status.Pending? && Blocked(w, w.payouts[j].seller)
    ensures j < |Apply(w, op).payouts| && Apply(w, op).payouts[j].seller == w.payouts[j].seller
    ensures !Apply(w, op).payouts[j].row.status.Pending? <==> op == Unfreeze(j)
  {
    if op.Process? || op.Retry? || op.Force? {
      AttemptElsewhere(w, op, j);
    }
  }

  lemma AttemptElsewhere(w: World, op: Op, j: nat)
    requires j < |w.payouts| && w.payouts[j].row.status.Pending? && (op.Process? || op.Retry? || op.Force?)
    ensures j < |Apply(w, op).payouts| && Apply(w, op).payouts[j] == w.payouts[j]
  {
  }

  /** So over any run without such a win the payout stays PENDING. */
  lemma {:induction false} BlockedStaysPending(w: World, ops: seq<Op>, j: nat)
    requires j < |w.payouts| && w.payouts[j].row.status.Pending? && Blocked(w, w.payouts[j].seller)
    requires Unfreeze(j) !in ops
    ensures j < |Run(w, ops).payouts| && Run(w, ops).payouts[j].row.status.Pending?
    decreases |ops|
  {
    if ops != [] {
      LeavesPendingIff(w, ops[0], j);
      BlockStays(w, ops[0], w.payouts[j].seller);
      BlockedStaysPending(Apply(w, ops[0]), ops[1..], j);
    }
  }

  // ---- Which payouts a block does not stop ----

  predicate EndsPaid(w: World, ops: seq<Op>, j: nat) {
    j < |Run(w, ops).payouts| && Run(w, ops).payouts[j].row.status.Paid?
  }

  /** A REVERSED payout stays so in serial runs, and so would one left in PROCESSING. */
  lemma {:induction false} StaysPut(w: World, ops: seq<Op>, j: nat)
    requires j < |w.payouts| && (w.payouts[j].row.status.Reversed? || w.payouts[j].row.status.Processing?)
    ensures j < |Run(w, ops).payouts| && Run(w, ops).payouts[j].row.status == w.payouts[j].row.status
    decreases |ops|
  {
    if ops != [] {
      StaysPutOnce(w, ops[0], j);
      StaysPut(Apply(w, ops[0]), ops[1..], j);
    }
  }

  lemma StaysPutOnce(w: World, op: Op, j: nat)
    requires j < |w.payouts| && (w.payouts[j].row.status.Reversed? || w.payouts[j].row.status.Processing?)
    ensures j < |Apply(w, op).payouts| && Apply(w, op).payouts[j].row.status == w.payouts[j].row.status
  {
    match op {
      case Process(i, transfer, id) => ProcessElsewhere(w, i, transfer, id, j);
      case Retry(i, transfer, id) => ProcessElsewhere(w, i, transfer, id, j);
      case Force(i, transfer, id) =>
        if i < |w.payouts| {
          var reset := w.payouts[i].(row := w.payouts[i].row.(attempts := 0));
          ProcessElsewhere(w.(payouts := w.payouts[i := reset]), i, transfer, id, j);
        }
      case _ =>
    }
  }

  /** processPayout touches ELIGIBLE and FAILED payouts only. */
  lemma ProcessElsewhere(w: World, i: nat, transfer: Option<nat>, id: nat, j: nat)
    requires j < |w.payouts| && !P.Allowed(w.payouts[j].row.status, P.Processing)
    ensures j < |ProcessPayout(w, i, transfer, id).0.payouts|
    ensures ProcessPayout(w, i, transfer, id).0.payouts[j] == w.payouts[j]
  {
  }

  lemma RunOne(w: World, op: Op)
    ensures Run(w, [op]) == Apply(w, op)
  {
    assert [op][1..] == [];
  }

  /** Everything an attempt needs but the payout's own status and Stripe's acceptance. */
  predicate Fundable(w: World, j: nat)
    requires j < |w.payouts|
  {
    && w.payouts[j].seller in w.sellers && w.sellers[w.payouts[j].seller].hasStripe
    && !ClaimRefused(w, j) && Balance(w.ledger.rows, w.escrow) >= w.payouts[j].amount && Bookable(w, j)
  }

  lemma AttemptPays(w: World, j: nat, t: nat, id: nat)
    requires j < |w.payouts| && Fundable(w, j)
    requires w.payouts[j].row.status.Eligible? || w.payouts[j].row.status.Failed?
    ensures EndsPaid(w, [Process(j, Some(t), id)], j)
  {
    AttemptEndsPaidIff(w, j, Some(t), id);
    RunOne(w, Process(j, Some(t), id));
  }

  /**
   The block stops a payout at the gate and nowhere else.  A payout of a blocked
   seller, fundable and not yet PAID, can still be paid without a dispute won for
   it exactly when it was already past the gate: ELIGIBLE or FAILED.
   */
  lemma BlockedStillPaidIff(w: World, j: nat)
    requires j < |w.payouts| && Blocked(w, w.payouts[j].seller) && Fundable(w, j) && !w.payouts[j].row.status.Paid?
    ensures (exists ops :: Unfreeze(j) !in ops && EndsPaid(w, ops, j)) <==>
            w.payouts[j].row.status.Eligible? || w.payouts[j].row.status.Failed?
  {
    if w.payouts[j].row.status.Eligible? || w.payouts[j].row.status.Failed? {
      AttemptPays(w, j, 0, 0);
      assert Unfreeze(j) !in [Process(j, Some(0), 0)];
    } else {
      forall ops | Unfreeze(j) !in ops ensures !EndsPaid(w, ops, j) {
        if w.payouts[j].row.status.Pending? {
          BlockedStaysPending(w, ops, j);
        } else {
          StaysPut(w, ops, j);
        }
      }
    }
  }

  /** With a dispute won for it a PENDING one can be paid too; only REVERSED and PROCESSING ones cannot. */
  lemma BlockedPaidIff(w: World, j: nat)
    requires j < |w.payouts| && Blocked(w, w.payouts[j].seller) && Fundable(w, j) && !w.payouts[j].row.status.Paid?
    ensures (exists ops :: EndsPaid(w, ops, j)) <==>
            !w.payouts[j].row.status.Reversed? && !w.payouts[j].row.status.Processing?
  {
    if w.payouts[j].row.status.Reversed? || w.payouts[j].row.status.Processing? {
      forall ops ensures !EndsPaid(w, ops, j) {
        StaysPut(w, ops, j);
      }
    } else if w.payouts[j].row.status.Pending? {
      WinThenPaid(w, j);
    } else {
      AttemptPays(w, j, 0, 0);
    }
  }

  lemma WinThenPaid(w: World, j: nat)
    requires j < |w.payouts| && Fundable(w, j) && w.payouts[j].row.status.Pending?
    ensures EndsPaid(w, [Unfreeze(j)] + [Process(j, Some(0), 0)], j)
  {
    var z := Apply(w, Unfreeze(j));
    assert forall k :: 0 <= k < |w.payouts| && k != j ==> z.payouts[k] == w.payouts[k];
    AttemptPays(z, j, 0, 0);
    assert ([Unfreeze(j)] + [Process(j, Some(0), 0)])[1..] == [Process(j, Some(0), 0)];
  }

  // ---- With disputes ----

  lemma BlockStaysDesk(d: Disputes.Desk, op: Disputes.DeskOp, s: nat)
    requires Blocked(d.world, s)
    ensures Blocked(Disputes.Act(d, op).0.world, s)
  {
    match op {
      case Other(o) => BlockStays(d.world, o, s);
      case GiveBack(k, stripeOk, id) =>
        if k < |d.disputes| {
          assert Blocked(Disputes.TakeBack(d, k, stripeOk, id).0, s);
        }
      case _ =>
    }
  }

  /** The block outlives every run of payout, ledger and dispute calls. */
  lemma {:induction false} BlockForever(d: Disputes.Desk, ops: seq<Disputes.DeskOp>, s: nat)
    requires Blocked(d.world, s)
    ensures Blocked(Disputes.Run(d, ops).world, s)
    decreases |ops|
  {
    if ops != [] {
      BlockStaysDesk(d, ops[0], s);
      BlockForever(Disputes.Act(d, ops[0]).0, ops[1..], s);
    }
  }
}
