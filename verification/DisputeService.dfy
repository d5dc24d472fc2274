/** The dispute service as the code runs it, over the payout service and the ledger. */
module DisputeService {
  import opened Wrappers
  import opened Ledger
  import opened LedgerService
  import opened Payouts
  import opened PayoutService
  import opened DisputeStates
  import opened Disputes
  import P = PayoutMachine

  class DisputeService {
    const payouts: PayoutService
    var disputes: seq<Dispute>

    constructor (payouts: PayoutService)
      ensures this.payouts == payouts && disputes == []
    {
      this.payouts := payouts;
      disputes := [];
    }

    function Contents(): Desk
      reads this, payouts, payouts.ledger
    {
      Desk(payouts.Contents(), disputes)
    }

    method Find(want: Want) returns (r: Option<nat>)
      ensures r == FirstFrom(payouts.payouts, 0, want)
    {
      for i := 0 to |payouts.payouts|
        invariant FirstFrom(payouts.payouts, 0, want) == FirstFrom(payouts.payouts, i, want)
      {
        if Meets(payouts.payouts[i], want) {
          return Some(i);
        }
      }
      return None;
    }

    method OpenDispute(tx: nat, amount: int) returns (reply: Reply)
      modifies this, payouts
      ensures (Contents(), reply) == Disputes.OpenDispute(old(Contents()), tx, amount)
    {
      if tx !in payouts.ledger.txs {
        return NotFound;
      }
      var found := Find(Freezable(tx));
      disputes := disputes + [Dispute(tx, amount, found, OPEN)];
      if found.Some? && payouts.payouts[found.value].row.status.Eligible? {
        payouts.WriteStatus(found.value, P.Pending);
      }
      return Done;
    }

    method StartReview(k: nat) returns (reply: Reply)
      modifies this
      ensures (Contents(), reply) == Disputes.StartReview(old(Contents()), k)
    {
      if k >= |disputes| {
        return NotFound;
      }
      if !Allowed(disputes[k].status, UNDER_REVIEW) {
        return BadRequest;
      }
      disputes := disputes[k := disputes[k].(status := UNDER_REVIEW)];
      return Done;
    }

    method ResolveWon(k: nat) returns (reply: Reply)
      modifies this, payouts
      ensures (Contents(), reply) == Disputes.ResolveWon(old(Contents()), k)
    {
      if k >= |disputes| {
        return NotFound;
      }
      if !Allowed(disputes[k].status, WON) {
        return BadRequest;
      }
      var p := disputes[k].payout;
      if p.Some? && p.value < |payouts.payouts| && payouts.payouts[p.value].row.status.Pending? {
        payouts.WriteStatus(p.value, P.Eligible);
      }
      disputes := disputes[k := disputes[k].(status := WON)];
      return Done;
    }

    method UpdateSellerNegativeBalance(s: nat)
      modifies payouts
      ensures payouts.Contents() == BlockIfNegative(old(payouts.Contents()), s)
    {
      if s !in payouts.sellers {
        return;
      }
      var balance := Balance(payouts.ledger.rows, payouts.sellers[s].account);
      if balance < 0 {
        payouts.sellers :=
            payouts.sellers[s := payouts.sellers[s].(negativeBalance := -balance, payoutsBlocked := true)];
      }
    }

    /** The attached payout, else a PAID one of the transaction, is reversed when it is PAID. */
    method TakeBack(k: nat, stripeOk: bool) returns (reversed: bool, reply: Reply)
      requires k < |disputes| && payouts.ledger.Valid()
      modifies payouts, payouts.ledger
      ensures payouts.ledger.Valid()
      ensures reversed == Reverses(old(Contents()), k)
      ensures (payouts.Contents(), reply) == Disputes.TakeBack(old(Contents()), k, stripeOk, old(payouts.ledger.nextTx))
      ensures reply.Done? ==> payouts.ledger.nextTx == old(payouts.ledger.nextTx) + if reversed then 1 else 0
    {
      var p := disputes[k].payout;
      if p.None? || p.value >= |payouts.payouts| {
        p := Find(PaidFor(disputes[k].tx));
      }
      if p.None? || payouts.payouts[p.value].row.status != P.Paid {
        return false, Done;
      }
      var seller := payouts.payouts[p.value].seller;
      reply := payouts.Reverse(p.value, stripeOk);
      if reply.Done? {
        UpdateSellerNegativeBalance(seller);
      }
      return true, reply;
    }

    method ResolveLost(k: nat, stripeOk: bool) returns (reply: Reply)
      requires payouts.ledger.Valid()
      modifies this, payouts, payouts.ledger
      ensures payouts.ledger.Valid()
      ensures (Contents(), reply) == Disputes.ResolveLost(old(Contents()), k, stripeOk, old(payouts.ledger.nextTx))
    {
      if k >= |disputes| {
        return NotFound;
      }
      if !Allowed(disputes[k].status, LOST) {
        return BadRequest;
      }
      var reversed;
      reversed, reply := TakeBack(k, stripeOk);
      if reply.Done? {
        disputes := disputes[k := disputes[k].(status := LOST)];
      }
    }

    /** Escrow to buyer, unless the transaction or its debit entry is gone. */
    method RefundBuyer(dispute: Dispute) returns (reply: Reply)
      requires payouts.ledger.Valid()
      modifies payouts.ledger
      ensures payouts.ledger.Valid()
      ensures (payouts.Contents(), reply) ==
          Disputes.RefundBuyer(old(payouts.Contents()), dispute, old(payouts.ledger.nextTx))
    {
      var buyer := Buyer(payouts.Contents(), dispute.tx);
      if buyer.None? {
        return Done;
      }
      var posted := payouts.ledger.CreateTransaction(RefundEntries(payouts.escrow, buyer.value, dispute.amount), None);
      return if posted.Ok? then Done else LedgerFailed(posted.error);
    }

    method CloseRefund(k: nat) returns (reply: Reply)
      requires k < |disputes| && payouts.ledger.Valid()
      modifies this, payouts.ledger
      ensures payouts.ledger.Valid()
      ensures (Contents(), reply) == Disputes.CloseRefund(old(Contents()), k, old(payouts.ledger.nextTx))
    {
      reply := RefundBuyer(disputes[k]);
      if reply.Done? {
        disputes := disputes[k := disputes[k].(status := REFUNDED)];
      }
    }

    method ResolveRefunded(k: nat, stripeOk: bool) returns (reply: Reply)
      requires payouts.ledger.Valid()
      modifies this, payouts, payouts.ledger
      ensures payouts.ledger.Valid()
      ensures (Contents(), reply) == Disputes.ResolveRefunded(old(Contents()), k, stripeOk, old(payouts.ledger.nextTx))
    {
      if k >= |disputes| {
        return NotFound;
      }
      if !Allowed(disputes[k].status, REFUNDED) {
        return BadRequest;
      }
      ghost var before, id := Contents(), payouts.ledger.nextTx;
      var reversed;
      reversed, reply := TakeBack(k, stripeOk);
      RefundSteps(before, k, stripeOk, id, payouts.Contents(), reply);
      if reply.Done? {
        reply := CloseRefund(k);
      }
    }
  }
}
