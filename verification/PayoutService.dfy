/** The payout service as the code runs it: rows updated step by step, the ledger called in between. */
module PayoutService {
  import opened Wrappers
  import opened Ledger
  import opened LedgerService
  import opened Money
  import opened Payouts
  import P = PayoutMachine

  class PayoutService {
    const ledger: LedgerService
    const escrow: int
    const platform: int
    var sellers: map<nat, Seller>
    var payouts: seq<Payout>

    constructor (ledger: LedgerService, escrow: int, platform: int, sellers: map<nat, Seller>)
      ensures this.ledger == ledger && this.escrow == escrow && this.platform == platform
      ensures this.sellers == sellers && payouts == []
    {
      this.ledger := ledger;
      this.escrow := escrow;
      this.platform := platform;
      this.sellers := sellers;
      payouts := [];
    }

    function Contents(): World
      reads this, ledger
    {
      World(ledger.Contents(), sellers, payouts, escrow, platform)
    }

    method Create(tx: nat, seller: nat, amount: int, percent: Option<real>) returns (reply: Reply)
      modifies this
      ensures (Contents(), reply) == CreatePayout(old(Contents()), tx, seller, amount, percent)
    {
      if amount < 0 {
        return BadRequest;
      }
      if exists i :: 0 <= i < |payouts| && Blocks(payouts[i], tx) {
        return BadRequest;
      }
      if seller !in sellers {
        return NotFound;
      }
      if tx !in ledger.txs || ledger.txs[tx].status != Completed {
        return BadRequest;
      }
      var stored := StoredFee(amount, Percent(percent));
      if stored.None? {
        return BadRequest;
      }
      payouts := payouts + [Payout(P.Row(P.Pending, 0, 3, None), amount, stored.value.0, stored.value.1, tx, seller)];
      return Done;
    }

    method Gate(i: nat, decision: P.Decision) returns (reply: Reply)
      modifies this
      ensures (Contents(), reply) == MarkEligible(old(Contents()), i, decision)
    {
      if i >= |payouts| {
        return NotFound;
      }
      var p := payouts[i];
      if !P.Allowed(p.row.status, P.Eligible) {
        return BadRequest;
      }
      if p.seller !in sellers || !sellers[p.seller].payoutsEnabled {
        return BadRequest;
      }
      if sellers[p.seller].payoutsBlocked {
        return SellerBlocked;
      }
      if Balance(ledger.rows, sellers[p.seller].account) < 0 {
        return SellerBlocked;
      }
      if decision.Block? {
        return FraudBlocked;
      }
      WriteStatus(i, P.Eligible);
      return Done;
    }

    method WriteStatus(i: nat, status: P.Status)
      requires i < |payouts|
      modifies this`payouts
      ensures Contents() == SetStatus(old(Contents()), i, status)
    {
      payouts := payouts[i := payouts[i].(row := payouts[i].row.(status := status))];
    }

    /** Claim, escrow check, Stripe, transfer id, ledger, final status: six writes in the code's order. */
    method Process(i: nat, transfer: Option<nat>) returns (reply: Reply)
      requires ledger.Valid()
      modifies this, ledger
      ensures ledger.Valid()
      ensures (Contents(), reply) == ProcessPayout(old(Contents()), i, transfer, old(ledger.nextTx))
    {
      if i >= |payouts| {
        return NotFound;
      }
      var p := payouts[i];
      if !P.Allowed(p.row.status, P.Processing) {
        return BadRequest;
      }
      if p.seller !in sellers || !sellers[p.seller].hasStripe {
        return BadRequest;
      }
      if ClaimRefused(Contents(), i) {
        return Conflict;
      }
      payouts := payouts[i := p.(row := p.row.(status := P.Processing, attempts := p.row.attempts + 1))];
      if Balance(ledger.rows, escrow) < p.amount {
        WriteStatus(i, P.Failed);
        return InsufficientEscrow;
      }
      if transfer.None? {
        WriteStatus(i, P.Failed);
        return StripeFailed;
      }
      payouts := payouts[i := payouts[i].(row := payouts[i].row.(transferId := transfer))];
      var terms := Terms(p.amount, p.fee, p.sellerAmount, escrow, sellers[p.seller].account, platform);
      var posted := ledger.ReleasePayout(terms);
      if posted.Err? {
        WriteStatus(i, P.Failed);
        assert Contents().payouts == ProcessPayout(old(Contents()), i, transfer, old(ledger.nextTx)).0.payouts;
        return LedgerFailed(posted.error);
      }
      WriteStatus(i, P.Paid);
      assert Contents().payouts == ProcessPayout(old(Contents()), i, transfer, old(ledger.nextTx)).0.payouts;
      return Done;
    }

    method Retry(i: nat, transfer: Option<nat>) returns (reply: Reply)
      requires ledger.Valid()
      modifies this, ledger
      ensures ledger.Valid()
      ensures (Contents(), reply) == RetryPayout(old(Contents()), i, transfer, old(ledger.nextTx))
    {
      if i >= |payouts| {
        return NotFound;
      }
      if payouts[i].row.attempts >= payouts[i].row.maxAttempts {
        return BadRequest;
      }
      reply := Process(i, transfer);
    }

    method Force(i: nat, transfer: Option<nat>) returns (reply: Reply)
      requires ledger.Valid()
      modifies this, ledger
      ensures ledger.Valid()
      ensures (Contents(), reply) == ForceRetry(old(Contents()), i, transfer, old(ledger.nextTx))
    {
      if i >= |payouts| {
        return NotFound;
      }
      if payouts[i].row.status != P.Failed {
        return BadRequest;
      }
      payouts := payouts[i := payouts[i].(row := payouts[i].row.(attempts := 0))];
      reply := Process(i, transfer);
    }

    method Reverse(i: nat, stripeOk: bool) returns (reply: Reply)
      requires ledger.Valid()
      modifies this, ledger
      ensures ledger.Valid() && (reply.Done? ==> ledger.nextTx == old(ledger.nextTx) + 1)
      ensures (Contents(), reply) == ReversePayout(old(Contents()), i, stripeOk, old(ledger.nextTx))
    {
      if i >= |payouts| {
        return NotFound;
      }
      var p := payouts[i];
      if p.row.status != P.Paid {
        return BadRequest;
      }
      if p.seller !in sellers {
        return NotFound;
      }
      if p.row.transferId.Some? && !stripeOk {
        return StripeFailed;
      }
      var terms := Terms(p.amount, p.fee, p.sellerAmount, escrow, sellers[p.seller].account, platform);
      var posted := ledger.ReversePayout(terms);
      if posted.Err? {
        return LedgerFailed(posted.error);
      }
      WriteStatus(i, P.Reversed);
      return Done;
    }
  }
}
