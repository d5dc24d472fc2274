/**
 What a transaction takes out of escrow.  A PAID payout takes its amount, a
 refunded dispute takes the disputed amount, and no call weighs the one against
 the other: a transaction draws once for each.
 */
module EscrowDraws {
  import opened Wrappers
  import opened Ledger
  import opened Payouts
  import opened PayoutBooking
  import opened DisputeStates
  import opened Disputes
  import LedgerProtocol
  import LedgerSettlement
  import P = PayoutMachine

  // ---- What escrow has paid out ----

  function PaidAmount(p: Payout): int {
    if p.row.status.Paid? then p.amount else 0
  }

  function PaidAmounts(ps: seq<Payout>): int {
    if ps == [] then 0 else PaidAmount(ps[0]) + PaidAmounts(ps[1..])
  }

  lemma {:induction false} PaidUpdate(ps: seq<Payout>, i: nat, p: Payout)
    requires i < |ps|
    ensures PaidAmounts(ps[i := p]) == PaidAmounts(ps) - PaidAmount(ps[i]) + PaidAmount(p)
  {
    if i == 0 {
      assert ps[0 := p][1..] == ps[1..];
    } else {
      assert ps[i := p][1..] == ps[1..][i - 1 := p];
      PaidUpdate(ps[1..], i - 1, p);
    }
  }

  lemma {:induction false} PaidAppend(ps: seq<Payout>, p: Payout)
    requires !p.row.status.Paid?
    ensures PaidAmounts(ps + [p]) == PaidAmounts(ps)
  {
    if ps == [] {
      assert ps + [p] == [p] && [p][1..] == [];
      assert PaidAmounts([p]) == PaidAmount(p) + PaidAmounts([]);
    } else {
      assert (ps + [p])[1..] == ps[1..] + [p];
      PaidAppend(ps[1..], p);
    }
  }

  /** What escrow holds and what PAID payouts have taken from it. */
  function HeldAndPaid(w: World): int {
    Balance(w.ledger.rows, w.escrow) + PaidAmounts(w.payouts)
  }

  /** One payout gets a new row, and the tables a posting of which escrow sees `moved`. */
  lemma RowAndRows(w: World, w': World, i: nat, row: P.Row, t: nat, es: seq<Entry>, moved: int)
    requires i < |w.payouts| && w'.escrow == w.escrow
    requires w'.payouts == w.payouts[i := w.payouts[i].(row := row)]
    requires w'.ledger.rows == w.ledger.rows + Post(t, es) && Balance(Post(t, es), w.escrow) == moved
    ensures HeldAndPaid(w') == HeldAndPaid(w) + moved + PaidAmount(w.payouts[i].(row := row)) - PaidAmount(w.payouts[i])
  {
    PaidUpdate(w.payouts, i, w.payouts[i].(row := row));
    TotalAppend(OfAccount(w.escrow), w.ledger.rows, Post(t, es));
  }

  lemma RowOnly(w: World, w': World, i: nat, row: P.Row)
    requires i < |w.payouts| && w'.escrow == w.escrow && w'.ledger.rows == w.ledger.rows
    requires w'.payouts == w.payouts[i := w.payouts[i].(row := row)] && !row.status.Paid?
        && !w.payouts[i].row.status.Paid?
    ensures HeldAndPaid(w') == HeldAndPaid(w)
  {
    PaidUpdate(w.payouts, i, w.payouts[i].(row := row));
  }

  lemma AttemptBalances(w: World, i: nat, transfer: Option<nat>, id: nat)
    requires Inv(w)
    ensures HeldAndPaid(ProcessPayout(w, i, transfer, id).0) == HeldAndPaid(w)
    ensures ProcessPayout(w, i, transfer, id).0.escrow == w.escrow
  {
    var w' := ProcessPayout(w, i, transfer, id).0;
    if w' != w {
      var row := w'.payouts[i].row;
      assert w'.payouts == w.payouts[i := w.payouts[i].(row := row)];
      if row.status.Paid? {
        var terms := TermsOf(w, w.payouts[i]);
        ReleasePosts(terms, id, w.escrow);
        RowAndRows(w, w', i, row, id, ReleaseEntries(terms), -w.payouts[i].amount);
      } else {
        RowOnly(w, w', i, row);
      }
    }
  }

  lemma ForceBalances(w: World, i: nat, transfer: Option<nat>, id: nat)
    requires Inv(w)
    ensures HeldAndPaid(ForceRetry(w, i, transfer, id).0) == HeldAndPaid(w)
    ensures ForceRetry(w, i, transfer, id).0.escrow == w.escrow
  {
    if i < |w.payouts| && w.payouts[i].row.status.Failed? {
      var row := w.payouts[i].row.(attempts := 0);
      var reset := w.(payouts := w.payouts[i := w.payouts[i].(row := row)]);
      RowOnly(w, reset, i, row);
      PaidFeesUpdate(w.payouts, i, w.payouts[i].(row := row));
      AttemptBalances(reset, i, transfer, id);
    }
  }

  lemma ReversalBalances(w: World, i: nat, stripeOk: bool, id: nat)
    requires Inv(w)
    ensures HeldAndPaid(ReversePayout(w, i, stripeOk, id).0) == HeldAndPaid(w)
    ensures ReversePayout(w, i, stripeOk, id).0.escrow == w.escrow
  {
    var w' := ReversePayout(w, i, stripeOk, id).0;
    if w' != w {
      var terms := TermsOf(w, w.payouts[i]);
      ReleasePosts(terms, id, w.escrow);
      RowAndRows(w, w', i, w'.payouts[i].row, id, ReversalEntries(terms), w.payouts[i].amount);
    }
  }

  lemma CreateBalances(w: World, tx: nat, seller: nat, amount: int, percent: Option<real>)
    ensures HeldAndPaid(CreatePayout(w, tx, seller, amount, percent).0) == HeldAndPaid(w)
  {
    var w' := CreatePayout(w, tx, seller, amount, percent).0;
    if |w'.payouts| > |w.payouts| {
      PaidAppend(w.payouts, w'.payouts[|w.payouts|]);
    }
  }

  /**
   What a payment or refund posting moves into escrow; no other call of the payout
   service changes what is held and paid.
   */
  function Deposit(w: World, op: Op): int {
    if !op.Payment? && !op.Refund? then 0
    else Balance(Payouts.Apply(w, op).ledger.rows, w.escrow) - Balance(w.ledger.rows, w.escrow)
  }

  lemma OpBalances(w: World, op: Op)
    requires Inv(w)
    ensures HeldAndPaid(Payouts.Apply(w, op)) == HeldAndPaid(w) + Deposit(w, op)
    ensures Payouts.Apply(w, op).escrow == w.escrow
  {
    match op {
      case Create(tx, seller, amount, percent) => CreateBalances(w, tx, seller, amount, percent);
      case Process(i, transfer, id) => AttemptBalances(w, i, transfer, id);
      case Retry(i, transfer, id) => AttemptBalances(w, i, transfer, id);
      case Force(i, transfer, id) => ForceBalances(w, i, transfer, id);
      case Reverse(i, stripeOk, id) => ReversalBalances(w, i, stripeOk, id);
      case Against(i, stripeOk, id) => ReversalBalances(w, i, stripeOk, id);
      case Payment(_, _, _, _) =>
      case Refund(_, _, _) =>
      case _ => StatusBalances(w, op);
    }
  }

  lemma StatusBalances(w: World, op: Op)
    requires op.Gate? || op.Freeze? || op.Unfreeze?
    ensures HeldAndPaid(Payouts.Apply(w, op)) == HeldAndPaid(w) && Payouts.Apply(w, op).escrow == w.escrow
  {
    var w' := Payouts.Apply(w, op);
    if w' != w {
      RowOnly(w, w', op.i, w'.payouts[op.i].row);
    }
  }

  // ---- Disputes ----

  /** What a refund takes out of escrow: the disputed amount, unless the buyer is escrow itself or unknown. */
  function RefundDraw(w: World, dispute: Dispute): int {
    var buyer := Buyer(w, dispute.tx);
    if buyer.None? || buyer.value == w.escrow then 0 else dispute.amount
  }

  lemma RefundBalances(w: World, dispute: Dispute, id: nat)
    requires RefundBuyer(w, dispute, id).1.Done?
    ensures var w' := RefundBuyer(w, dispute, id).0;
      && w'.payouts == w.payouts && w'.sellers == w.sellers && w'.escrow == w.escrow && w'.platform == w.platform
      && w'.ledger.accounts == w.ledger.accounts
      && Balance(w'.ledger.rows, w.escrow) == Balance(w.ledger.rows, w.escrow) - RefundDraw(w, dispute)
  {
    var buyer := Buyer(w, dispute.tx);
    if buyer.Some? {
      var es := RefundEntries(w.escrow, buyer.value, dispute.amount);
      var r0, r1 := [Posted(id, es[0])], [Posted(id, es[1])];
      assert Post(id, es) == r0 + r1;
      TotalAppend(OfAccount(w.escrow), w.ledger.rows, Post(id, es));
      TotalAppend(OfAccount(w.escrow), r0, r1);
      assert r0[1..] == [] && r1[1..] == [];
    }
  }

  lemma RefundFailsClean(w: World, dispute: Dispute, id: nat)
    requires !RefundBuyer(w, dispute, id).1.Done?
    ensures RefundBuyer(w, dispute, id).0 == w
  {
  }

  /** What one call moves into escrow, apart from payouts. */
  function Moved(d: Desk, op: DeskOp): int {
    match op
    case Other(o) => Deposit(d.world, o)
    case GiveBack(k, stripeOk, id) =>
      if Act(d, op).1.Done? then -RefundDraw(TakeBack(d, k, stripeOk, id).0, d.disputes[k]) else 0
    case _ => 0
  }

  lemma TakeBackBalances(d: Desk, k: nat, stripeOk: bool, id: nat)
    requires Inv(d.world) && k < |d.disputes|
    ensures HeldAndPaid(TakeBack(d, k, stripeOk, id).0) == HeldAndPaid(d.world)
    ensures TakeBack(d, k, stripeOk, id).0.escrow == d.world.escrow
  {
    if Reverses(d, k) {
      OpBalances(d.world, Op.Against(Disputes.Against(d, k).value, stripeOk, id));
    }
  }

  lemma GiveBackBalances(d: Desk, k: nat, stripeOk: bool, id: nat)
    requires Inv(d.world)
    ensures var z := ResolveRefunded(d, k, stripeOk, id).0.world;
      HeldAndPaid(z) == HeldAndPaid(d.world) + Moved(d, GiveBack(k, stripeOk, id)) && z.escrow == d.world.escrow
  {
    if k < |d.disputes| && DisputeStates.Allowed(d.disputes[k].status, REFUNDED) {
      TakeBackBalances(d, k, stripeOk, id);
      var (w, reply) := TakeBack(d, k, stripeOk, id);
      var next := if Reverses(d, k) then id + 1 else id;
      if reply.Done? {
        if RefundBuyer(w, d.disputes[k], next).1.Done? {
          RefundBalances(w, d.disputes[k], next);
        } else {
          RefundFailsClean(w, d.disputes[k], next);
        }
      }
    }
  }

  lemma ActBalances(d: Desk, op: DeskOp)
    requires Inv(d.world)
    ensures HeldAndPaid(Act(d, op).0.world) == HeldAndPaid(d.world) + Moved(d, op)
    ensures Act(d, op).0.world.escrow == d.world.escrow
  {
    match op {
      case Other(o) => OpBalances(d.world, o);
      case Lose(k, stripeOk, id) =>
        if k < |d.disputes| { TakeBackBalances(d, k, stripeOk, id); }
      case GiveBack(k, stripeOk, id) => GiveBackBalances(d, k, stripeOk, id);
      case Open(tx, _) =>
        var found := FirstFrom(d.world.payouts, 0, Freezable(tx));
        if found.Some? { StatusBalances(d.world, Freeze(found.value)); }
      case Win(k) =>
        if k < |d.disputes| && d.disputes[k].payout.Some? {
          StatusBalances(d.world, Unfreeze(d.disputes[k].payout.value));
        }
      case Review(_) =>
    }
  }

  /** What a run moves into escrow, apart from payouts: payments in, refunds out. */
  function MovedOver(d: Desk, ops: seq<DeskOp>): int
    decreases |ops|
  {
    if ops == [] then 0 else Moved(d, ops[0]) + MovedOver(Act(d, ops[0]).0, ops[1..])
  }

  /**
   After any run, disputes included, escrow holds what was moved into it less the
   amounts of the payouts that are PAID: refunds and payouts of one transaction
   are taken separately, and only a reversal gives a payout back.
   */
  lemma {:induction false} EscrowExact(d: Desk, ops: seq<DeskOp>)
    requires DeskOk(d) && OthersApart(d, ops)
    ensures Disputes.Run(d, ops).world.escrow == d.world.escrow
    ensures HeldAndPaid(Disputes.Run(d, ops).world) == HeldAndPaid(d.world) + MovedOver(d, ops)
    decreases |ops|
  {
    if ops != [] {
      ActBalances(d, ops[0]);
      KeepDesk(d, ops[0]);
      assert forall i :: 0 <= i < |ops[1..]| ==> ops[1..][i] == ops[i + 1];
      EscrowExact(Act(d, ops[0]).0, ops[1..]);
    }
  }

  // ---- When one transaction draws twice ----

  /** What the gate asks, but for the payout's status. */
  predicate GatePasses(w: World, i: nat, decision: P.Decision)
    requires i < |w.payouts|
  {
    var s := w.payouts[i].seller;
    && s in w.sellers && w.sellers[s].payoutsEnabled && !w.sellers[s].payoutsBlocked
    && Balance(w.ledger.rows, w.sellers[s].account) >= 0 && !decision.Block?
  }

  /** What a first attempt asks after the gate. */
  predicate AttemptPasses(w: World, i: nat, transfer: Option<nat>)
    requires i < |w.payouts|
  {
    var s := w.payouts[i].seller;
    && s in w.sellers && w.sellers[s].hasStripe && !ClaimRefused(w, i)
    && Balance(w.ledger.rows, w.escrow) >= w.payouts[i].amount && transfer.Some? && Bookable(w, i)
  }

  lemma GateThenAttempt(w: World, i: nat, decision: P.Decision, transfer: Option<nat>, id: nat)
    requires i < |w.payouts| && w.payouts[i].row.status.Pending?
    ensures var z := ProcessPayout(MarkEligible(w, i, decision).0, i, transfer, id).0;
      |z.payouts| == |w.payouts| &&
      (z.payouts[i].row.status.Paid? <==> GatePasses(w, i, decision) && AttemptPasses(w, i, transfer))
  {
    var w' := MarkEligible(w, i, decision).0;
    if GatePasses(w, i, decision) {
      assert forall j :: 0 <= j < |w.payouts| && j != i ==> w'.payouts[j] == w.payouts[j];
      AttemptEndsPaidIff(w', i, transfer, id);
      assert ClaimRefused(w', i) <==> ClaimRefused(w, i);
      assert TransferMade(w', i, transfer) && Bookable(w', i) <==> AttemptPasses(w, i, transfer);
    }
  }

  /**
   A refund leaves the PENDING payout of its dispute as it is.  The transaction's
   seller is then paid as well, by one gate call and one attempt, exactly when the
   gate passes and escrow, less the refund, still covers the payout.
   */
  lemma RefundedAndPaidIff(
    d: Desk, k: nat, stripeOk: bool, id: nat, decision: P.Decision, transfer: Option<nat>, next: nat)
    requires k < |d.disputes| && d.disputes[k].payout.Some? && d.disputes[k].payout.value < |d.world.payouts|
    requires d.world.payouts[d.disputes[k].payout.value].row.status.Pending?
    requires ResolveRefunded(d, k, stripeOk, id).1.Done?
    ensures var i := d.disputes[k].payout.value; var w := ResolveRefunded(d, k, stripeOk, id).0.world;
      var z := ProcessPayout(MarkEligible(w, i, decision).0, i, transfer, next).0;
      && w.payouts == d.world.payouts && w.sellers == d.world.sellers && w.escrow == d.world.escrow
      && Balance(w.ledger.rows, w.escrow) == Balance(d.world.ledger.rows, w.escrow) - RefundDraw(d.world, d.disputes[k])
      && |z.payouts| == |w.payouts|
      && (z.payouts[i].row.status.Paid? <==> GatePasses(w, i, decision) && AttemptPasses(w, i, transfer))
  {
    var i := d.disputes[k].payout.value;
    assert !Reverses(d, k);
    RefundBalances(d.world, d.disputes[k], id);
    GateThenAttempt(ResolveRefunded(d, k, stripeOk, id).0.world, i, decision, transfer, next);
  }

  /**
   Two disputes of one transaction, neither with a PAID payout to take back: both
   buyers' claims are refunded exactly when escrow covers the two amounts together.
   */
  lemma RefundedTwiceIff(d: Desk, k: nat, m: nat, ok: bool, id: nat, next: nat)
    requires Inv(d.world) && LedgerProtocol.GoodLedger(d.world.ledger)
    requires k < |d.disputes| && m < |d.disputes| && k != m && d.disputes[k].tx == d.disputes[m].tx
    requires d.disputes[k].status == UNDER_REVIEW == d.disputes[m].status && !Reverses(d, k) && !Reverses(d, m)
    requires Buyer(d.world, d.disputes[k].tx).Some? && Buyer(d.world, d.disputes[k].tx).value != d.world.escrow
    requires d.disputes[k].amount >= 0 && d.disputes[m].amount >= 0
    ensures var w := d.world; var d' := ResolveRefunded(d, k, ok, id).0;
      ResolveRefunded(d, k, ok, id).1.Done? && ResolveRefunded(d', m, ok, next).1.Done? <==>
        w.ledger.accounts[w.escrow] || Balance(w.ledger.rows, w.escrow) >= d.disputes[k].amount + d.disputes[m].amount
  {
    var w, tx := d.world, d.disputes[k].tx;
    FirstDebitKnown(w.ledger.rows, tx);
    RefundAnswer(w, Buyer(w, tx).value, d.disputes[k].amount, id);
    var d' := ResolveRefunded(d, k, ok, id).0;
    if ResolveRefunded(d, k, ok, id).1.Done? {
      RefundBalances(w, d.disputes[k], id);
      RefundKeepsBuyer(w, d.disputes[k], id);
      assert d'.disputes[m] == d.disputes[m] && !Reverses(d', m);
      RefundAnswer(d'.world, Buyer(w, tx).value, d.disputes[m].amount, next);
    }
  }

  lemma RefundKeepsBuyer(w: World, dispute: Dispute, id: nat)
    requires RefundBuyer(w, dispute, id).1.Done? && Buyer(w, dispute.tx).Some?
    ensures Buyer(RefundBuyer(w, dispute, id).0, dispute.tx) == Buyer(w, dispute.tx)
  {
    var es := RefundEntries(w.escrow, Buyer(w, dispute.tx).value, dispute.amount);
    FirstDebitAppend(w.ledger.rows, Post(id, es), dispute.tx);
  }
}
