/**
 What each call of the dispute service answers and leaves behind, on statuses,
 balances and flags: one lemma a call.
 */
module DisputeOutcomes {
  import opened Wrappers
  import opened Ledger
  import opened Payouts
  import opened DisputeStates
  import opened Disputes
  import opened PayoutOutcomes
  import LedgerProtocol
  import P = PayoutMachine

  /** Dispute k has the given status now; the other disputes, and the rest of this one, are as before. */
  predicate OnlyStatus(d: Desk, d': Desk, k: nat, status: Status) {
    k < |d.disputes| && d'.disputes == d.disputes[k := d.disputes[k].(status := status)]
  }

  // ---- openDispute, startReview, resolveWon ----

  predicate StillOpen(p: Payout, tx: nat) {
    p.tx == tx && (p.row.status.Pending? || p.row.status.Eligible?)
  }

  /** The dispute names the first payout that can still be frozen, and that payout is PENDING afterwards. */
  lemma OpenOutcome(d: Desk, tx: nat, amount: int)
    ensures var (d', reply) := Act(d, Open(tx, amount));
      && (reply.Done? <==> tx in d.world.ledger.txs)
      && (!reply.Done? ==> d' == d && reply == NotFound)
      && (reply.Done? ==>
            && |d'.disputes| == |d.disputes| + 1 && d'.disputes[..|d.disputes|] == d.disputes
            && var added := d'.disputes[|d.disputes|];
               && added.tx == tx && added.amount == amount && added.status == OPEN
               && (added.payout.None? ==>
                     d'.world == d.world && forall i :: 0 <= i < |d.world.payouts| ==>
                         !StillOpen(d.world.payouts[i], tx))
               && (added.payout.Some? ==>
                     var i := added.payout.value;
                     && i < |d.world.payouts| && StillOpen(d.world.payouts[i], tx)
                     && (forall j :: 0 <= j < i ==> !StillOpen(d.world.payouts[j], tx))
                     && OnlyRow(d.world, d'.world, i, d.world.payouts[i].row.(status := P.Pending))
                     && d'.world == d.world.(payouts := d'.world.payouts)))
  {
    FirstIsFirst(d.world.payouts, 0, Freezable(tx));
    assert forall p :: Meets(p, Freezable(tx)) <==> StillOpen(p, tx);
  }

  lemma {:induction false} FirstIsFirst(ps: seq<Payout>, i: nat, want: Want)
    requires i <= |ps|
    ensures var r := FirstFrom(ps, i, want);
      r.Some? ==> i <= r.value < |ps| && forall j :: i <= j < r.value ==> !Meets(ps[j], want)
    decreases |ps| - i
  {
    if i < |ps| && !Meets(ps[i], want) {
      FirstIsFirst(ps, i + 1, want);
    }
  }

  lemma ReviewOutcome(d: Desk, k: nat)
    requires k < |d.disputes|
    ensures var (d', reply) := Act(d, Review(k));
      && d'.world == d.world
      && (d.disputes[k].status == OPEN ==> reply == Done && OnlyStatus(d, d', k, UNDER_REVIEW))
      && (d.disputes[k].status != OPEN ==> reply == BadRequest && d' == d)
  {
  }

  /** Winning makes the attached payout ELIGIBLE if it is PENDING, and touches nothing else. */
  lemma WinOutcome(d: Desk, k: nat)
    requires k < |d.disputes|
    ensures var (d', reply) := Act(d, Win(k)); var p := d.disputes[k].payout;
      && (d.disputes[k].status != UNDER_REVIEW ==> reply == BadRequest && d' == d)
      && (d.disputes[k].status == UNDER_REVIEW ==>
            && reply == Done && OnlyStatus(d, d', k, WON)
            && (if p.Some? && p.value < |d.world.payouts| && d.world.payouts[p.value].row.status.Pending?
                then OnlyRow(d.world, d'.world, p.value, d.world.payouts[p.value].row.(status := P.Eligible))
                     && d'.world == d.world.(payouts := d'.world.payouts)
                else d'.world == d.world))
  {
  }

  // ---- resolveLost and resolveRefunded ----

  /** Payout i is what a decision against the seller takes back: the attached one, or with none the first PAID one. */
  predicate Target(d: Desk, k: nat, i: nat) {
    && k < |d.disputes| && i < |d.world.payouts|
    && var p := d.disputes[k].payout;
       if p.Some? && p.value < |d.world.payouts| then p.value == i
       else d.world.payouts[i].tx == d.disputes[k].tx && d.world.payouts[i].row.status.Paid?
            && forall j :: 0 <= j < i && d.world.payouts[j].tx == d.disputes[k].tx ==>
                !d.world.payouts[j].row.status.Paid?
  }

  /** Nothing to take back: the attached payout is not PAID, or none is attached and none of the transaction is PAID. */
  predicate NothingPaid(d: Desk, k: nat)
    requires k < |d.disputes|
  {
    var p := d.disputes[k].payout;
    if p.Some? && p.value < |d.world.payouts| then !d.world.payouts[p.value].row.status.Paid?
    else forall j :: 0 <= j < |d.world.payouts| && d.world.payouts[j].tx == d.disputes[k].tx ==>
           !d.world.payouts[j].row.status.Paid?
  }

  /**
   Payout i is taken back: REVERSED, its split moved back, and its seller blocked if
   that leaves a negative balance.
   */
  ghost predicate TakenFrom(w: World, w': World, i: nat) {
    && i < |w.payouts| && w.payouts[i].seller in w.sellers
    && OnlyRow(w, w', i, w.payouts[i].row.(status := P.Reversed))
    && w' == w.(payouts := w'.payouts, ledger := w'.ledger, sellers := w'.sellers)
    && SplitMoved(w.ledger, w'.ledger, w, w.payouts[i], -1) && OthersKept(w.ledger, w'.ledger, w, w.payouts[i])
    && SellerChecked(w, w', w.payouts[i].seller)
  }

  /**
   Seller s is blocked exactly when already blocked or now negative, with the
   shortfall recorded; other sellers stay.
   */
  ghost predicate SellerChecked(w: World, w': World, s: nat)
    requires s in w.sellers
  {
    && s in w'.sellers && w'.sellers == w.sellers[s := w'.sellers[s]]
    && var before, after := w.sellers[s], w'.sellers[s];
       var balance := Balance(w'.ledger.rows, before.account);
       && (after.payoutsBlocked <==> before.payoutsBlocked || balance < 0)
       && after.negativeBalance == (if balance < 0 then -balance else before.negativeBalance)
       && after == before.(payoutsBlocked := after.payoutsBlocked, negativeBalance := after.negativeBalance)
  }

  lemma TargetIsAgainst(d: Desk, k: nat, i: nat)
    requires Target(d, k, i)
    ensures Disputes.Against(d, k) == Some(i)
  {
    FirstIsFirst(d.world.payouts, 0, PaidFor(d.disputes[k].tx));
    assert Meets(d.world.payouts[i], PaidFor(d.disputes[k].tx)) || d.disputes[k].payout == Some(i);
  }

  /** The reversal and the balance check, from the payout's side. */
  lemma TakeBackOutcome(d: Desk, k: nat, i: nat, stripeOk: bool, id: nat)
    requires Inv(d.world) && Target(d, k, i) && d.world.payouts[i].row.status.Paid?
    ensures var (w', reply) := TakeBack(d, k, stripeOk, id);
      && (reply.Done? <==> d.world.payouts[i].row.transferId.None? || stripeOk)
      && (reply.Done? ==> TakenFrom(d.world, w', i))
      && (!reply.Done? ==> w' == d.world && reply == StripeFailed)
  {
    TargetIsAgainst(d, k, i);
    ReversalOutcome(d.world, i, stripeOk, id);
  }

  lemma NothingTaken(d: Desk, k: nat, stripeOk: bool, id: nat)
    requires k < |d.disputes| && NothingPaid(d, k)
    ensures TakeBack(d, k, stripeOk, id) == (d.world, Done)
  {
    assert !Reverses(d, k);
  }

  /**
   Losing a dispute takes back the payout it concerns when that is PAID and Stripe
   agrees, changes nothing when Stripe refuses, and otherwise only closes it.
   */
  lemma LoseOutcome(d: Desk, k: nat, i: nat, stripeOk: bool, id: nat)
    requires DeskOk(d) && k < |d.disputes| && d.disputes[k].status == UNDER_REVIEW
    ensures var (d', reply) := Act(d, Lose(k, stripeOk, id));
      && (Target(d, k, i) && d.world.payouts[i].row.status.Paid? ==>
            if d.world.payouts[i].row.transferId.None? || stripeOk
            then reply == Done && OnlyStatus(d, d', k, LOST) && TakenFrom(d.world, d'.world, i)
            else reply == StripeFailed && d' == d)
      && (NothingPaid(d, k) ==> reply == Done && OnlyStatus(d, d', k, LOST) && d'.world == d.world)
  {
    if Target(d, k, i) && d.world.payouts[i].row.status.Paid? {
      TakeBackOutcome(d, k, i, stripeOk, id);
    } else if NothingPaid(d, k) {
      NothingTaken(d, k, stripeOk, id);
    }
  }

  /** A decision on a dispute that is not under review is refused. */
  lemma DecisionRefused(d: Desk, k: nat, stripeOk: bool, id: nat)
    requires k < |d.disputes| && d.disputes[k].status != UNDER_REVIEW
    ensures Act(d, Lose(k, stripeOk, id)) == (d, BadRequest) == Act(d, GiveBack(k, stripeOk, id))
  {
  }

  /** One of the two holds: there is a payout to take back, or nothing is PAID. */
  lemma TargetOrNothing(d: Desk, k: nat) returns (i: nat)
    requires k < |d.disputes|
    ensures (Target(d, k, i) && d.world.payouts[i].row.status.Paid?) || NothingPaid(d, k)
  {
    FirstIsFirst(d.world.payouts, 0, PaidFor(d.disputes[k].tx));
    i := if Disputes.Against(d, k).Some? then Disputes.Against(d, k).value else 0;
    assert forall j :: 0 <= j < |d.world.payouts| ==>
      (Meets(d.world.payouts[j], PaidFor(d.disputes[k].tx)) <==>
       d.world.payouts[j].tx == d.disputes[k].tx && d.world.payouts[j].row.status.Paid?);
  }

  /** What a refund leaves when it goes through: the buyer up by the amount, escrow down by it, nothing else touched. */
  ghost predicate Refunded(w: World, w': World, buyer: int, amount: int) {
    && w' == w.(ledger := w'.ledger) && w'.ledger.accounts == w.ledger.accounts
    && forall a :: Balance(w'.ledger.rows, a) == Balance(w.ledger.rows, a)
         + (if a == buyer then amount else 0) - (if a == w.escrow then amount else 0)
  }

  lemma RefundMoves(w: World, dispute: Dispute, id: nat)
    requires RefundBuyer(w, dispute, id).1.Done? && Buyer(w, dispute.tx).Some?
    ensures Refunded(w, RefundBuyer(w, dispute, id).0, Buyer(w, dispute.tx).value, dispute.amount)
  {
    var es := RefundEntries(w.escrow, Buyer(w, dispute.tx).value, dispute.amount);
    var w' := RefundBuyer(w, dispute, id).0;
    forall a ensures Balance(w'.ledger.rows, a) == Balance(w.ledger.rows, a)
      + (if a == es[1].account then dispute.amount else 0) - (if a == w.escrow then dispute.amount else 0)
    {
      var r0, r1 := [Posted(id, es[0])], [Posted(id, es[1])];
      assert Post(id, es) == r0 + r1;
      TotalAppend(OfAccount(a), w.ledger.rows, Post(id, es));
      TotalAppend(OfAccount(a), r0, r1);
      assert r0[1..] == [] && r1[1..] == [];
    }
  }

  /** Row i is the transaction's earliest DEBIT row. */
  ghost predicate FirstDebitAt(rows: seq<Posted>, tx: nat, i: int) {
    && 0 <= i < |rows| && rows[i].tx == tx && rows[i].entry.side == Debit
    && forall j :: 0 <= j < i ==> rows[j].tx != tx || rows[j].entry.side != Debit
  }

  /** The account of the transaction's earliest DEBIT row. */
  ghost predicate IsBuyer(w: World, tx: nat, a: int) {
    tx in w.ledger.txs && exists i :: FirstDebitAt(w.ledger.rows, tx, i) && w.ledger.rows[i].entry.account == a
  }

  lemma {:induction false} FirstDebitIs(rows: seq<Posted>, tx: nat) returns (i: nat)
    requires FirstDebit(rows, tx).Some?
    ensures FirstDebitAt(rows, tx, i) && rows[i].entry.account == FirstDebit(rows, tx).value
  {
    if rows[0].tx == tx && rows[0].entry.side.Debit? {
      i := 0;
    } else {
      var k := FirstDebitIs(rows[1..], tx);
      i := k + 1;
      assert forall j :: 0 < j < i ==> rows[j] == rows[1..][j - 1];
    }
  }

  lemma BuyerIs(w: World, tx: nat)
    requires Buyer(w, tx).Some?
    ensures IsBuyer(w, tx, Buyer(w, tx).value)
  {
    var i := FirstDebitIs(w.ledger.rows, tx);
  }

  /** `w` is the world after the reversal, if there is one, and `w'` the world after the refund, if there is a buyer. */
  ghost predicate GivenBack(d: Desk, w: World, w': World, k: nat, i: nat)
    requires k < |d.disputes|
  {
    && (if NothingPaid(d, k) then w == d.world else TakenFrom(d.world, w, i))
    && var dispute := d.disputes[k];
       if NoBuyer(w, dispute.tx) then w' == w
       else exists a :: IsBuyer(w, dispute.tx, a) && Refunded(w, w', a, dispute.amount)
  }

  /** The transaction is gone or has no DEBIT row. */
  ghost predicate NoBuyer(w: World, tx: nat) {
    tx !in w.ledger.txs ||
    forall j :: 0 <= j < |w.ledger.rows| && w.ledger.rows[j].tx == tx ==> w.ledger.rows[j].entry.side != Debit
  }

  lemma {:induction false} NoFirstDebit(rows: seq<Posted>, tx: nat)
    ensures FirstDebit(rows, tx).None? <==>
            forall j :: 0 <= j < |rows| && rows[j].tx == tx ==> rows[j].entry.side != Debit
  {
    if rows != [] {
      NoFirstDebit(rows[1..], tx);
      assert forall j :: 0 < j < |rows| ==> rows[j] == rows[1..][j - 1];
      assert forall j :: 0 <= j < |rows[1..]| ==> rows[1..][j] == rows[j + 1];
    }
  }

  /**
   Deciding for the buyer: whatever is PAID is taken back first, as in a loss; then
   escrow pays the disputed amount to the buyer of the transaction, and only then
   is the dispute REFUNDED.
   */
  lemma GiveBackOutcome(d: Desk, k: nat, i: nat, stripeOk: bool, id: nat)
    requires DeskOk(d) && k < |d.disputes| && d.disputes[k].status == UNDER_REVIEW
    requires (Target(d, k, i) && d.world.payouts[i].row.status.Paid?) || NothingPaid(d, k)
    ensures var (d', reply) := Act(d, GiveBack(k, stripeOk, id)); var dispute := d.disputes[k];
      && (reply.Done? <==> d'.disputes[k].status == REFUNDED)
      && (!reply.Done? ==> d'.disputes == d.disputes)
      && (reply.Done? ==> OnlyStatus(d, d', k, REFUNDED) && exists w: World :: GivenBack(d, w, d'.world, k, i))
  {
    var w, taken := TakeBack(d, k, stripeOk, id).0, TakeBack(d, k, stripeOk, id).1;
    if NothingPaid(d, k) {
      NothingTaken(d, k, stripeOk, id);
    } else {
      TakeBackOutcome(d, k, i, stripeOk, id);
    }
    if Act(d, GiveBack(k, stripeOk, id)).1.Done? {
      var next := if Reverses(d, k) then id + 1 else id;
      NoFirstDebit(w.ledger.rows, d.disputes[k].tx);
      if Buyer(w, d.disputes[k].tx).Some? {
        BuyerIs(w, d.disputes[k].tx);
        RefundMoves(w, d.disputes[k], next);
      }
      assert GivenBack(d, w, Act(d, GiveBack(k, stripeOk, id)).0.world, k, i);
    }
  }

  /** With nothing to take back, a refund goes through exactly when there is no buyer or escrow covers the amount. */
  lemma UnpaidRefundIff(d: Desk, k: nat, stripeOk: bool, id: nat)
    requires DeskOk(d) && LedgerProtocol.GoodLedger(d.world.ledger)
    requires k < |d.disputes| && d.disputes[k].status == UNDER_REVIEW && NothingPaid(d, k)
    ensures var w := d.world; var amount := d.disputes[k].amount;
      Act(d, GiveBack(k, stripeOk, id)).1.Done? <==>
        NoBuyer(w, d.disputes[k].tx) ||
        (amount >= 0 && (w.ledger.accounts[w.escrow] || Balance(w.ledger.rows, w.escrow) >= amount))
  {
    var w, tx := d.world, d.disputes[k].tx;
    NothingTaken(d, k, stripeOk, id);
    NoFirstDebit(w.ledger.rows, tx);
    if Buyer(w, tx).Some? {
      FirstDebitKnown(w.ledger.rows, tx);
      RefundAnswer(w, Buyer(w, tx).value, d.disputes[k].amount, if Reverses(d, k) then id + 1 else id);
    }
  }

  /** A call for a dispute that does not exist changes nothing. */
  lemma UnknownDispute(d: Desk, k: nat, stripeOk: bool, id: nat)
    requires k >= |d.disputes|
    ensures Act(d, Review(k)) == (d, NotFound) == Act(d, Win(k))
    ensures Act(d, Lose(k, stripeOk, id)) == (d, NotFound) == Act(d, GiveBack(k, stripeOk, id))
  {
  }
}
