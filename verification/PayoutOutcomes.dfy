/**
 What each call of the payout service answers and leaves behind, on rows,
 balances and flags: one lemma a call, in the terms of what the caller knows.
 */
module PayoutOutcomes {
  import opened Wrappers
  import opened Ledger
  import opened Money
  import opened Payouts
  import opened PayoutBooking
  import P = PayoutMachine

  // ---- createPayout ----

  /** f whole cents are what the percentage of the amount rounds to, in hundredths of a cent. */
  predicate IsFee(f: int, amount: int, percent: real) {
    -0.5 < 100.0 * f as real - amount as real * percent <= 0.5
  }

  lemma RoundIsUnique(x: real, n: int)
    requires -0.5 < n as real - x <= 0.5
    ensures Round(x) == n
  {
    RoundNear(x);
    var d := Round(x) - n;
    assert -1.0 < d as real < 1.0;
  }

  lemma Hundredfold(f: int)
    ensures (100 * f) as real == 100.0 * f as real
  {
  }

  /** A fee can be stored exactly when a whole number of cents is near enough, and it is that number. */
  lemma StoredIff(amount: int, percent: real)
    ensures StoredFee(amount, percent).Some? <==> exists f :: IsFee(f, amount, percent)
    ensures StoredFee(amount, percent).Some? ==>
            var (fee, part) := StoredFee(amount, percent).value; IsFee(fee, amount, percent) && part == amount - fee
  {
    var x := amount as real * percent;
    var n := CalculateFee(amount, percent).fee;
    RoundNear(x);
    if n % 100 == 0 {
      Hundredfold(n / 100);
      assert IsFee(n / 100, amount, percent);
    }
    if f :| IsFee(f, amount, percent) {
      Hundredfold(f);
      RoundIsUnique(x, 100 * f);
    }
  }

  /** The percentage used: 5 for an absent or zero one. */
  predicate Uses(percent: Option<real>, p: real) {
    if percent.Some? && percent.value != 0.0 then p == percent.value else p == 5.0
  }

  /** No payout of the transaction is PENDING, ELIGIBLE, PROCESSING or PAID. */
  predicate NoneActive(w: World, tx: nat) {
    forall i :: 0 <= i < |w.payouts| && w.payouts[i].tx == tx ==>
      w.payouts[i].row.status.Failed? || w.payouts[i].row.status.Reversed?
  }

  /** createPayout: when it succeeds, and the one row it adds. */
  lemma CreateOutcome(w: World, tx: nat, seller: nat, amount: int, percent: Option<real>, p: real)
    requires Uses(percent, p)
    ensures var (w', reply) := CreatePayout(w, tx, seller, amount, percent);
      && (reply.Done? <==>
            && amount >= 0 && NoneActive(w, tx) && seller in w.sellers
            && tx in w.ledger.txs && w.ledger.txs[tx].status.Completed?
            && exists f :: IsFee(f, amount, p))
      && (!reply.Done? ==> w' == w && (reply == NotFound <==> amount >= 0 && NoneActive(w, tx) && seller !in w.sellers)
                           && (reply != NotFound ==> reply == BadRequest))
      && (reply.Done? ==>
            && |w'.payouts| == |w.payouts| + 1 && w'.payouts[..|w.payouts|] == w.payouts
            && w' == w.(payouts := w'.payouts)
            && var row := w'.payouts[|w.payouts|];
               && row.row == P.Row(P.Pending, 0, 3, None)
               && row.amount == amount && row.tx == tx && row.seller == seller
               && IsFee(row.fee, amount, p) && row.sellerAmount == amount - row.fee)
  {
    StoredIff(amount, p);
    assert NoneActive(w, tx) <==> !exists i :: 0 <= i < |w.payouts| && Blocks(w.payouts[i], tx) by {
      if !NoneActive(w, tx) {
        var i :| 0 <= i < |w.payouts| && w.payouts[i].tx == tx
                 && !w.payouts[i].row.status.Failed? && !w.payouts[i].row.status.Reversed?;
        assert Blocks(w.payouts[i], tx);
      }
    }
  }

  // ---- markEligible ----

  /** Only payout i changed, and only its row. */
  predicate OnlyRow(w: World, w': World, i: nat, row: P.Row) {
    i < |w.payouts| && w'.payouts == w.payouts[i := w.payouts[i].(row := row)]
  }

  lemma GateOutcome(w: World, i: nat, decision: P.Decision)
    requires i < |w.payouts|
    ensures var (w', reply) := MarkEligible(w, i, decision); var s := w.payouts[i].seller;
      && (reply.Done? <==>
            && w.payouts[i].row.status.Pending?
            && s in w.sellers && w.sellers[s].payoutsEnabled && !w.sellers[s].payoutsBlocked
            && Balance(w.ledger.rows, w.sellers[s].account) >= 0 && decision != P.Block)
      && (reply.Done? ==> w' == w.(payouts := w'.payouts)
                          && OnlyRow(w, w', i, w.payouts[i].row.(status := P.Eligible)))
      && (!reply.Done? ==> w' == w)
      && (reply == BadRequest <==>
            !w.payouts[i].row.status.Pending? || s !in w.sellers || !w.sellers[s].payoutsEnabled)
      && (reply == SellerBlocked <==>
            && w.payouts[i].row.status.Pending? && s in w.sellers && w.sellers[s].payoutsEnabled
            && (w.sellers[s].payoutsBlocked || Balance(w.ledger.rows, w.sellers[s].account) < 0))
      && (reply == FraudBlocked <==>
            && w.payouts[i].row.status.Pending? && s in w.sellers && w.sellers[s].payoutsEnabled
            && !w.sellers[s].payoutsBlocked && Balance(w.ledger.rows, w.sellers[s].account) >= 0
            && decision == P.Block)
  {
  }

  // ---- processPayout, retryPayout, forceRetry ----

  /** The payout can be processed and its seller has a Stripe account. */
  predicate Startable(w: World, i: nat) {
    && i < |w.payouts| && (w.payouts[i].row.status.Eligible? || w.payouts[i].row.status.Failed?)
    && w.payouts[i].seller in w.sellers && w.sellers[w.payouts[i].seller].hasStripe
  }

  /** And no other payout of its transaction is in the index, so the claim goes through. */
  predicate Claimed(w: World, i: nat) {
    && Startable(w, i)
    && !exists j :: 0 <= j < |w.payouts| && j != i && w.payouts[j].tx == w.payouts[i].tx
                    && (w.payouts[j].row.status.Pending? || w.payouts[j].row.status.Eligible?
                        || w.payouts[j].row.status.Processing?)
  }

  /** What the ledger needs to book a payout whose amount escrow covers. */
  predicate SplitBookable(w: World, p: Payout) {
    && p.amount >= 0 && p.fee >= 0 && p.sellerAmount >= 0 && p.fee + p.sellerAmount == p.amount
    && w.escrow in w.ledger.accounts && w.platform in w.ledger.accounts
    && p.seller in w.sellers && w.sellers[p.seller].account in w.ledger.accounts
  }

  /** Every balance moves by the payout's split, times `sign`; the accounts stay. */
  predicate SplitMoved(l: Tables, l': Tables, w: World, p: Payout, sign: int)
    requires p.seller in w.sellers
  {
    var seller := w.sellers[p.seller].account;
    && l'.accounts == l.accounts
    && Balance(l'.rows, w.escrow) == Balance(l.rows, w.escrow) - sign * p.amount
    && Balance(l'.rows, seller) == Balance(l.rows, seller) + sign * p.sellerAmount
    && Balance(l'.rows, w.platform) == Balance(l.rows, w.platform) + sign * p.fee
  }

  ghost predicate OthersKept(l: Tables, l': Tables, w: World, p: Payout)
    requires p.seller in w.sellers
  {
    forall a :: a != w.escrow && a != w.platform && a != w.sellers[p.seller].account ==>
      Balance(l'.rows, a) == Balance(l.rows, a)
  }

  lemma ReleaseMoves(w: World, p: Payout, id: nat, l': Tables)
    requires AccountsSetUp(w) && p.seller in w.sellers && AtomicRelease(w.ledger, TermsOf(w, p), id) == Ok(l')
    ensures SplitMoved(w.ledger, l', w, p, 1) && OthersKept(w.ledger, l', w, p)
  {
    var terms := TermsOf(w, p);
    forall a ensures Balance(l'.rows, a) == Balance(w.ledger.rows, a) + Effect(terms, a) {
      TotalAppend(OfAccount(a), w.ledger.rows, Post(id, ReleaseEntries(terms)));
      ReleasePosts(terms, id, a);
    }
  }

  lemma ReversalMoves(w: World, p: Payout, id: nat, l': Tables)
    requires AccountsSetUp(w) && p.seller in w.sellers && AtomicReversal(w.ledger, TermsOf(w, p), id) == Ok(l')
    ensures SplitMoved(w.ledger, l', w, p, -1) && OthersKept(w.ledger, l', w, p)
  {
    var terms := TermsOf(w, p);
    forall a ensures Balance(l'.rows, a) == Balance(w.ledger.rows, a) - Effect(terms, a) {
      TotalAppend(OfAccount(a), w.ledger.rows, Post(id, ReversalEntries(terms)));
      ReleasePosts(terms, id, a);
    }
  }

  /** A call that claims nothing changes nothing. */
  lemma UnclaimedOutcome(w: World, i: nat, transfer: Option<nat>, id: nat)
    requires !Claimed(w, i)
    ensures var (w', reply) := ProcessPayout(w, i, transfer, id);
      && w' == w
      && (reply == NotFound <==> i >= |w.payouts|)
      && (reply == Conflict <==> Startable(w, i))
      && (reply == BadRequest <==> i < |w.payouts| && !Startable(w, i))
  {
    assert i < |w.payouts| && Startable(w, i) ==> ClaimRefused(w, i);
  }

  /** The row a claim leaves: one more attempt, and the transfer's id once there is one. */
  predicate AttemptRow(old_: P.Row, row: P.Row, status: P.Status, transferId: Option<nat>) {
    row == P.Row(status, old_.attempts + 1, old_.maxAttempts, transferId)
  }

  /** processPayout after its claim: each answer, when it is given, and what it leaves. */
  lemma ClaimedOutcome(w: World, i: nat, transfer: Option<nat>, id: nat)
    requires AccountsSetUp(w) && Claimed(w, i)
    ensures var (w', reply) := ProcessPayout(w, i, transfer, id); var p := w.payouts[i];
      var funded := Balance(w.ledger.rows, w.escrow) >= p.amount;
      && i < |w'.payouts| && OnlyRow(w, w', i, w'.payouts[i].row)
      && w' == w.(payouts := w'.payouts, ledger := w'.ledger)
      && (reply == InsufficientEscrow <==> !funded)
      && (reply == StripeFailed <==> funded && transfer.None?)
      && (reply.LedgerFailed? <==> funded && transfer.Some? && !SplitBookable(w, p))
      && (reply.Done? <==> funded && transfer.Some? && SplitBookable(w, p))
      && (!reply.Done? ==> w'.ledger == w.ledger && AttemptRow(p.row, w'.payouts[i].row, P.Failed,
            if reply.LedgerFailed? then transfer else p.row.transferId))
      && (reply.Done? ==>
            && AttemptRow(p.row, w'.payouts[i].row, P.Paid, transfer)
            && SplitMoved(w.ledger, w'.ledger, w, p, 1) && OthersKept(w.ledger, w'.ledger, w, p))
  {
    var p := w.payouts[i];
    assert !ClaimRefused(w, i);
    ReleaseAnswer(w.ledger, TermsOf(w, p), id);
    if AtomicRelease(w.ledger, TermsOf(w, p), id).Ok? {
      ReleaseMoves(w, p, id, AtomicRelease(w.ledger, TermsOf(w, p), id).value);
    }
  }

  /** retryPayout is processPayout below the limit and refuses at it. */
  lemma RetryOutcome(w: World, i: nat, transfer: Option<nat>, id: nat)
    requires i < |w.payouts|
    ensures RetryPayout(w, i, transfer, id) ==
      if w.payouts[i].row.attempts < w.payouts[i].row.maxAttempts then ProcessPayout(w, i, transfer, id)
      else (w, BadRequest)
  {
  }

  /**
   forceRetry processes a FAILED payout as if it had never been tried: whatever its
   attempts were, the next is the first.
   */
  lemma ForceOutcome(w: World, i: nat, transfer: Option<nat>, id: nat)
    requires AccountsSetUp(w) && i < |w.payouts|
    ensures var (w', reply) := ForceRetry(w, i, transfer, id); var p := w.payouts[i];
      && (!p.row.status.Failed? ==> w' == w && reply == BadRequest)
      && (p.row.status.Failed? ==>
            && OnlyRow(w, w', i, w'.payouts[i].row)
            && w'.payouts[i].row.attempts == (if Claimed(w, i) then 1 else 0)
            && (!Claimed(w, i) ==> w'.payouts[i].row == p.row.(attempts := 0) && w'.ledger == w.ledger)
            && (w'.payouts[i].row.status.Paid? <==>
                  && Claimed(w, i) && Balance(w.ledger.rows, w.escrow) >= p.amount
                  && transfer.Some? && SplitBookable(w, p)))
  {
    if w.payouts[i].row.status.Failed? {
      var reset := w.(payouts := w.payouts[i := w.payouts[i].(row := w.payouts[i].row.(attempts := 0))]);
      ClaimedAlike(w, reset, i);
      if Claimed(w, i) {
        ClaimedOutcome(reset, i, transfer, id);
      } else {
        UnclaimedOutcome(reset, i, transfer, id);
      }
    }
  }

  lemma ClaimedAlike(w: World, w': World, i: nat)
    requires i < |w.payouts| && w'.sellers == w.sellers
    requires exists n: nat :: w'.payouts == w.payouts[i := w.payouts[i].(row := w.payouts[i].row.(attempts := n))]
    ensures Claimed(w', i) <==> Claimed(w, i)
  {
    assert forall j :: 0 <= j < |w.payouts| && j != i ==> w'.payouts[j] == w.payouts[j];
  }

  // ---- reversePayout ----

  /** reversePayout of a PAID payout: refused by Stripe, or the payout is REVERSED and its split moved back. */
  lemma ReversalOutcome(w: World, i: nat, stripeOk: bool, id: nat)
    requires Inv(w) && i < |w.payouts|
    ensures var (w', reply) := ReversePayout(w, i, stripeOk, id); var p := w.payouts[i];
      && (reply.Done? <==> p.row.status.Paid? && (p.row.transferId.None? || stripeOk))
      && (reply == StripeFailed <==> p.row.status.Paid? && p.row.transferId.Some? && !stripeOk)
      && (reply == BadRequest <==> !p.row.status.Paid?)
      && (!reply.Done? ==> w' == w)
      && (reply.Done? ==>
            && OnlyRow(w, w', i, p.row.(status := P.Reversed))
            && w' == w.(payouts := w'.payouts, ledger := w'.ledger)
            && SplitMoved(w.ledger, w'.ledger, w, p, -1) && OthersKept(w.ledger, w'.ledger, w, p))
  {
    if w.payouts[i].row.status.Paid? {
      ReversalFunded(w, i, id);
      ReversalMoves(w, w.payouts[i], id, AtomicReversal(w.ledger, TermsOf(w, w.payouts[i]), id).value);
    }
  }

  /** A call for a payout that does not exist changes nothing. */
  lemma UnknownPayout(w: World, i: nat, decision: P.Decision, transfer: Option<nat>, stripeOk: bool, id: nat)
    requires i >= |w.payouts|
    ensures MarkEligible(w, i, decision) == (w, NotFound) == ProcessPayout(w, i, transfer, id)
    ensures RetryPayout(w, i, transfer, id) == (w, NotFound) == ForceRetry(w, i, transfer, id)
    ensures ReversePayout(w, i, stripeOk, id) == (w, NotFound)
  {
  }
}
