/**
 When an attempt that moved money can also be booked: exactly what the ledger
 asks of a release, and which payouts the system creates that it will refuse.
 */
module PayoutBooking {
  import opened Wrappers
  import opened Ledger
  import opened Money
  import opened Payouts
  import P = PayoutMachine

  // ---- The ledger's answer to a release ----

  lemma ReleaseSums(p: Terms)
    ensures SideSum(Debit, ReleaseEntries(p)) == p.amount
    ensures SideSum(Credit, ReleaseEntries(p)) == p.sellerAmount + p.fee
    ensures DebitTotal(ReleaseEntries(p), p.escrow) == p.amount
    ensures DebitIds(ReleaseEntries(p)) == [p.escrow]
  {
    var es := ReleaseEntries(p);
    var last := [es[2]];
    var tail := [es[1], es[2]];
    assert es[1..] == tail && tail[1..] == last && last[1..] == [];
    assert SideSum(Debit, last) == 0 && SideSum(Credit, last) == p.fee;
    assert DebitTotal(last, p.escrow) == 0 && DebitIds(last) == [];
    assert SideSum(Debit, tail) == 0 && SideSum(Credit, tail) == p.sellerAmount + p.fee;
    assert DebitTotal(tail, p.escrow) == 0 && DebitIds(tail) == [];
  }

  predicate TermsAccountsExist(l: Tables, p: Terms) {
    p.escrow in l.accounts && p.seller in l.accounts && p.platform in l.accounts
  }

  /** The ledger takes a release exactly when the split adds up, the accounts exist and escrow can pay. */
  lemma ReleaseAnswer(l: Tables, p: Terms, id: nat)
    ensures AtomicRelease(l, p, id).Ok? <==>
      && TermsError(p).None? && TermsAccountsExist(l, p)
      && (l.accounts[p.escrow] || Balance(l.rows, p.escrow) >= p.amount)
  {
    var es := ReleaseEntries(p);
    ReleaseSums(p);
    FirstBadFinds(es);
    if TermsError(p).None? {
      assert Validate(es).None?;
      var ids := DebitIds(es);
      FundsPass(l, es, ids);
      assert ids[0] == p.escrow && forall k :: 0 <= k < |ids| ==> ids[k] == p.escrow;
      assert AccountsExist(l, es) <==> TermsAccountsExist(l, p) by {
        assert es[0].account == p.escrow && es[1].account == p.seller && es[2].account == p.platform;
      }
    }
  }

  // ---- One attempt ----

  /** Everything up to and including Stripe's acceptance goes well. */
  predicate TransferMade(w: World, i: nat, transfer: Option<nat>) {
    && i < |w.payouts| && P.Allowed(w.payouts[i].row.status, P.Processing)
    && w.payouts[i].seller in w.sellers && w.sellers[w.payouts[i].seller].hasStripe
    && !ClaimRefused(w, i)
    && Balance(w.ledger.rows, w.escrow) >= w.payouts[i].amount
    && transfer.Some?
  }

  /** The ledger will book the payout's split. */
  predicate Bookable(w: World, i: nat)
    requires i < |w.payouts| && w.payouts[i].seller in w.sellers
  {
    TermsError(TermsOf(w, w.payouts[i])).None? && TermsAccountsExist(w.ledger, TermsOf(w, w.payouts[i]))
  }

  /** An attempt ends PAID exactly when the transfer is made and the split can be booked, both known before the call. */
  lemma AttemptEndsPaidIff(w: World, i: nat, transfer: Option<nat>, id: nat)
    requires i < |w.payouts| && !w.payouts[i].row.status.Paid?
    ensures ProcessPayout(w, i, transfer, id).0.payouts[i].row.status.Paid? <==>
            TransferMade(w, i, transfer) && Bookable(w, i)
  {
    if w.payouts[i].seller in w.sellers {
      ReleaseAnswer(w.ledger, TermsOf(w, w.payouts[i]), id);
    }
  }

  // ---- The payouts the system creates ----

  /** The split of every payout adds up; nothing is said of the signs. */
  predicate SplitsAddUp(w: World) {
    forall i :: 0 <= i < |w.payouts| ==>
      w.payouts[i].amount >= 0 && w.payouts[i].fee + w.payouts[i].sellerAmount == w.payouts[i].amount
  }

  lemma KeepSplits(w: World, op: Op)
    requires SplitsAddUp(w)
    ensures SplitsAddUp(Apply(w, op))
  {
    if op.Create? {
      CreateKeepsSplits(w, op.tx, op.seller, op.amount, op.percent);
    } else if op.Force? {
      ForceKeepsSplits(w, op.i, op.transfer, op.id);
    } else if op.Process? || op.Retry? {
      ProcessKeepsSplits(w, op.i, op.transfer, op.id);
    }
  }

  lemma ProcessKeepsSplits(w: World, i: nat, transfer: Option<nat>, id: nat)
    requires SplitsAddUp(w)
    ensures SplitsAddUp(ProcessPayout(w, i, transfer, id).0)
  {
  }

  lemma CreateKeepsSplits(w: World, tx: nat, seller: nat, amount: int, percent: Option<real>)
    requires SplitsAddUp(w)
    ensures SplitsAddUp(CreatePayout(w, tx, seller, amount, percent).0)
  {
    if |CreatePayout(w, tx, seller, amount, percent).0.payouts| > |w.payouts| {
      GuardsPassIff(amount, Percent(percent));
    }
  }

  lemma ForceKeepsSplits(w: World, i: nat, transfer: Option<nat>, id: nat)
    requires SplitsAddUp(w)
    ensures SplitsAddUp(ForceRetry(w, i, transfer, id).0)
  {
    if i < |w.payouts| {
      var reset := w.payouts[i].(row := w.payouts[i].row.(attempts := 0));
      ProcessKeepsSplits(w.(payouts := w.payouts[i := reset]), i, transfer, id);
    }
  }

  lemma {:induction false} KeepSplitsAll(w: World, ops: seq<Op>)
    requires SplitsAddUp(w)
    ensures SplitsAddUp(Run(w, ops))
    decreases |ops|
  {
    if ops != [] {
      KeepSplits(w, ops[0]);
      KeepSplitsAll(Apply(w, ops[0]), ops[1..]);
    }
  }

  /**
   After any serial run, an attempt whose transfer is made ends PAID exactly when
   neither part of the split is negative; otherwise the money has left, the row
   is FAILED with the transfer's id, and the ledger has nothing of it.
   */
  lemma BookedIff(w: World, ops: seq<Op>, i: nat, transfer: Option<nat>, id: nat)
    requires Fresh(w) && forall k :: 0 <= k < |ops| ==> BuyerApart(w, ops[k])
    requires TransferMade(Run(w, ops), i, transfer)
    ensures var z := Run(w, ops); var p := z.payouts[i]; var z' := ProcessPayout(z, i, transfer, id).0;
      && (z'.payouts[i].row.status.Paid? <==> p.fee >= 0 && p.sellerAmount >= 0)
      && (!z'.payouts[i].row.status.Paid? ==>
            z'.payouts[i].row.status.Failed? && z'.payouts[i].row.transferId == transfer && z'.ledger == z.ledger)
  {
    KeepAll(w, ops);
    KeepSplitsAll(w, ops);
    AttemptEndsPaidIff(Run(w, ops), i, transfer, id);
  }
}
