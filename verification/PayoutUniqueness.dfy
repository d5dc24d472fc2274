/**
 How many payouts of one transaction can be active (PENDING, ELIGIBLE,
 PROCESSING or PAID) together.  createPayout refuses a second one, and the
 database's partial index keeps at most one of the first three; but claiming a
 FAILED payout again does not look for a PAID sibling.
 */
module PayoutUniqueness {
  import opened Wrappers
  import opened Ledger
  import opened Money
  import opened Payouts
  import opened PayoutBooking
  import P = PayoutMachine

  // ---- The index ----

  /** At most one payout per transaction is in the index. */
  predicate OneIndexed(w: World) {
    forall i, j :: 0 <= i < |w.payouts| && 0 <= j < |w.payouts| && i != j && w.payouts[i].tx == w.payouts[j].tx ==>
      !(Indexed(w.payouts[i]) && Indexed(w.payouts[j]))
  }

  /** One payout changes its row; the others, and its transaction, stay. */
  predicate OneRow(w: World, w': World, i: nat) {
    && i < |w.payouts| == |w'.payouts|
    && w'.payouts == w.payouts[i := w'.payouts[i]] && w'.payouts[i].tx == w.payouts[i].tx
  }

  /** Every call but a creation leaves the payouts alone or changes one row. */
  lemma ChangesOneRow(w: World, op: Op) returns (i: nat)
    requires !op.Create?
    ensures var w' := Apply(w, op);
      w'.payouts == w.payouts ||
      (OneRow(w, w', i) && (w'.payouts[i].row.status.Paid? || Indexed(w'.payouts[i]) ==>
         Indexed(w.payouts[i]) || (Claims(op) == Some(i) && w.payouts[i].row.status.Failed? && !ClaimRefused(w, i))))
    ensures Claims(op).Some? ==> i == Claims(op).value
  {
    if Claims(op).Some? {
      i := Claims(op).value;
      AttemptRow(w, op);
    } else {
      i := if op.Payment? || op.Refund? then 0 else op.i;
    }
  }

  /** The payout a call may claim. */
  function Claims(op: Op): Option<nat> {
    match op
    case Process(i, _, _) => Some(i)
    case Retry(i, _, _) => Some(i)
    case Force(i, _, _) => Some(i)
    case _ => None
  }

  /** An attempt changes its own row only, leaves it FAILED or PAID, and a claim passed the index. */
  lemma AttemptRow(w: World, op: Op)
    requires Claims(op).Some?
    ensures var w' := Apply(w, op); var i := Claims(op).value;
      w'.payouts == w.payouts ||
      (OneRow(w, w', i) && (w.payouts[i].row.status.Failed? || w.payouts[i].row.status.Eligible?)
       && (w'.payouts[i].row.status.Failed? || (w'.payouts[i].row.status.Paid? && !ClaimRefused(w, i))))
  {
    match op {
      case Process(i, transfer, id) => ProcessRow(w, i, transfer, id);
      case Retry(i, transfer, id) => ProcessRow(w, i, transfer, id);
      case Force(i, transfer, id) =>
        if i < |w.payouts| {
          var reset := w.(payouts := w.payouts[i := w.payouts[i].(row := w.payouts[i].row.(attempts := 0))]);
          SameSiblings(w, reset, i);
          ProcessRow(reset, i, transfer, id);
        }
      case _ =>
    }
  }

  lemma ProcessRow(w: World, i: nat, transfer: Option<nat>, id: nat)
    ensures var w' := ProcessPayout(w, i, transfer, id).0;
      w' == w ||
      (OneRow(w, w', i) && (w.payouts[i].row.status.Failed? || w.payouts[i].row.status.Eligible?)
       && (w'.payouts[i].row.status.Failed? || w'.payouts[i].row.status.Paid?) && !ClaimRefused(w, i))
  {
  }

  lemma SameSiblings(w: World, w': World, i: nat)
    requires OneRow(w, w', i)
    ensures ClaimRefused(w', i) <==> ClaimRefused(w, i)
  {
    assert forall j :: 0 <= j < |w.payouts| && j != i ==> w'.payouts[j] == w.payouts[j];
  }

  /**
   No call ever gives a transaction a second payout in the index: the claim is the
   only one the database has to refuse.
   */
  lemma KeepOneIndexed(w: World, op: Op)
    requires OneIndexed(w)
    ensures OneIndexed(Apply(w, op))
  {
    var w' := Apply(w, op);
    if op.Create? {
      assert forall j :: 0 <= j < |w.payouts| ==> w'.payouts[j] == w.payouts[j];
    } else {
      var i := ChangesOneRow(w, op);
      if w'.payouts != w.payouts {
        assert forall j :: 0 <= j < |w.payouts| && j != i ==> w'.payouts[j] == w.payouts[j];
      }
    }
  }

  lemma {:induction false} IndexHolds(w: World, ops: seq<Op>)
    requires OneIndexed(w)
    ensures OneIndexed(Run(w, ops))
    decreases |ops|
  {
    if ops != [] {
      KeepOneIndexed(w, ops[0]);
      IndexHolds(Apply(w, ops[0]), ops[1..]);
    }
  }

  // ---- Active payouts, the PAID ones included ----

  predicate Active(p: Payout) {
    Blocks(p, p.tx)
  }

  predicate Unique(w: World) {
    forall i, j :: 0 <= i < |w.payouts| && 0 <= j < |w.payouts| && i != j && w.payouts[i].tx == w.payouts[j].tx ==>
      !(Active(w.payouts[i]) && Active(w.payouts[j]))
  }

  predicate HasPaidSibling(w: World, i: nat)
    requires i < |w.payouts|
  {
    exists j :: 0 <= j < |w.payouts| && j != i && w.payouts[j].tx == w.payouts[i].tx && w.payouts[j].row.status.Paid?
  }

  /** The call claims a FAILED payout beside a PAID one. */
  predicate BesidePaid(w: World, op: Op) {
    var i := Claims(op);
    i.Some? && i.value < |w.payouts| && w.payouts[i.value].row.status.Failed? && HasPaidSibling(w, i.value)
  }

  lemma UniqueAfterRow(w: World, w': World, i: nat)
    requires Unique(w) && OneRow(w, w', i)
    ensures Unique(w') <==> !Active(w'.payouts[i]) || !(HasPaidSibling(w, i) || ClaimRefused(w, i))
  {
    assert forall j :: 0 <= j < |w.payouts| && j != i ==> w'.payouts[j] == w.payouts[j];
    if Active(w'.payouts[i]) && (HasPaidSibling(w, i) || ClaimRefused(w, i)) {
      var j :| 0 <= j < |w.payouts| && j != i && w.payouts[j].tx == w.payouts[i].tx && Active(w.payouts[j]);
      assert Active(w'.payouts[j]) && w'.payouts[j].tx == w'.payouts[i].tx;
    }
  }

  lemma ActiveIsAlone(w: World, i: nat)
    requires Unique(w) && i < |w.payouts| && Active(w.payouts[i])
    ensures !HasPaidSibling(w, i) && !ClaimRefused(w, i)
  {
  }

  /** Any call but the claim of a FAILED payout beside a PAID one keeps at most one payout active per transaction. */
  lemma KeepUnique(w: World, op: Op)
    requires Unique(w) && !BesidePaid(w, op)
    ensures Unique(Apply(w, op))
  {
    var w' := Apply(w, op);
    if op.Create? {
      assert forall j :: 0 <= j < |w.payouts| ==> w'.payouts[j] == w.payouts[j];
    } else {
      var i := ChangesOneRow(w, op);
      if w'.payouts != w.payouts {
        StaysUnique(w, w', op, i);
      }
    }
  }

  lemma StaysUnique(w: World, w': World, op: Op, i: nat)
    requires Unique(w) && OneRow(w, w', i) && !BesidePaid(w, op)
    requires Active(w'.payouts[i]) ==>
      Indexed(w.payouts[i]) || (Claims(op) == Some(i) && w.payouts[i].row.status.Failed? && !ClaimRefused(w, i))
    ensures Unique(w')
  {
    UniqueAfterRow(w, w', i);
    if Indexed(w.payouts[i]) {
      ActiveIsAlone(w, i);
    }
  }

  /** What the claim needs beyond a free index, all of it known before the call. */
  predicate Payable(w: World, op: Op)
    requires Claims(op).Some? && Claims(op).value < |w.payouts|
  {
    var i := Claims(op).value;
    var p := w.payouts[i];
    && p.seller in w.sellers && w.sellers[p.seller].hasStripe
    && Balance(w.ledger.rows, w.escrow) >= p.amount
    && op.transfer.Some?
    && Bookable(w, i)
    && (op.Retry? ==> p.row.attempts < p.row.maxAttempts)
  }

  /**
   Reviving a FAILED payout beside a PAID one: the transaction then has two PAID
   payouts exactly when the seller has a Stripe account, escrow covers the
   amount, Stripe accepts, the split can be booked and, for retryPayout, the
   attempts are not used up.
   */
  lemma RevivalBreaksIff(w: World, op: Op)
    requires Unique(w) && BesidePaid(w, op)
    ensures !Unique(Apply(w, op)) <==> Payable(w, op)
    ensures Payable(w, op) ==> Apply(w, op).payouts[Claims(op).value].row.status.Paid?
  {
    var w' := Apply(w, op);
    var i := Claims(op).value;
    NoIndexedSibling(w, i);
    AttemptRow(w, op);
    if w'.payouts != w.payouts {
      UniqueAfterRow(w, w', i);
    }
    RevivalPaysIff(w, op);
  }

  lemma NoIndexedSibling(w: World, i: nat)
    requires Unique(w) && i < |w.payouts| && HasPaidSibling(w, i)
    ensures !ClaimRefused(w, i)
  {
    var j :| 0 <= j < |w.payouts| && j != i && w.payouts[j].tx == w.payouts[i].tx && w.payouts[j].row.status.Paid?;
    assert Active(w.payouts[j]);
  }

  lemma RevivalPaysIff(w: World, op: Op)
    requires Claims(op).Some? && Claims(op).value < |w.payouts|
    requires w.payouts[Claims(op).value].row.status.Failed? && !ClaimRefused(w, Claims(op).value)
    ensures Apply(w, op).payouts[Claims(op).value].row.status.Paid? <==> Payable(w, op)
  {
    var i := Claims(op).value;
    match op {
      case Process(_, transfer, id) => AttemptEndsPaidIff(w, i, transfer, id);
      case Retry(_, transfer, id) => AttemptEndsPaidIff(w, i, transfer, id);
      case Force(_, transfer, id) =>
        var reset := w.(payouts := w.payouts[i := w.payouts[i].(row := w.payouts[i].row.(attempts := 0))]);
        SameSiblings(w, reset, i);
        AttemptEndsPaidIff(reset, i, transfer, id);
      case _ =>
    }
  }

  /** No call of the run claims a FAILED payout beside a PAID one. */
  predicate NoRevival(w: World, ops: seq<Op>)
    decreases |ops|
  {
    ops == [] || (!BesidePaid(w, ops[0]) && NoRevival(Apply(w, ops[0]), ops[1..]))
  }

  /** Over such a run every transaction has at most one PAID payout. */
  lemma {:induction false} OnePaidPerTransaction(w: World, ops: seq<Op>, i: nat, j: nat)
    requires Unique(w) && NoRevival(w, ops)
    requires i < |Run(w, ops).payouts| && j < |Run(w, ops).payouts|
    requires Run(w, ops).payouts[i].tx == Run(w, ops).payouts[j].tx
    requires Run(w, ops).payouts[i].row.status.Paid? && Run(w, ops).payouts[j].row.status.Paid?
    ensures i == j
    decreases |ops|
  {
    if ops != [] {
      KeepUnique(w, ops[0]);
      OnePaidPerTransaction(Apply(w, ops[0]), ops[1..], i, j);
    }
  }

  // ---- Such a revival occurs ----

  lemma Next(w: World, op: Op, rest: seq<Op>)
    ensures Run(w, [op] + rest) == Run(Apply(w, op), rest)
  {
    assert ([op] + rest)[1..] == rest;
  }

  /** A payout is created, let through the gate and tried once. */
  function Attempted(
    tx: nat, seller: nat, amount: int, percent: Option<real>, i: nat, transfer: Option<nat>, id: nat): seq<Op>
  {
    [Create(tx, seller, amount, percent)] + ([Gate(i, P.Allow)] + ([Process(i, transfer, id)] + []))
  }

  /** What a creation and an attempt need, but for Stripe. */
  predicate Ready(w: World, tx: nat, seller: nat, amount: int, percent: Option<real>) {
    && AccountsSetUp(w) && amount >= 0
    && tx in w.ledger.txs && w.ledger.txs[tx].status.Completed?
    && StoredFee(amount, Percent(percent)).Some?
    && StoredFee(amount, Percent(percent)).value.0 >= 0 && StoredFee(amount, Percent(percent)).value.1 >= 0
    && seller in w.sellers && w.sellers[seller].hasStripe && w.sellers[seller].payoutsEnabled
    && !w.sellers[seller].payoutsBlocked && Balance(w.ledger.rows, w.sellers[seller].account) >= 0
    && Balance(w.ledger.rows, w.escrow) >= amount
    && forall i :: 0 <= i < |w.payouts| ==> !Blocks(w.payouts[i], tx)
  }

  /** The row and the tables an attempt on a new payout leaves. */
  lemma AttemptedEnds(
    w: World, tx: nat, seller: nat, amount: int, percent: Option<real>, transfer: Option<nat>, id: nat)
    requires Ready(w, tx, seller, amount, percent)
    ensures var (fee, part) := StoredFee(amount, Percent(percent)).value; var n := |w.payouts|;
      var z := Run(w, Attempted(tx, seller, amount, percent, n, transfer, id));
      && z.sellers == w.sellers && z.escrow == w.escrow && z.platform == w.platform
      && z.payouts == w.payouts + [Payout(
           P.Row(if transfer.Some? then P.Paid else P.Failed, 1, 3, transfer), amount, fee, part, tx, seller)]
      && (transfer.None? ==> z.ledger == w.ledger)
      && (transfer.Some? ==>
            && z.ledger.accounts == w.ledger.accounts
            && Balance(z.ledger.rows, w.escrow) == Balance(w.ledger.rows, w.escrow) - amount)
  {
    var (fee, part) := StoredFee(amount, Percent(percent)).value;
    var n := |w.payouts|;
    var p := Payout(P.Row(P.Pending, 0, 3, None), amount, fee, part, tx, seller);
    var w1 := Apply(w, Create(tx, seller, amount, percent));
    assert w1 == w.(payouts := w.payouts + [p]);
    var w2 := Apply(w1, Gate(n, P.Allow));
    assert w2 == w.(payouts := w.payouts + [p.(row := P.Row(P.Eligible, 0, 3, None))]);
    GuardsPassIff(amount, Percent(percent));
    assert !ClaimRefused(w2, n) by {
      assert forall j :: 0 <= j < n ==> w2.payouts[j] == w.payouts[j];
    }
    var w3 := Apply(w2, Process(n, transfer, id));
    AttemptedPays(w2, n, transfer, id);
    Next(w2, Process(n, transfer, id), []);
    Next(w1, Gate(n, P.Allow), [Process(n, transfer, id)] + []);
    Next(w, Create(tx, seller, amount, percent), [Gate(n, P.Allow)] + ([Process(n, transfer, id)] + []));
    assert w3.payouts == w.payouts + [w3.payouts[n]];
  }

  lemma AttemptedPays(w: World, n: nat, transfer: Option<nat>, id: nat)
    requires AccountsSetUp(w) && n < |w.payouts| && w.payouts[n].row == P.Row(P.Eligible, 0, 3, None)
    requires w.payouts[n].seller in w.sellers && w.sellers[w.payouts[n].seller].hasStripe && !ClaimRefused(w, n)
    requires Balance(w.ledger.rows, w.escrow) >= w.payouts[n].amount
    requires TermsError(TermsOf(w, w.payouts[n])).None?
    ensures var z := Apply(w, Process(n, transfer, id)); var p := w.payouts[n];
      && z.sellers == w.sellers && z.escrow == w.escrow && z.platform == w.platform
      && z.payouts == w.payouts[n :=
           p.(row := P.Row(if transfer.Some? then P.Paid else P.Failed, 1, 3, transfer))]
      && (transfer.None? ==> z.ledger == w.ledger)
      && (transfer.Some? ==>
            && z.ledger.accounts == w.ledger.accounts
            && Balance(z.ledger.rows, w.escrow) == Balance(w.ledger.rows, w.escrow) - p.amount)
  {
    var terms := TermsOf(w, w.payouts[n]);
    ReleaseAnswer(w.ledger, terms, id);
    TotalAppend(OfAccount(w.escrow), w.ledger.rows, Post(id, ReleaseEntries(terms)));
    ReleasePosts(terms, id, w.escrow);
  }

  lemma {:induction false} RunAppend(w: World, a: seq<Op>, b: seq<Op>)
    ensures Run(w, a + b) == Run(Run(w, a), b)
    decreases |a|
  {
    if a == [] {
      assert a + b == b;
    } else {
      assert (a + b)[1..] == a[1..] + b;
      RunAppend(Apply(w, a[0]), a[1..], b);
    }
  }

  /**
   From any new system with escrow for two payouts: the first attempt fails at
   Stripe, a second payout of the transaction is created and PAID, and the FAILED
   one can then be claimed and paid as well.
   */
  lemma RevivalOccurs(w: World, tx: nat, seller: nat, amount: int, percent: Option<real>, t: nat, id: nat)
    returns (ops: seq<Op>)
    requires Fresh(w) && Ready(w, tx, seller, amount, percent) && Balance(w.ledger.rows, w.escrow) >= 2 * amount
    ensures ops == Attempted(tx, seller, amount, percent, 0, None, id)
        + Attempted(tx, seller, amount, percent, 1, Some(t), id)
    ensures var z := Run(w, ops); var op := Process(0, Some(t + 1), id + 1);
      && Unique(z) && BesidePaid(z, op) && Payable(z, op)
      && !Unique(Apply(z, op))
  {
    var first := Attempted(tx, seller, amount, percent, 0, None, id);
    var second := Attempted(tx, seller, amount, percent, 1, Some(t), id);
    AttemptedEnds(w, tx, seller, amount, percent, None, id);
    var m := Run(w, first);
    AttemptedEnds(m, tx, seller, amount, percent, Some(t), id);
    RunAppend(w, first, second);
    ops := first + second;
    var z := Run(w, ops);
    assert z.payouts[1].row.status.Paid? && z.payouts[0].row.status.Failed?;
    GuardsPassIff(amount, Percent(percent));
    RevivalBreaksIff(z, Process(0, Some(t + 1), id + 1));
  }
}
