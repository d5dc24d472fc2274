/**
 Disputes on top of payouts and the ledger, one call at a time: the dispute's
 own state machine, the payout it freezes, and the money that moves when it is
 decided.
 */
module Disputes {
  import opened Wrappers
  import opened Ledger
  import opened Payouts
  import opened DisputeStates
  import LedgerProtocol
  import LedgerSettlement
  import P = PayoutMachine

  datatype Dispute = Dispute(tx: nat, amount: int, payout: Option<nat>, status: Status)

  datatype Desk = Desk(world: World, disputes: seq<Dispute>)

  // ---- Lookups ----

  /** What a query for a payout of a transaction asks for. */
  datatype Want = Freezable(tx: nat) | PaidFor(tx: nat)

  predicate Meets(p: Payout, want: Want) {
    p.tx == want.tx && if want.Freezable? then p.row.status.Pending? || p.row.status.Eligible? else p.row.status.Paid?
  }

  function FirstFrom(ps: seq<Payout>, i: nat, want: Want): (r: Option<nat>)
    requires i <= |ps|
    ensures r.Some? ==> r.value < |ps| && Meets(ps[r.value], want)
    ensures r.None? ==> forall k :: i <= k < |ps| ==> !Meets(ps[k], want)
    decreases |ps| - i
  {
    if i == |ps| then None else if Meets(ps[i], want) then Some(i) else FirstFrom(ps, i + 1, want)
  }

  /** The account of a transaction's first DEBIT entry: the buyer, for a settled payment. */
  function FirstDebit(rows: seq<Posted>, tx: nat): Option<int> {
    if rows == [] then None
    else if rows[0].tx == tx && rows[0].entry.side.Debit? then Some(rows[0].entry.account)
    else FirstDebit(rows[1..], tx)
  }

  // ---- The calls ----

  function SetDispute(d: Desk, k: nat, status: Status): Desk
    requires k < |d.disputes|
  {
    d.(disputes := d.disputes[k := d.disputes[k].(status := status)])
  }

  function OpenDispute(d: Desk, tx: nat, amount: int): (Desk, Reply) {
    if tx !in d.world.ledger.txs then (d, NotFound)
    else
      var found := FirstFrom(d.world.payouts, 0, Freezable(tx));
      var freezes := found.Some? && d.world.payouts[found.value].row.status.Eligible?;
      var w := if freezes then SetStatus(d.world, found.value, P.Pending) else d.world;
      (Desk(w, d.disputes + [Dispute(tx, amount, found, OPEN)]), Done)
  }

  function StartReview(d: Desk, k: nat): (Desk, Reply) {
    if k >= |d.disputes| then (d, NotFound)
    else if !Allowed(d.disputes[k].status, UNDER_REVIEW) then (d, BadRequest)
    else (SetDispute(d, k, UNDER_REVIEW), Done)
  }

  function ResolveWon(d: Desk, k: nat): (Desk, Reply) {
    if k >= |d.disputes| then (d, NotFound)
    else if !Allowed(d.disputes[k].status, WON) then (d, BadRequest)
    else
      var p := d.disputes[k].payout;
      var frozen := p.Some? && p.value < |d.world.payouts| && d.world.payouts[p.value].row.status.Pending?;
      var w := if frozen then SetStatus(d.world, p.value, P.Eligible) else d.world;
      (SetDispute(d.(world := w), k, WON), Done)
  }

  /**
   The payout a decision against the seller looks at: the attached one, else the
   first PAID one of the transaction.
   */
  function Against(d: Desk, k: nat): (r: Option<nat>)
    requires k < |d.disputes|
    ensures r.Some? ==> r.value < |d.world.payouts|
  {
    var p := d.disputes[k].payout;
    if p.Some? && p.value < |d.world.payouts| then p
    else FirstFrom(d.world.payouts, 0, PaidFor(d.disputes[k].tx))
  }

  predicate Reverses(d: Desk, k: nat)
    requires k < |d.disputes|
  {
    Against(d, k).Some? && d.world.payouts[Against(d, k).value].row.status.Paid?
  }

  /** The step both decisions against the seller begin with. */
  function TakeBack(d: Desk, k: nat, stripeOk: bool, id: nat): (World, Reply)
    requires k < |d.disputes|
  {
    if Reverses(d, k) then DecideAgainst(d.world, Against(d, k).value, stripeOk, id) else (d.world, Done)
  }

  function ResolveLost(d: Desk, k: nat, stripeOk: bool, id: nat): (Desk, Reply) {
    if k >= |d.disputes| then (d, NotFound)
    else if !Allowed(d.disputes[k].status, LOST) then (d, BadRequest)
    else
      var (w, reply) := TakeBack(d, k, stripeOk, id);
      if reply.Done? then (SetDispute(d.(world := w), k, LOST), Done) else (d.(world := w), reply)
  }

  function RefundEntries(escrow: int, buyer: int, amount: int): seq<Entry> {
    [Entry(escrow, amount, Debit), Entry(buyer, amount, Credit)]
  }

  /** The buyer the refund goes to, if the transaction still exists and has a debit entry. */
  function Buyer(w: World, tx: nat): Option<int> {
    if tx in w.ledger.txs then FirstDebit(w.ledger.rows, tx) else None
  }

  function RefundBuyer(w: World, dispute: Dispute, id: nat): (World, Reply) {
    var buyer := Buyer(w, dispute.tx);
    if buyer.None? then (w, Done)
    else match AtomicCreate(w.ledger, RefundEntries(w.escrow, buyer.value, dispute.amount), None, id)
      case Err(e) => (w, LedgerFailed(e))
      case Ok(l) => (w.(ledger := l), Done)
  }

  /** `id` is the next Transaction id; a reversal uses it up before the refund. */
  function ResolveRefunded(d: Desk, k: nat, stripeOk: bool, id: nat): (Desk, Reply) {
    if k >= |d.disputes| then (d, NotFound)
    else if !Allowed(d.disputes[k].status, REFUNDED) then (d, BadRequest)
    else
      var (w, reply) := TakeBack(d, k, stripeOk, id);
      if !reply.Done? then (d.(world := w), reply)
      else
        CloseRefund(d.(world := w), k, if Reverses(d, k) then id + 1 else id)
  }

  function CloseRefund(d: Desk, k: nat, id: nat): (Desk, Reply)
    requires k < |d.disputes|
  {
    var (w, reply) := RefundBuyer(d.world, d.disputes[k], id);
    if reply.Done? then (SetDispute(d.(world := w), k, REFUNDED), Done) else (d.(world := w), reply)
  }

  // ---- Runs ----

  datatype DeskOp =
    | Other(op: Op)
    | Open(tx: nat, amount: int)
    | Review(k: nat)
    | Win(k: nat)
    | Lose(k: nat, stripeOk: bool, id: nat)
    | GiveBack(k: nat, stripeOk: bool, id: nat)

  function Act(d: Desk, op: DeskOp): (Desk, Reply) {
    match op
    case Other(o) => (d.(world := Payouts.Apply(d.world, o)), Done)
    case Open(tx, amount) => OpenDispute(d, tx, amount)
    case Review(k) => StartReview(d, k)
    case Win(k) => ResolveWon(d, k)
    case Lose(k, stripeOk, id) => ResolveLost(d, k, stripeOk, id)
    case GiveBack(k, stripeOk, id) => ResolveRefunded(d, k, stripeOk, id)
  }

  function Run(d: Desk, ops: seq<DeskOp>): Desk
    decreases |ops|
  {
    if ops == [] then d else Run(Act(d, ops[0]).0, ops[1..])
  }

  // ---- A dispute is decided once ----

  /** No call moves a dispute off its transition table, and a decided one never moves again. */
  lemma DisputePath(d: Desk, op: DeskOp, k: nat)
    requires k < |d.disputes|
    ensures var d' := Act(d, op).0;
      && |d'.disputes| >= |d.disputes|
      && (d'.disputes[k].status == d.disputes[k].status || Allowed(d.disputes[k].status, d'.disputes[k].status))
      && d'.disputes[k] == d.disputes[k].(status := d'.disputes[k].status)
  {
  }

  /** The refund of dispute k that one call posts, in transactions. */
  function RefundsIn(d: Desk, op: DeskOp, k: nat): nat {
    if op.GiveBack? && op.k == k && k < |d.disputes| && Act(d, op).1.Done?
       && Buyer(TakeBack(d, k, op.stripeOk, op.id).0, d.disputes[k].tx).Some? then 1 else 0
  }

  function Refunds(d: Desk, ops: seq<DeskOp>, k: nat): nat
    decreases |ops|
  {
    if ops == [] then 0 else RefundsIn(d, ops[0], k) + Refunds(Act(d, ops[0]).0, ops[1..], k)
  }

  lemma {:induction false} DecidedStays(d: Desk, ops: seq<DeskOp>, k: nat)
    requires k < |d.disputes| && Terminal(d.disputes[k].status)
    ensures |Run(d, ops).disputes| >= |d.disputes| && Run(d, ops).disputes[k] == d.disputes[k]
        && Refunds(d, ops, k) == 0
    decreases |ops|
  {
    if ops != [] {
      DisputePath(d, ops[0], k);
      DecidedStays(Act(d, ops[0]).0, ops[1..], k);
    }
  }

  /** The buyer of a dispute is refunded at most once, and only if the dispute ends REFUNDED. */
  lemma {:induction false} RefundedOnce(d: Desk, ops: seq<DeskOp>, k: nat)
    requires k < |d.disputes|
    ensures k < |Run(d, ops).disputes|
    ensures Refunds(d, ops, k) <= 1
    ensures Refunds(d, ops, k) == 1 ==> Run(d, ops).disputes[k].status == REFUNDED
    decreases |ops|
  {
    if ops != [] {
      var d' := Act(d, ops[0]).0;
      DisputePath(d, ops[0], k);
      if RefundsIn(d, ops[0], k) == 1 {
        assert d'.disputes[k].status == REFUNDED;
        DecidedStays(d', ops[1..], k);
      } else {
        RefundedOnce(d', ops[1..], k);
      }
    }
  }

  /** resolveRefunded from its reversal on. */
  lemma RefundSteps(d: Desk, k: nat, stripeOk: bool, id: nat, w: World, reply: Reply)
    requires k < |d.disputes| && Allowed(d.disputes[k].status, REFUNDED)
    requires (w, reply) == TakeBack(d, k, stripeOk, id)
    ensures ResolveRefunded(d, k, stripeOk, id) ==
      if reply.Done? then CloseRefund(d.(world := w), k, id + if Reverses(d, k) then 1 else 0)
      else (d.(world := w), reply)
  {
  }

  /**
   What RefundsIn counts is a refund in the ledger, posted after the reversal if
   there is one; otherwise nothing more is posted.
   */
  lemma RefundPosts(d: Desk, k: nat, stripeOk: bool, id: nat)
    requires k < |d.disputes| && ResolveRefunded(d, k, stripeOk, id).1.Done?
    ensures var w := TakeBack(d, k, stripeOk, id).0; var buyer := Buyer(w, d.disputes[k].tx);
      ResolveRefunded(d, k, stripeOk, id).0.world.ledger.rows == w.ledger.rows +
        if RefundsIn(d, GiveBack(k, stripeOk, id), k) == 1
        then Post(if Reverses(d, k) then id + 1 else id, RefundEntries(w.escrow, buyer.value, d.disputes[k].amount))
        else []
  {
    var (w, reply) := TakeBack(d, k, stripeOk, id);
    RefundSteps(d, k, stripeOk, id, w, reply);
    RefundBuyerPosts(w, d.disputes[k], if Reverses(d, k) then id + 1 else id);
    RefundsInIs(d, k, stripeOk, id);
  }

  lemma RefundsInIs(d: Desk, k: nat, stripeOk: bool, id: nat)
    requires k < |d.disputes| && ResolveRefunded(d, k, stripeOk, id).1.Done?
    ensures RefundsIn(d, GiveBack(k, stripeOk, id), k) == 1 <==>
            Buyer(TakeBack(d, k, stripeOk, id).0, d.disputes[k].tx).Some?
  {
  }

  lemma RefundBuyerPosts(w: World, dispute: Dispute, id: nat)
    requires RefundBuyer(w, dispute, id).1.Done?
    ensures RefundBuyer(w, dispute, id).0.ledger.rows == w.ledger.rows +
      if Buyer(w, dispute.tx).Some?
      then Post(id, RefundEntries(w.escrow, Buyer(w, dispute.tx).value, dispute.amount))
      else []
  {
    assert w.ledger.rows + [] == w.ledger.rows;
  }

  // ---- When a refund can be paid ----

  /** The ledger's answer to a refund. */
  lemma RefundAnswer(w: World, buyer: int, amount: int, id: nat)
    requires w.escrow in w.ledger.accounts && buyer in w.ledger.accounts
    ensures AtomicCreate(w.ledger, RefundEntries(w.escrow, buyer, amount), None, id).Ok? <==>
            amount >= 0 && (w.ledger.accounts[w.escrow] || Balance(w.ledger.rows, w.escrow) >= amount)
  {
    var es := RefundEntries(w.escrow, buyer, amount);
    LedgerSettlement.OneDebit(w.escrow, buyer, amount);
    FirstBadFinds(es);
    assert es[0].amount == amount;
    FundsPass(w.ledger, es, DebitIds(es));
    assert DebitIds(es)[0] == w.escrow;
  }

  lemma {:induction false} FirstDebitKnown(rows: seq<Posted>, tx: nat)
    ensures FirstDebit(rows, tx).Some? ==>
        exists i :: 0 <= i < |rows| && rows[i].entry.account == FirstDebit(rows, tx).value
  {
    if rows != [] && !(rows[0].tx == tx && rows[0].entry.side.Debit?) {
      FirstDebitKnown(rows[1..], tx);
      if FirstDebit(rows, tx).Some? {
        var i :| 0 <= i < |rows[1..]| && rows[1..][i].entry.account == FirstDebit(rows, tx).value;
        assert rows[i + 1] == rows[1..][i];
      }
    }
  }

  /** A reversal puts the whole payout back into escrow and leaves the accounts, and every earlier row, as they are. */
  lemma TakenBack(d: Desk, k: nat, stripeOk: bool, id: nat)
    requires Inv(d.world) && k < |d.disputes| && Reverses(d, k) && TakeBack(d, k, stripeOk, id).1.Done?
    ensures var w, w' := d.world, TakeBack(d, k, stripeOk, id).0; var p := w.payouts[Against(d, k).value];
      && w'.escrow == w.escrow && w'.ledger.accounts == w.ledger.accounts
      && w'.ledger.txs == w.ledger.txs[id := TxRow(Pending, None)]
      && w'.ledger.rows == w.ledger.rows + Post(id, ReversalEntries(TermsOf(w, p)))
      && Balance(w'.ledger.rows, w.escrow) == Balance(w.ledger.rows, w.escrow) + p.amount
  {
    var w := d.world;
    var p := w.payouts[Against(d, k).value];
    TotalAppend(OfAccount(w.escrow), w.ledger.rows, Post(id, ReversalEntries(TermsOf(w, p))));
    ReleasePosts(TermsOf(w, p), id, w.escrow);
  }

  /**
   Deciding for the buyer of a payout already PAID succeeds exactly when Stripe
   takes the transfer back and escrow, with the payout returned to it, covers
   the disputed amount.  A disputed amount up to the payout's is always covered.
   */
  lemma RefundOfPaidIff(d: Desk, k: nat, stripeOk: bool, id: nat)
    requires Inv(d.world) && LedgerProtocol.GoodLedger(d.world.ledger)
    requires k < |d.disputes| && d.disputes[k].status == UNDER_REVIEW && Reverses(d, k)
    requires d.disputes[k].tx != id && Buyer(d.world, d.disputes[k].tx).Some?
    ensures var w := d.world; var p := w.payouts[Against(d, k).value]; var amount := d.disputes[k].amount;
      && (ResolveRefunded(d, k, stripeOk, id).1.Done? <==>
            && (p.row.transferId.None? || stripeOk) && amount >= 0
            && (w.ledger.accounts[w.escrow] || Balance(w.ledger.rows, w.escrow) + p.amount >= amount))
      && (amount <= p.amount ==> w.ledger.accounts[w.escrow] || Balance(w.ledger.rows, w.escrow) + p.amount >= amount)
  {
    TakeBackIff(d, k, stripeOk, id);
    var (w, reply) := TakeBack(d, k, stripeOk, id);
    RefundedIff(d, k, stripeOk, id);
    if reply.Done? {
      TakenBack(d, k, stripeOk, id);
      SameBuyer(d, k, stripeOk, id);
      RefundAnswer(w, Buyer(w, d.disputes[k].tx).value, d.disputes[k].amount, id + 1);
      assert RefundBuyer(w, d.disputes[k], id + 1).1.Done? <==>
        d.disputes[k].amount >= 0
            && (w.ledger.accounts[w.escrow] || Balance(w.ledger.rows, w.escrow) >= d.disputes[k].amount);
    }
  }

  lemma RefundedIff(d: Desk, k: nat, stripeOk: bool, id: nat)
    requires k < |d.disputes| && d.disputes[k].status == UNDER_REVIEW && Reverses(d, k)
    ensures var (w, reply) := TakeBack(d, k, stripeOk, id);
      ResolveRefunded(d, k, stripeOk, id).1.Done? <==> reply.Done? && RefundBuyer(w, d.disputes[k], id + 1).1.Done?
  {
  }

  lemma TakeBackIff(d: Desk, k: nat, stripeOk: bool, id: nat)
    requires Inv(d.world) && k < |d.disputes| && Reverses(d, k)
    ensures TakeBack(d, k, stripeOk, id).1.Done? <==>
        d.world.payouts[Against(d, k).value].row.transferId.None? || stripeOk
  {
    ReversalFunded(d.world, Against(d, k).value, id);
  }

  /** The reversal does not change who the buyer is. */
  lemma SameBuyer(d: Desk, k: nat, stripeOk: bool, id: nat)
    requires Inv(d.world) && LedgerProtocol.GoodLedger(d.world.ledger)
    requires k < |d.disputes| && Reverses(d, k) && TakeBack(d, k, stripeOk, id).1.Done?
    requires d.disputes[k].tx != id && Buyer(d.world, d.disputes[k].tx).Some?
    ensures var w := TakeBack(d, k, stripeOk, id).0; var tx := d.disputes[k].tx;
      Buyer(w, tx) == Buyer(d.world, tx) && Buyer(w, tx).value in w.ledger.accounts
  {
    TakenBack(d, k, stripeOk, id);
    var tx := d.disputes[k].tx;
    FirstDebitAppend(d.world.ledger.rows,
        Post(id, ReversalEntries(TermsOf(d.world, d.world.payouts[Against(d, k).value]))), tx);
    FirstDebitKnown(d.world.ledger.rows, tx);
  }

  lemma {:induction false} FirstDebitAppend(rows: seq<Posted>, more: seq<Posted>, tx: nat)
    ensures FirstDebit(rows + more, tx) ==
            if FirstDebit(rows, tx).Some? then FirstDebit(rows, tx) else FirstDebit(more, tx)
  {
    if rows == [] {
      assert rows + more == more;
    } else {
      assert (rows + more)[1..] == rows[1..] + more;
      FirstDebitAppend(rows[1..], more, tx);
    }
  }

  // ---- The fee account, disputes included ----

  /** No transaction takes its first debit from the fee account, so no refund goes there. */
  ghost predicate BuyersApart(w: World) {
    forall t :: FirstDebit(w.ledger.rows, t) != Some(w.platform)
  }

  lemma {:induction false} FirstOfPost(t: nat, es: seq<Entry>, u: nat)
    requires es != [] && es[0].side.Debit?
    ensures FirstDebit(Post(t, es), u) == if u == t then Some(es[0].account) else None
  {
    PostTail(t, es);
    if u != t && |es| > 0 {
      NoDebitElsewhere(t, es, u);
    }
  }

  lemma {:induction false} NoDebitElsewhere(t: nat, es: seq<Entry>, u: nat)
    requires u != t
    ensures FirstDebit(Post(t, es), u) == None
  {
    if es != [] {
      PostTail(t, es);
      NoDebitElsewhere(t, es[1..], u);
    }
  }

  lemma KeepBuyersApart(w: World, w': World, t: nat, es: seq<Entry>)
    requires BuyersApart(w) && w'.platform == w.platform
    requires w'.ledger.rows == w.ledger.rows + Post(t, es)
    requires es != [] && es[0].side.Debit? && es[0].account != w.platform
    ensures BuyersApart(w')
  {
    forall u ensures FirstDebit(w'.ledger.rows, u) != Some(w.platform) {
      FirstDebitAppend(w.ledger.rows, Post(t, es), u);
      FirstOfPost(t, es, u);
    }
  }

  /**
   A call of the payout service or the ledger posts one transaction or none, and
   never debits the fee account first.
   */
  lemma OpBuyersApart(w: World, op: Op)
    requires Inv(w) && BuyersApart(w) && BuyerApart(w, op)
    ensures BuyersApart(Payouts.Apply(w, op))
  {
    var w' := Payouts.Apply(w, op);
    match op {
      case Process(i, transfer, id) => ProcessApart(w, i, transfer, id);
      case Retry(i, transfer, id) => ProcessApart(w, i, transfer, id);
      case Force(i, transfer, id) => ForceApart(w, i, transfer, id);
      case Reverse(i, stripeOk, id) => ReverseApart(w, i, stripeOk, id);
      case Against(i, stripeOk, id) => ReverseApart(w, i, stripeOk, id);
      case Payment(t, buyer, receiver, amount) =>
        if w'.ledger.rows != w.ledger.rows {
          KeepBuyersApart(w, w', t, [Entry(buyer, amount, Debit), Entry(receiver, amount, Credit)]);
        }
      case Refund(buyer, amount, id) =>
        if w'.ledger.rows != w.ledger.rows { KeepBuyersApart(w, w', id, RefundEntries(w.escrow, buyer, amount)); }
      case _ =>
    }
  }

  lemma ProcessApart(w: World, i: nat, transfer: Option<nat>, id: nat)
    requires AccountsSetUp(w) && BuyersApart(w)
    ensures BuyersApart(ProcessPayout(w, i, transfer, id).0)
  {
    var w' := ProcessPayout(w, i, transfer, id).0;
    if w'.ledger.rows != w.ledger.rows {
      KeepBuyersApart(w, w', id, ReleaseEntries(TermsOf(w, w.payouts[i])));
    }
  }

  lemma ForceApart(w: World, i: nat, transfer: Option<nat>, id: nat)
    requires AccountsSetUp(w) && BuyersApart(w)
    ensures BuyersApart(ForceRetry(w, i, transfer, id).0)
  {
    if i < |w.payouts| && w.payouts[i].row.status.Failed? {
      var reset := w.payouts[i].(row := w.payouts[i].row.(attempts := 0));
      ProcessApart(w.(payouts := w.payouts[i := reset]), i, transfer, id);
    }
  }

  lemma ReverseApart(w: World, i: nat, stripeOk: bool, id: nat)
    requires AccountsSetUp(w) && BuyersApart(w)
    ensures BuyersApart(ReversePayout(w, i, stripeOk, id).0)
  {
    var w' := ReversePayout(w, i, stripeOk, id).0;
    if w'.ledger.rows != w.ledger.rows {
      KeepBuyersApart(w, w', id, ReversalEntries(TermsOf(w, w.payouts[i])));
    }
  }

  ghost predicate DeskOk(d: Desk) {
    Inv(d.world) && BuyersApart(d.world)
  }

  lemma KeepRefundBuyer(w: World, dispute: Dispute, id: nat)
    requires Inv(w) && BuyersApart(w)
    ensures Inv(RefundBuyer(w, dispute, id).0) && BuyersApart(RefundBuyer(w, dispute, id).0)
    ensures RefundBuyer(w, dispute, id).0.platform == w.platform
  {
    var buyer := Buyer(w, dispute.tx);
    if buyer.Some? {
      var op := Op.Refund(buyer.value, dispute.amount, id);
      assert FirstDebit(w.ledger.rows, dispute.tx) != Some(w.platform);
      Keep(w, op);
      OpBuyersApart(w, op);
      assert RefundBuyer(w, dispute, id).0 == Payouts.Apply(w, op);
    }
  }

  lemma KeepOp(w: World, op: Op)
    requires Inv(w) && BuyersApart(w) && BuyerApart(w, op)
    ensures Inv(Payouts.Apply(w, op)) && BuyersApart(Payouts.Apply(w, op))
        && Payouts.Apply(w, op).platform == w.platform
  {
    SamePlatform(w, op);
    Keep(w, op);
    OpBuyersApart(w, op);
  }

  lemma KeepTakeBack(d: Desk, k: nat, stripeOk: bool, id: nat)
    requires DeskOk(d) && k < |d.disputes|
    ensures Inv(TakeBack(d, k, stripeOk, id).0) && BuyersApart(TakeBack(d, k, stripeOk, id).0)
    ensures TakeBack(d, k, stripeOk, id).0.platform == d.world.platform
  {
    if Reverses(d, k) {
      KeepOp(d.world, Op.Against(Against(d, k).value, stripeOk, id));
    }
  }

  lemma KeepLose(d: Desk, k: nat, stripeOk: bool, id: nat)
    requires DeskOk(d)
    ensures DeskOk(ResolveLost(d, k, stripeOk, id).0)
        && ResolveLost(d, k, stripeOk, id).0.world.platform == d.world.platform
  {
    if k < |d.disputes| {
      KeepTakeBack(d, k, stripeOk, id);
    }
  }

  lemma KeepGiveBack(d: Desk, k: nat, stripeOk: bool, id: nat)
    requires DeskOk(d)
    ensures DeskOk(ResolveRefunded(d, k, stripeOk, id).0)
        && ResolveRefunded(d, k, stripeOk, id).0.world.platform == d.world.platform
  {
    if k < |d.disputes| {
      KeepTakeBack(d, k, stripeOk, id);
      KeepRefundBuyer(TakeBack(d, k, stripeOk, id).0, d.disputes[k], if Reverses(d, k) then id + 1 else id);
    }
  }

  lemma KeepDesk(d: Desk, op: DeskOp)
    requires DeskOk(d) && (op.Other? ==> BuyerApart(d.world, op.op))
    ensures DeskOk(Act(d, op).0) && Act(d, op).0.world.platform == d.world.platform
  {
    match op {
      case Other(o) => KeepOp(d.world, o);
      case Lose(k, stripeOk, id) => KeepLose(d, k, stripeOk, id);
      case GiveBack(k, stripeOk, id) => KeepGiveBack(d, k, stripeOk, id);
      case _ => KeepStatusOnly(d, op);
    }
  }

  /** Opening, reviewing and winning move no money and make no payout PAID. */
  lemma KeepStatusOnly(d: Desk, op: DeskOp)
    requires DeskOk(d) && (op.Open? || op.Review? || op.Win?)
    ensures DeskOk(Act(d, op).0) && Act(d, op).0.world.platform == d.world.platform
  {
    var w' := Act(d, op).0.world;
    if op.Open? && w' != d.world {
      KeepSetStatus(d.world, FirstFrom(d.world.payouts, 0, Freezable(op.tx)).value, P.Pending);
    }
    if op.Win? && w' != d.world {
      KeepSetStatus(d.world, d.disputes[op.k].payout.value, P.Eligible);
    }
  }

  predicate OthersApart(d: Desk, ops: seq<DeskOp>) {
    forall i :: 0 <= i < |ops| && ops[i].Other? ==> BuyerApart(d.world, ops[i].op)
  }

  lemma {:induction false} KeepDeskAll(d: Desk, ops: seq<DeskOp>)
    requires DeskOk(d) && OthersApart(d, ops)
    ensures DeskOk(Run(d, ops)) && Run(d, ops).world.platform == d.world.platform
    decreases |ops|
  {
    if ops != [] {
      KeepDesk(d, ops[0]);
      assert forall i :: 0 <= i < |ops[1..]| ==> ops[1..][i] == ops[i + 1];
      KeepDeskAll(Act(d, ops[0]).0, ops[1..]);
    }
  }

  /**
   With disputes opened, won, lost and refunded in any order, the fee account still
   holds exactly the fees of the PAID payouts.
   */
  lemma FeesExactWithDisputes(d: Desk, ops: seq<DeskOp>)
    requires Fresh(d.world) && BuyersApart(d.world) && OthersApart(d, ops)
    ensures Balance(Run(d, ops).world.ledger.rows, d.world.platform) == PaidFees(Run(d, ops).world.payouts)
  {
    KeepDeskAll(d, ops);
  }
}
