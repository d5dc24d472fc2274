/**
 Payouts and the ledger together, one call at a time: what each call of the
 payout and dispute services does to the tables, and what the fee account then
 holds.  Outside answers (Stripe, the fraud engine, fresh row ids) are arguments.
 */
module Payouts {
  import opened Wrappers
  import opened Ledger
  import opened Money
  import P = PayoutMachine

  datatype Seller = Seller(account: int, hasStripe: bool, payoutsEnabled: bool, payoutsBlocked: bool,
      negativeBalance: nat)

  datatype Payout = Payout(row: P.Row, amount: int, fee: int, sellerAmount: int, tx: nat, seller: nat)

  /** `escrow` and `platform` are the accounts every payout is created with. */
  datatype World = World(ledger: Tables, sellers: map<nat, Seller>, payouts: seq<Payout>, escrow: int, platform: int)

  datatype Reply =
    | Done
    | BadRequest
    | NotFound
    | Conflict
    | SellerBlocked
    | FraudBlocked
    | InsufficientEscrow
    | StripeFailed
    | LedgerFailed(error: LedgerError)

  function TermsOf(w: World, p: Payout): Terms
    requires p.seller in w.sellers
  {
    Terms(p.amount, p.fee, p.sellerAmount, w.escrow, w.sellers[p.seller].account, w.platform)
  }

  function SetStatus(w: World, i: nat, status: P.Status): World
    requires i < |w.payouts|
  {
    w.(payouts := w.payouts[i := w.payouts[i].(row := w.payouts[i].row.(status := status))])
  }

  // ---- The calls ----

  /** An absent or zero percentage means 5. */
  function Percent(p: Option<real>): real {
    if p.None? || p.value == 0.0 then 5.0 else p.value
  }

  /** The rows of the database's partial unique index: at most one per transaction. */
  predicate Indexed(p: Payout) {
    p.row.status.Pending? || p.row.status.Eligible? || p.row.status.Processing?
  }

  predicate Blocks(p: Payout, tx: nat) {
    p.tx == tx && (p.row.status.Paid? || Indexed(p))
  }

  /** The claim would give the transaction a second row in that index. */
  predicate ClaimRefused(w: World, i: nat)
    requires i < |w.payouts|
  {
    exists j :: 0 <= j < |w.payouts| && j != i && w.payouts[j].tx == w.payouts[i].tx && Indexed(w.payouts[j])
  }

  function CreatePayout(w: World, tx: nat, seller: nat, amount: int, percent: Option<real>): (World, Reply) {
    if amount < 0 then (w, BadRequest)
    else if exists i :: 0 <= i < |w.payouts| && Blocks(w.payouts[i], tx) then (w, BadRequest)
    else if seller !in w.sellers then (w, NotFound)
    else if tx !in w.ledger.txs || w.ledger.txs[tx].status != Completed then (w, BadRequest)
    else match StoredFee(amount, Percent(percent))
      case None => (w, BadRequest)
      case Some((fee, sellerAmount)) =>
        (w.(payouts := w.payouts + [Payout(P.Row(P.Pending, 0, 3, None), amount, fee, sellerAmount, tx, seller)]), Done)
  }

  function MarkEligible(w: World, i: nat, decision: P.Decision): (World, Reply) {
    if i >= |w.payouts| then (w, NotFound)
    else
      var p := w.payouts[i];
      if !P.Allowed(p.row.status, P.Eligible) then (w, BadRequest)
      else if p.seller !in w.sellers || !w.sellers[p.seller].payoutsEnabled then (w, BadRequest)
      else if w.sellers[p.seller].payoutsBlocked then (w, SellerBlocked)
      else if Balance(w.ledger.rows, w.sellers[p.seller].account) < 0 then (w, SellerBlocked)
      else if decision.Block? then (w, FraudBlocked)
      else (SetStatus(w, i, P.Eligible), Done)
  }

  /** `transfer` is the transfer Stripe made, if it made one; `id` the next Transaction id. */
  function ProcessPayout(w: World, i: nat, transfer: Option<nat>, id: nat): (World, Reply) {
    if i >= |w.payouts| then (w, NotFound)
    else
      var p := w.payouts[i];
      if !P.Allowed(p.row.status, P.Processing) then (w, BadRequest)
      else if p.seller !in w.sellers || !w.sellers[p.seller].hasStripe then (w, BadRequest)
      else if ClaimRefused(w, i) then (w, Conflict)
      else
        var claimed := p.row.(status := P.Processing, attempts := p.row.attempts + 1);
        var w1 := w.(payouts := w.payouts[i := p.(row := claimed)]);
        if Balance(w.ledger.rows, w.escrow) < p.amount then (SetStatus(w1, i, P.Failed), InsufficientEscrow)
        else if transfer.None? then (SetStatus(w1, i, P.Failed), StripeFailed)
        else
          var w2 := w.(payouts := w.payouts[i := p.(row := claimed.(transferId := transfer))]);
          match AtomicRelease(w.ledger, TermsOf(w, p), id)
          case Err(e) => (SetStatus(w2, i, P.Failed), LedgerFailed(e))
          case Ok(l) => (SetStatus(w2, i, P.Paid).(ledger := l), Done)
  }

  function RetryPayout(w: World, i: nat, transfer: Option<nat>, id: nat): (World, Reply) {
    if i >= |w.payouts| then (w, NotFound)
    else if w.payouts[i].row.attempts >= w.payouts[i].row.maxAttempts then (w, BadRequest)
    else ProcessPayout(w, i, transfer, id)
  }

  function ForceRetry(w: World, i: nat, transfer: Option<nat>, id: nat): (World, Reply) {
    if i >= |w.payouts| then (w, NotFound)
    else if !w.payouts[i].row.status.Failed? then (w, BadRequest)
    else
      var reset := w.payouts[i].(row := w.payouts[i].row.(attempts := 0));
      ProcessPayout(w.(payouts := w.payouts[i := reset]), i, transfer, id)
  }

  function ReversePayout(w: World, i: nat, stripeOk: bool, id: nat): (World, Reply) {
    if i >= |w.payouts| then (w, NotFound)
    else
      var p := w.payouts[i];
      if !p.row.status.Paid? then (w, BadRequest)
      else if p.seller !in w.sellers then (w, NotFound)
      else if p.row.transferId.Some? && !stripeOk then (w, StripeFailed)
      else match AtomicReversal(w.ledger, TermsOf(w, p), id)
        case Err(e) => (w, LedgerFailed(e))
        case Ok(l) => (SetStatus(w, i, P.Reversed).(ledger := l), Done)
  }

  /** The seller whose balance went below zero is blocked. */
  function BlockIfNegative(w: World, s: nat): World {
    if s !in w.sellers then w
    else
      var balance := Balance(w.ledger.rows, w.sellers[s].account);
      if balance >= 0 then w
      else w.(sellers := w.sellers[s := w.sellers[s].(negativeBalance := -balance, payoutsBlocked := true)])
  }

  /** A dispute decided against the seller of a PAID payout: reversal, then the balance check. */
  function DecideAgainst(w: World, i: nat, stripeOk: bool, id: nat): (World, Reply) {
    var (w', reply) := ReversePayout(w, i, stripeOk, id);
    if reply.Done? then (BlockIfNegative(w', w'.payouts[i].seller), Done) else (w', reply)
  }

  // ---- The fee account ----

  /** The fees of the payouts that are PAID. */
  function PaidFees(ps: seq<Payout>): int {
    if ps == [] then 0 else (if ps[0].row.status.Paid? then ps[0].fee else 0) + PaidFees(ps[1..])
  }

  lemma {:induction false} PaidFeesUpdate(ps: seq<Payout>, i: nat, p: Payout)
    requires i < |ps|
    ensures PaidFees(ps[i := p]) == PaidFees(ps) - (if ps[i].row.status.Paid? then ps[i].fee else 0)
        + (if p.row.status.Paid? then p.fee else 0)
  {
    if i == 0 {
      assert ps[0 := p][1..] == ps[1..];
    } else {
      assert ps[i := p][1..] == ps[1..][i - 1 := p];
      PaidFeesUpdate(ps[1..], i - 1, p);
    }
  }

  lemma {:induction false} PaidFeesAppend(ps: seq<Payout>, p: Payout)
    requires !p.row.status.Paid?
    ensures PaidFees(ps + [p]) == PaidFees(ps)
  {
    if ps == [] {
      assert ps + [p] == [p] && [p][1..] == [];
    } else {
      assert (ps + [p])[1..] == ps[1..] + [p];
      PaidFeesAppend(ps[1..], p);
    }
  }

  lemma {:induction false} PaidFeesCover(ps: seq<Payout>, i: nat)
    requires i < |ps| && ps[i].row.status.Paid?
    requires forall k :: 0 <= k < |ps| && ps[k].row.status.Paid? ==> ps[k].fee >= 0
    ensures PaidFees(ps) >= ps[i].fee
  {
    assert forall k :: 0 <= k < |ps[1..]| ==> ps[1..][k] == ps[k + 1];
    if i > 0 {
      PaidFeesCover(ps[1..], i - 1);
    } else {
      PaidFeesNonNegative(ps[1..]);
    }
  }

  lemma {:induction false} PaidFeesNonNegative(ps: seq<Payout>)
    requires forall k :: 0 <= k < |ps| && ps[k].row.status.Paid? ==> ps[k].fee >= 0
    ensures PaidFees(ps) >= 0
  {
    if ps != [] {
      assert forall k :: 0 <= k < |ps[1..]| ==> ps[1..][k] == ps[k + 1];
      PaidFeesNonNegative(ps[1..]);
    }
  }

  /** What one release or one reversal does to each account's balance. */
  function Effect(p: Terms, a: int): int {
    (if a == p.escrow then -p.amount else 0) + (if a == p.seller then p.sellerAmount else 0)
        + (if a == p.platform then p.fee else 0)
  }

  lemma ReleasePosts(p: Terms, t: nat, a: int)
    ensures Balance(Post(t, ReleaseEntries(p)), a) == Effect(p, a)
    ensures Balance(Post(t, ReversalEntries(p)), a) == -Effect(p, a)
  {
    ThreeRows(t, ReleaseEntries(p), a);
    ThreeRows(t, ReversalEntries(p), a);
  }

  lemma ThreeRows(t: nat, es: seq<Entry>, a: int)
    requires |es| == 3
    ensures Balance(Post(t, es), a) ==
      (if es[0].account == a then Signed(es[0]) else 0) + (if es[1].account == a then Signed(es[1]) else 0)
          + (if es[2].account == a then Signed(es[2]) else 0)
  {
    var r0, r1, r2 := [Posted(t, es[0])], [Posted(t, es[1])], [Posted(t, es[2])];
    assert Post(t, es) == r0 + r1 + r2;
    TotalAppend(OfAccount(a), r0 + r1, r2);
    TotalAppend(OfAccount(a), r0, r1);
    assert r0[1..] == [] && r1[1..] == [] && r2[1..] == [];
  }

  /** A release and its later reversal cancel on every account, whatever was committed in between. */
  lemma ReleaseThenReversal(p: Terms, before: seq<Posted>, t: nat, between: seq<Posted>, u: nat, a: int)
    ensures Balance(before + Post(t, ReleaseEntries(p)) + between + Post(u, ReversalEntries(p)), a) ==
        Balance(before + between, a)
  {
    var release, reversal := Post(t, ReleaseEntries(p)), Post(u, ReversalEntries(p));
    TotalAppend(OfAccount(a), before + release + between, reversal);
    TotalAppend(OfAccount(a), before + release, between);
    TotalAppend(OfAccount(a), before, release);
    TotalAppend(OfAccount(a), before, between);
    ReleasePosts(p, t, a);
    ReleasePosts(p, u, a);
  }

  // ---- The invariant of serial runs ----

  /** Escrow, fee and seller accounts are different accounts; sellers may go negative, as they are registered. */
  predicate AccountsSetUp(w: World) {
    && w.escrow in w.ledger.accounts && w.platform in w.ledger.accounts && w.escrow != w.platform
    && forall s :: s in w.sellers ==>
         var a := w.sellers[s].account;
         a in w.ledger.accounts && w.ledger.accounts[a] && a != w.escrow && a != w.platform
  }

  ghost predicate Inv(w: World) {
    && AccountsSetUp(w)
    && Balance(w.ledger.rows, w.platform) == PaidFees(w.payouts)
    && (forall i :: 0 <= i < |w.payouts| ==> w.payouts[i].seller in w.sellers)
    && (forall i :: 0 <= i < |w.payouts| && w.payouts[i].row.status.Paid? ==>
        TermsError(TermsOf(w, w.payouts[i])).None?)
  }

  /** Ledger postings made by the rest of the system: payments and refunds between buyers and escrow. */
  datatype Op =
    | Create(tx: nat, seller: nat, amount: int, percent: Option<real>)
    | Gate(i: nat, decision: P.Decision)
    | Process(i: nat, transfer: Option<nat>, id: nat)
    | Retry(i: nat, transfer: Option<nat>, id: nat)
    | Force(i: nat, transfer: Option<nat>, id: nat)
    | Reverse(i: nat, stripeOk: bool, id: nat)
    | Against(i: nat, stripeOk: bool, id: nat)
    | Freeze(i: nat)
    | Unfreeze(i: nat)
    | Payment(t: nat, buyer: int, receiver: int, amount: int)
    | Refund(buyer: int, amount: int, id: nat)

  function PostOr(w: World, r: Result<Tables, LedgerError>): World {
    if r.Ok? then w.(ledger := r.value) else w
  }

  function Apply(w: World, op: Op): World {
    match op
    case Create(tx, seller, amount, percent) => CreatePayout(w, tx, seller, amount, percent).0
    case Gate(i, decision) => MarkEligible(w, i, decision).0
    case Process(i, transfer, id) => ProcessPayout(w, i, transfer, id).0
    case Retry(i, transfer, id) => RetryPayout(w, i, transfer, id).0
    case Force(i, transfer, id) => ForceRetry(w, i, transfer, id).0
    case Reverse(i, stripeOk, id) => ReversePayout(w, i, stripeOk, id).0
    case Against(i, stripeOk, id) => DecideAgainst(w, i, stripeOk, id).0
    case Freeze(i) => if i < |w.payouts| && w.payouts[i].row.status.Eligible? then SetStatus(w, i, P.Pending) else w
    case Unfreeze(i) => if i < |w.payouts| && w.payouts[i].row.status.Pending? then SetStatus(w, i, P.Eligible) else w
    case Payment(t, buyer, receiver, amount) =>
      PostOr(w, AtomicSettle(w.ledger, [Entry(buyer, amount, Debit), Entry(receiver, amount, Credit)], t))
    case Refund(buyer, amount, id) =>
      PostOr(w, AtomicCreate(w.ledger, [Entry(w.escrow, amount, Debit), Entry(buyer, amount, Credit)], None, id))
  }

  /** The buyer's side of a payment or refund is not the fee account. */
  predicate BuyerApart(w: World, op: Op) {
    && (op.Payment? ==> op.buyer != w.platform && op.receiver != w.platform)
    && (op.Refund? ==> op.buyer != w.platform)
  }

  lemma KeepSetStatus(w: World, i: nat, status: P.Status)
    requires Inv(w) && i < |w.payouts| && !w.payouts[i].row.status.Paid? && !status.Paid?
    ensures Inv(SetStatus(w, i, status))
  {
    PaidFeesUpdate(w.payouts, i, SetStatus(w, i, status).payouts[i]);
  }

  lemma KeepRelease(w: World, i: nat, row: P.Row, l: Tables, id: nat)
    requires Inv(w) && i < |w.payouts| && !w.payouts[i].row.status.Paid? && row.status.Paid?
    requires AtomicRelease(w.ledger, TermsOf(w, w.payouts[i]), id) == Ok(l)
    ensures Inv(w.(payouts := w.payouts[i := w.payouts[i].(row := row)], ledger := l))
  {
    var p := TermsOf(w, w.payouts[i]);
    PaidFeesUpdate(w.payouts, i, w.payouts[i].(row := row));
    TotalAppend(OfAccount(w.platform), w.ledger.rows, Post(id, ReleaseEntries(p)));
    ReleasePosts(p, id, w.platform);
  }

  lemma KeepProcess(w: World, i: nat, transfer: Option<nat>, id: nat)
    requires Inv(w)
    ensures Inv(ProcessPayout(w, i, transfer, id).0)
  {
    if i < |w.payouts| && P.Allowed(w.payouts[i].row.status, P.Processing) && w.sellers[w.payouts[i].seller].hasStripe
       && !ClaimRefused(w, i) {
      var p := w.payouts[i];
      var claimed := p.row.(status := P.Processing, attempts := p.row.attempts + 1);
      var w' := ProcessPayout(w, i, transfer, id).0;
      var row := w'.payouts[i].row;
      assert w'.payouts == w.payouts[i := w.payouts[i].(row := row)];
      if row.status.Paid? {
        KeepRelease(w, i, row, w'.ledger, id);
      } else {
        KeepRow(w, i, row);
      }
    }
  }

  lemma KeepRow(w: World, i: nat, row: P.Row)
    requires Inv(w) && i < |w.payouts| && !w.payouts[i].row.status.Paid? && !row.status.Paid?
    ensures Inv(w.(payouts := w.payouts[i := w.payouts[i].(row := row)]))
  {
    PaidFeesUpdate(w.payouts, i, w.payouts[i].(row := row));
  }

  lemma ReversalSums(p: Terms)
    ensures SideSum(Debit, ReversalEntries(p)) == p.sellerAmount + p.fee
        && SideSum(Credit, ReversalEntries(p)) == p.amount
    ensures p.seller != p.platform ==> DebitTotal(ReversalEntries(p), p.platform) == p.fee
  {
    var es := ReversalEntries(p);
    var last := [es[2]];
    var tail := [es[1], es[2]];
    assert es[1..] == tail && tail[1..] == last && last[1..] == [];
    assert last[0].side == Credit && SideSum(Debit, last) == 0 && SideSum(Credit, last) == p.amount
        && DebitTotal(last, p.platform) == 0;
    assert SideSum(Debit, tail) == p.fee && SideSum(Credit, tail) == p.amount && DebitTotal(tail, p.platform) == p.fee;
  }

  /**
   The ledger never refuses to reverse a PAID payout: the seller may go negative and
   the fee account still holds the fee.
   */
  lemma ReversalFunded(w: World, i: nat, id: nat)
    requires Inv(w) && i < |w.payouts| && w.payouts[i].row.status.Paid?
    ensures AtomicReversal(w.ledger, TermsOf(w, w.payouts[i]), id).Ok?
  {
    var p := TermsOf(w, w.payouts[i]);
    var es := ReversalEntries(p);
    ReversalSums(p);
    FirstBadFinds(es);
    assert Validate(es).None?;
    forall k | 0 <= k < |w.payouts| && w.payouts[k].row.status.Paid? ensures w.payouts[k].fee >= 0 {
      assert TermsError(TermsOf(w, w.payouts[k])).None?;
    }
    PaidFeesCover(w.payouts, i);
    var ids := DebitIds(es);
    forall k | 0 <= k < |ids| ensures FundsError(w.ledger, es, ids[k]).None? {
      assert ids[k] in ids;
      assert ids[k] == p.seller || ids[k] == p.platform;
    }
    FundsPass(w.ledger, es, ids);
  }

  lemma KeepReverse(w: World, i: nat, stripeOk: bool, id: nat)
    requires Inv(w)
    ensures Inv(ReversePayout(w, i, stripeOk, id).0)
  {
    if ReversePayout(w, i, stripeOk, id).1.Done? {
      var p := TermsOf(w, w.payouts[i]);
      var w' := ReversePayout(w, i, stripeOk, id).0;
      PaidFeesUpdate(w.payouts, i, w'.payouts[i]);
      TotalAppend(OfAccount(w.platform), w.ledger.rows, Post(id, ReversalEntries(p)));
      ReleasePosts(p, id, w.platform);
    }
  }

  lemma KeepTwoRows(w: World, l: Tables, t: nat, es: seq<Entry>)
    requires Inv(w) && |es| == 2 && es[0].account != w.platform && es[1].account != w.platform
    requires l.accounts == w.ledger.accounts && l.rows == w.ledger.rows + Post(t, es)
    ensures Inv(w.(ledger := l))
  {
    var r0, r1 := [Posted(t, es[0])], [Posted(t, es[1])];
    assert Post(t, es) == r0 + r1;
    TotalAppend(OfAccount(w.platform), w.ledger.rows, Post(t, es));
    TotalAppend(OfAccount(w.platform), r0, r1);
    assert r0[1..] == [] && r1[1..] == [];
  }

  lemma KeepForce(w: World, i: nat, transfer: Option<nat>, id: nat)
    requires Inv(w)
    ensures Inv(ForceRetry(w, i, transfer, id).0)
  {
    if i < |w.payouts| && w.payouts[i].row.status.Failed? {
      var reset := w.payouts[i].(row := w.payouts[i].row.(attempts := 0));
      PaidFeesUpdate(w.payouts, i, reset);
      KeepProcess(w.(payouts := w.payouts[i := reset]), i, transfer, id);
    }
  }

  lemma KeepCreate(w: World, tx: nat, seller: nat, amount: int, percent: Option<real>)
    requires Inv(w)
    ensures Inv(CreatePayout(w, tx, seller, amount, percent).0)
  {
    var ps := CreatePayout(w, tx, seller, amount, percent).0.payouts;
    if |ps| > |w.payouts| {
      PaidFeesAppend(w.payouts, ps[|w.payouts|]);
    }
  }

  /** Payments and refunds leave the fee account alone. */
  lemma KeepPosting(w: World, op: Op)
    requires Inv(w) && BuyerApart(w, op) && (op.Payment? || op.Refund?)
    ensures Inv(Apply(w, op))
  {
    match op {
      case Payment(t, buyer, receiver, amount) =>
        var es := [Entry(buyer, amount, Debit), Entry(receiver, amount, Credit)];
        if AtomicSettle(w.ledger, es, t).Ok? { KeepTwoRows(w, AtomicSettle(w.ledger, es, t).value, t, es); }
      case Refund(buyer, amount, id) =>
        var es := [Entry(w.escrow, amount, Debit), Entry(buyer, amount, Credit)];
        var r := AtomicCreate(w.ledger, es, None, id);
        if r.Ok? { KeepTwoRows(w, r.value, id, es); }
    }
  }

  lemma KeepStatusOp(w: World, op: Op)
    requires Inv(w) && (op.Gate? || op.Freeze? || op.Unfreeze?)
    ensures Inv(Apply(w, op))
  {
    if op.i < |w.payouts| && Apply(w, op) != w {
      KeepSetStatus(w, op.i, Apply(w, op).payouts[op.i].row.status);
    }
  }

  lemma Keep(w: World, op: Op)
    requires Inv(w) && BuyerApart(w, op)
    ensures Inv(Apply(w, op))
  {
    match op {
      case Create(tx, seller, amount, percent) => KeepCreate(w, tx, seller, amount, percent);
      case Process(i, transfer, id) => KeepProcess(w, i, transfer, id);
      case Retry(i, transfer, id) => KeepProcess(w, i, transfer, id);
      case Force(i, transfer, id) => KeepForce(w, i, transfer, id);
      case Reverse(i, stripeOk, id) => KeepReverse(w, i, stripeOk, id);
      case Against(i, stripeOk, id) => KeepReverse(w, i, stripeOk, id);
      case Payment(_, _, _, _) => KeepPosting(w, op);
      case Refund(_, _, _) => KeepPosting(w, op);
      case _ => KeepStatusOp(w, op);
    }
  }

  lemma SamePlatform(w: World, op: Op)
    ensures Apply(w, op).platform == w.platform
  {
  }

  function Run(w: World, ops: seq<Op>): World
    decreases |ops|
  {
    if ops == [] then w else Run(Apply(w, ops[0]), ops[1..])
  }

  lemma {:induction false} KeepAll(w: World, ops: seq<Op>)
    requires Inv(w) && forall k :: 0 <= k < |ops| ==> BuyerApart(w, ops[k])
    ensures Inv(Run(w, ops)) && Run(w, ops).platform == w.platform
    decreases |ops|
  {
    if ops != [] {
      Keep(w, ops[0]);
      SamePlatform(w, ops[0]);
      assert forall k :: 0 <= k < |ops[1..]| ==> ops[1..][k] == ops[k + 1];
      KeepAll(Apply(w, ops[0]), ops[1..]);
    }
  }

  /** A system with its accounts set up, no payouts yet and an empty fee account. */
  predicate Fresh(w: World) {
    AccountsSetUp(w) && w.payouts == [] && Balance(w.ledger.rows, w.platform) == 0
  }

  /** After any serial run the fee account holds exactly the fees of the PAID payouts. */
  lemma FeeAccountExact(w: World, ops: seq<Op>)
    requires Fresh(w) && forall k :: 0 <= k < |ops| ==> BuyerApart(w, ops[k])
    ensures Balance(Run(w, ops).ledger.rows, w.platform) == PaidFees(Run(w, ops).payouts)
  {
    KeepAll(w, ops);
  }

  /** So a PAID payout can always be reversed: the only thing that can stop it is Stripe. */
  lemma ReversalAlwaysPosts(w: World, ops: seq<Op>, i: nat, stripeOk: bool, id: nat)
    requires Fresh(w) && forall k :: 0 <= k < |ops| ==> BuyerApart(w, ops[k])
    requires i < |Run(w, ops).payouts| && Run(w, ops).payouts[i].row.status.Paid?
    ensures var p := Run(w, ops).payouts[i];
      ReversePayout(Run(w, ops), i, stripeOk, id).1 ==
        if p.row.transferId.Some? && !stripeOk then StripeFailed else Done
  {
    KeepAll(w, ops);
    ReversalFunded(Run(w, ops), i, id);
  }
}
