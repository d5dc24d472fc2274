/**
 The two models of processPayout agree: a worker of PayoutMachine that nobody
 disturbs ends with the row, and the number of releases, of the serial call.
 */
module PayoutLink {
  import opened Wrappers
  import L = Ledger
  import opened PayoutMachine
  import opened PayoutSafety
  import W = Payouts
  import U = PayoutUniqueness

  /** What the seller record, the index, the escrow balance, Stripe and the ledger answer in turn. */
  datatype Answers = Answers(account: bool, index: bool, escrow: bool, stripe: bool, ledger: bool)

  /** The control state of a worker that has run undisturbed from its read to its end, and what it leaves behind. */
  lemma RunsToEnd(s: State, a: Answers) returns (acts: seq<Action>, z: State)
    ensures Feasible(s, acts) && Exec(s, acts) == z && z.workers == s.workers + [Finished]
    ensures !(Allowed(s.row.status, Processing) && a.account && (a.index || !s.row.status.Failed?)) ==>
              z.row == s.row && z.released == s.released
    ensures Allowed(s.row.status, Processing) && a.account && (a.index || !s.row.status.Failed?) ==>
              var claimed := s.row.(status := Processing, attempts := s.row.attempts + 1);
              if !a.escrow || !a.stripe then z.row == claimed.(status := Failed) && z.released == s.released
              else
                var sent := claimed.(transferId := Some(Charge(s, s.row.attempts + 1).1));
                && z.row == sent.(status := if a.ledger then Paid else Failed)
                && z.released == s.released + (if a.ledger then 1 else 0)
                && z.transfers == Charge(s, s.row.attempts + 1).0.transfers
  {
    Snoc(s, [], Spawn(Read));
    assert [] + [Spawn(Read)] == [Spawn(Read)];
    acts := [Spawn(Read)];
    if !(Allowed(s.row.status, Processing) && a.account) {
      acts, z := Last(s, acts, s, Read, a.account, s.(workers := s.workers + [Finished]));
      return;
    }
    acts, z := Last(s, acts, s, Read, true, s.(workers := s.workers + [Claim(s.row)]));
    if !(a.index || !s.row.status.Failed?) {
      acts, z := Last(s, acts, s, Claim(s.row), a.index, s.(workers := s.workers + [Finished]));
      return;
    }
    var c := s.(row := s.row.(status := Processing, attempts := s.row.attempts + 1));
    acts, z := Last(s, acts, s, Claim(s.row), a.index, c.(workers := s.workers + [Escrow(s.row)]));
    if !a.escrow {
      acts, z := Fails(s, acts, c, Escrow(s.row), false);
      return;
    }
    acts, z := Last(s, acts, c, Escrow(s.row), true, c.(workers := s.workers + [Transfer(s.row)]));
    if !a.stripe {
      acts, z := Fails(s, acts, c, Transfer(s.row), false);
      return;
    }
    acts, z := Books(s, acts, c, a.ledger);
  }

  /** One more step of the last worker. */
  lemma Last(s: State, acts: seq<Action>, c: State, k: Worker, ok: bool, c': State)
      returns (acts': seq<Action>, z: State)
    requires Feasible(s, acts) && Exec(s, acts) == c.(workers := c.workers + [k]) && Live(k) && !k.GateCheck?
    requires RunStep(c.(workers := c.workers + [k]), |c.workers|, ok) == c'
    ensures Feasible(s, acts') && Exec(s, acts') == c' == z
  {
    LastMoves(s, acts, c, k, ok, c');
    acts', z := acts + [Run(|c.workers|, ok)], c';
  }

  /** A step that is refused, and the FAILED status written after it. */
  lemma Fails(s: State, acts: seq<Action>, c: State, k: Worker, ok: bool) returns (acts': seq<Action>, z: State)
    requires Feasible(s, acts) && Exec(s, acts) == c.(workers := c.workers + [k])
    requires !ok && (k.Escrow? || k.Transfer? || k.Release?)
    ensures Feasible(s, acts') && Exec(s, acts') == z
    ensures z == c.(workers := c.workers + [Finished], row := c.row.(status := Failed))
  {
    var a1, z1 := Last(s, acts, c, k, ok, c.(workers := c.workers + [MarkFailed]));
    var d := c.(row := c.row.(status := Failed));
    acts', z := Last(s, a1, c, MarkFailed, true, d.(workers := c.workers + [Finished]));
  }

  /** From an accepted transfer to the final status. */
  lemma Books(s: State, acts: seq<Action>, c: State, ledger: bool) returns (acts': seq<Action>, z: State)
    requires c.row.attempts == s.row.attempts + 1 && c.transfers == s.transfers && c.nextTransfer == s.nextTransfer
    requires Feasible(s, acts) && Exec(s, acts) == c.(workers := c.workers + [Transfer(s.row)])
    ensures Feasible(s, acts') && Exec(s, acts') == z && z.workers == c.workers + [Finished]
    ensures z.row ==
        c.row.(transferId := Some(Charge(s, s.row.attempts + 1).1), status := if ledger then Paid else Failed)
    ensures z.released == c.released + if ledger then 1 else 0
    ensures z.transfers == Charge(s, s.row.attempts + 1).0.transfers
  {
    var (d, id) := Charge(c, s.row.attempts + 1);
    var a1, z1 := Last(s, acts, c, Transfer(s.row), true, d.(workers := c.workers + [Persist(id)]));
    var e := d.(row := d.row.(transferId := Some(id)));
    var a2, z2 := Last(s, a1, d, Persist(id), true, e.(workers := c.workers + [Release]));
    acts', z := Posts(s, a2, e, ledger);
  }

  /** From the recorded transfer to the final status. */
  lemma Posts(s: State, acts: seq<Action>, e: State, ledger: bool) returns (acts': seq<Action>, z: State)
    requires Feasible(s, acts) && Exec(s, acts) == e.(workers := e.workers + [Release])
    ensures Feasible(s, acts') && Exec(s, acts') == z && z.workers == e.workers + [Finished]
    ensures z.row == e.row.(status := if ledger then Paid else Failed)
    ensures z.released == e.released + if ledger then 1 else 0
    ensures z.transfers == e.transfers
  {
    if ledger {
      var f := e.(released := e.released + 1);
      var a1, z1 := Last(s, acts, e, Release, true, f.(workers := e.workers + [MarkPaid]));
      var g := f.(row := f.row.(status := Paid));
      acts', z := Last(s, a1, f, MarkPaid, true, g.(workers := e.workers + [Finished]));
    } else {
      acts', z := Fails(s, acts, e, Release, false);
    }
  }

  // ---- Against the serial call ----

  /** The answers the tables give. */
  function AnswersOf(w: W.World, i: nat, transfer: Option<nat>, id: nat): Answers
    requires i < |w.payouts|
  {
    var p := w.payouts[i];
    Answers(
      p.seller in w.sellers && w.sellers[p.seller].hasStripe,
      !W.ClaimRefused(w, i),
      L.Balance(w.ledger.rows, w.escrow) >= p.amount,
      transfer.Some?,
      p.seller in w.sellers && L.AtomicRelease(w.ledger, W.TermsOf(w, p), id).Ok?)
  }

  /**
   An undisturbed worker that gets the tables' answers ends with the row that the
   serial call leaves, and posts a release exactly when that call does.
   */
  lemma WorkerIsCall(s: State, w: W.World, i: nat, transfer: Option<nat>, id: nat) returns (acts: seq<Action>)
    requires i < |w.payouts| && s.row == w.payouts[i].row && U.OneIndexed(w)
    requires transfer.Some? ==> transfer.value == Charge(s, s.row.attempts + 1).1
    ensures Feasible(s, acts) && Exec(s, acts).workers == s.workers + [Finished]
    ensures Exec(s, acts).row == W.ProcessPayout(w, i, transfer, id).0.payouts[i].row
    ensures Exec(s, acts).released == s.released + if W.ProcessPayout(w, i, transfer, id).1.Done? then 1 else 0
  {
    var z;
    acts, z := RunsToEnd(s, AnswersOf(w, i, transfer, id));
  }

  // ---- The gate and the reversal ----

  /** An undisturbed gate worker that reads the seller's facts leaves the row of markEligible. */
  lemma GateIsCall(s: State, w: W.World, i: nat, decision: Decision) returns (acts: seq<Action>)
    requires i < |w.payouts| && s.row == w.payouts[i].row && w.payouts[i].seller in w.sellers
    ensures Feasible(s, acts) && Exec(s, acts).workers == s.workers + [Finished]
    ensures Exec(s, acts).row == W.MarkEligible(w, i, decision).0.payouts[i].row
  {
    var seller := w.sellers[w.payouts[i].seller];
    var f := Facts(seller.payoutsEnabled, seller.payoutsBlocked, L.Balance(w.ledger.rows, seller.account), decision);
    var n := |s.workers|;
    Snoc(s, [], Spawn(GateRead));
    assert [] + [Spawn(GateRead)] == [Spawn(GateRead)];
    acts := [Spawn(GateRead)];
    var z;
    if !s.row.status.Pending? {
      acts, z := Last(s, acts, s, GateRead, true, s.(workers := s.workers + [Finished]));
      return;
    }
    acts, z := Last(s, acts, s, GateRead, true, s.(workers := s.workers + [GateCheck]));
    Snoc(s, acts, Gate(n, f));
    acts := acts + [Gate(n, f)];
    if Passes(f) {
      assert Exec(s, acts) == s.(workers := s.workers + [GateGrant(f)]);
      acts, z := Last(s, acts, s, GateGrant(f), true,
        s.(workers := s.workers + [Finished], row := s.row.(status := Eligible), grant := Some(ByGate(f))));
    } else {
      assert Exec(s, acts) == s.(workers := s.workers + [Finished]);
    }
  }

  /** An undisturbed reversal worker leaves the row of reversePayout, and posts exactly when it does. */
  lemma ReversalIsCall(s: State, w: W.World, i: nat, stripeOk: bool, id: nat) returns (acts: seq<Action>)
    requires i < |w.payouts| && s.row == w.payouts[i].row && w.payouts[i].seller in w.sellers
    ensures Feasible(s, acts) && Exec(s, acts).workers == s.workers + [Finished]
    ensures Exec(s, acts).row == W.ReversePayout(w, i, stripeOk, id).0.payouts[i].row
    ensures Exec(s, acts).reversed == s.reversed + if W.ReversePayout(w, i, stripeOk, id).1.Done? then 1 else 0
  {
    var posts := L.AtomicReversal(w.ledger, W.TermsOf(w, w.payouts[i]), id).Ok?;
    Snoc(s, [], Spawn(ReversalRead));
    assert [] + [Spawn(ReversalRead)] == [Spawn(ReversalRead)];
    acts := [Spawn(ReversalRead)];
    var z;
    var gone := s.(workers := s.workers + [Finished]);
    if !s.row.status.Paid? {
      acts, z := Last(s, acts, s, ReversalRead, true, gone);
      return;
    }
    acts, z := Last(s, acts, s, ReversalRead, true, s.(workers := s.workers + [ReversalStripe]));
    if s.row.transferId.Some? && !stripeOk {
      acts, z := Last(s, acts, s, ReversalStripe, false, gone);
      return;
    }
    acts, z := Last(s, acts, s, ReversalStripe, stripeOk, s.(workers := s.workers + [ReversalLedger]));
    acts, z := ReversalPosts(s, acts, posts);
  }

  /** From the reversal at Stripe to the final status. */
  lemma ReversalPosts(s: State, acts: seq<Action>, posts: bool) returns (acts': seq<Action>, z: State)
    requires Feasible(s, acts) && Exec(s, acts) == s.(workers := s.workers + [ReversalLedger])
    ensures Feasible(s, acts') && Exec(s, acts') == z && z.workers == s.workers + [Finished]
    ensures z.row == if posts then s.row.(status := Reversed) else s.row
    ensures z.reversed == s.reversed + if posts then 1 else 0
  {
    if !posts {
      acts', z := Last(s, acts, s, ReversalLedger, false, s.(workers := s.workers + [Finished]));
    } else {
      var p := s.(reversed := s.reversed + 1);
      var a1, z1 := Last(s, acts, s, ReversalLedger, true, p.(workers := s.workers + [ReversalMark]));
      var e := p.(row := p.row.(status := Reversed));
      acts', z := Last(s, a1, p, ReversalMark, true, e.(workers := s.workers + [Finished]));
    }
  }
}
