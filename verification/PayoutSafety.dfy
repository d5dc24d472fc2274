/** What every run of one payout guarantees, and the two things it does not. */
module PayoutSafety {
  import opened Wrappers
  import opened PayoutMachine
  import D = DisputeStates

  // ---- Guarantees of every reachable state ----

  /** Two live workers are never both between their claim and their final write. */
  lemma OneHolder(n: nat, acts: seq<Action>, v: nat, w: nat)
    requires Feasible(Created(n), acts)
    requires v < |Exec(Created(n), acts).workers| && w < |Exec(Created(n), acts).workers|
    requires Holding(Exec(Created(n), acts).workers[v]) && Holding(Exec(Created(n), acts).workers[w])
    ensures v == w && Exec(Created(n), acts).row.status == Processing
  {
    KeepAll(Created(n), acts);
    assert WorkerOk(Exec(Created(n), acts), Exec(Created(n), acts).workers[v]);
  }

  /** The ledger release of a payout is posted at most once, and exactly once for a payout that is or was PAID. */
  lemma ReleasedOnce(n: nat, acts: seq<Action>)
    requires Feasible(Created(n), acts)
    ensures var s := Exec(Created(n), acts);
      && s.released <= 1
      && (s.row.status.Paid? || s.row.status.Reversed? ==> s.released == 1)
      && (s.released == 1 ==> s.row.status.Paid? || s.row.status.Reversed? || s.row.status.Processing?)
  {
    KeepAll(Created(n), acts);
  }

  /** A FAILED payout without a transfer id never moved money: every FAILED one for which money moved shows it. */
  lemma FailureEvidence(n: nat, acts: seq<Action>)
    requires Feasible(Created(n), acts) && Exec(Created(n), acts).row.status.Failed?
    ensures Exec(Created(n), acts).row.transferId.None? <==> Exec(Created(n), acts).transfers == map[]
  {
    KeepAll(Created(n), acts);
    var s := Exec(Created(n), acts);
    if s.row.transferId.Some? {
      assert s.row.transferId.value in s.transfers.Values;
    }
  }

  /** A payout past PENDING was let through by the gate, or by a dispute attached to it and won. */
  lemma Provenance(n: nat, acts: seq<Action>)
    requires Feasible(Created(n), acts) && !Exec(Created(n), acts).row.status.Pending?
    ensures Exec(Created(n), acts).grant.Some?
    ensures match Exec(Created(n), acts).grant.value
      case ByGate(f) => f.payoutsEnabled && !f.payoutsBlocked && f.balance >= 0 && f.decision != Block
      case ByDispute(d) =>
        d < |Exec(Created(n), acts).disputes| && Exec(Created(n), acts).disputes[d] == Contest(D.WON, true)
  {
    KeepAll(Created(n), acts);
  }

  // ---- Status histories ----

  predicate PathStep(x: Status, y: Status) {
    x == y || Allowed(x, y) || (x.Eligible? && y.Pending?)
  }

  /** No step, by any worker at any time, leaves the transition table except the dispute freeze. */
  lemma StatusPath(s: State, a: Action)
    requires Inv(s) && Enabled(s, a)
    ensures PathStep(s.row.status, Step(s, a).row.status)
    ensures s.row.transferId.Some? ==> Step(s, a).row.transferId.Some?
  {
    if a.Run? {
      assert WorkerOk(s, s.workers[a.w]);
    }
  }

  /** What can be said of two readings of the same row, one later than the other. */
  predicate Evolves(r1: Row, r2: Row) {
    && (r1.status.Paid? ==> r2.status.Paid? || r2.status.Reversed?)
    && (r1.status.Reversed? ==> r2.status.Reversed?)
    && (r1.transferId.Some? ==> r2.transferId.Some?)
  }

  lemma {:induction false} Later(s: State, acts: seq<Action>)
    requires Inv(s) && Feasible(s, acts)
    ensures Evolves(s.row, Exec(s, acts).row)
    decreases |acts|
  {
    if acts != [] {
      StatusPath(s, acts[0]);
      Keep(s, acts[0]);
      Later(Step(s, acts[0]), acts[1..]);
    }
  }

  // ---- Retrying a payout for which money already moved ----

  predicate Idle(s: State) {
    forall v :: 0 <= v < |s.workers| ==> !Live(s.workers[v])
  }

  /** One undisturbed call of processPayout, up to the point where Stripe has accepted the transfer. */
  function Attempt(s: State): seq<Action> {
    var w := |s.workers|;
    [Spawn(Read), Run(w, true), Run(w, true), Run(w, true), Run(w, true)]
  }

  lemma {:induction false} Snoc(s: State, acts: seq<Action>, a: Action)
    requires Feasible(s, acts) && Enabled(Exec(s, acts), a)
    ensures Feasible(s, acts + [a]) && Exec(s, acts + [a]) == Step(Exec(s, acts), a)
    decreases |acts|
  {
    if acts == [] {
      assert [a][1..] == [];
    } else {
      assert (acts + [a])[1..] == acts[1..] + [a];
      Snoc(Step(s, acts[0]), acts[1..], a);
    }
  }

  lemma {:induction false} Chain(s: State, a: seq<Action>, b: seq<Action>)
    requires Feasible(s, a) && Feasible(Exec(s, a), b)
    ensures Feasible(s, a + b) && Exec(s, a + b) == Exec(Exec(s, a), b)
    decreases |a|
  {
    if a == [] {
      assert a + b == b;
    } else {
      assert (a + b)[1..] == a[1..] + b;
      Chain(Step(s, a[0]), a[1..], b);
    }
  }

  /** A run extended by one step of its last worker, whose new control state is k. */
  lemma LastMoves(s: State, acts: seq<Action>, z: State, k: Worker, ok: bool, z': State)
    requires Feasible(s, acts) && Exec(s, acts) == z.(workers := z.workers + [k]) && Live(k) && !k.GateCheck?
    requires RunStep(z.(workers := z.workers + [k]), |z.workers|, ok) == z'
    ensures Feasible(s, acts + [Run(|z.workers|, ok)]) && Exec(s, acts + [Run(|z.workers|, ok)]) == z'
  {
    Snoc(s, acts, Run(|z.workers|, ok));
  }

  lemma AttemptClaims(s: State) returns (acts: seq<Action>)
    requires Allowed(s.row.status, Processing)
    ensures acts == Attempt(s)[..3] && Feasible(s, acts)
    ensures Exec(s, acts) == s.(workers := s.workers + [Escrow(s.row)],
                                row := s.row.(status := Processing, attempts := s.row.attempts + 1))
  {
    var w := |s.workers|;
    acts := [Spawn(Read)];
    Snoc(s, [], Spawn(Read));
    assert [] + [Spawn(Read)] == acts;
    LastMoves(s, acts, s, Read, true, s.(workers := s.workers + [Claim(s.row)]));
    acts := acts + [Run(w, true)];
    var claimed := s.row.(status := Processing, attempts := s.row.attempts + 1);
    LastMoves(s, acts, s, Claim(s.row), true, s.(workers := s.workers + [Escrow(s.row)], row := claimed));
    acts := acts + [Run(w, true)];
  }

  lemma AttemptList(s: State)
    ensures Attempt(s)[..3] + [Run(|s.workers|, true)] + [Run(|s.workers|, true)] == Attempt(s)
  {
  }

  /** Where an undisturbed attempt on a FAILED payout ends. */
  lemma AttemptRuns(s: State)
    requires s.row.status.Failed?
    ensures Feasible(s, Attempt(s))
    ensures Exec(s, Attempt(s)).transfers == Charge(s, s.row.attempts + 1).0.transfers
  {
    var w := |s.workers|;
    var acts := AttemptClaims(s);
    var z := s.(row := s.row.(status := Processing, attempts := s.row.attempts + 1));
    LastMoves(s, acts, z, Escrow(s.row), true, z.(workers := s.workers + [Transfer(s.row)]));
    var (d, id) := Charge(z, s.row.attempts + 1);
    LastMoves(s, acts + [Run(w, true)], z, Transfer(s.row), true, d.(workers := s.workers + [Persist(id)]));
    AttemptList(s);
  }

  /**
   The idempotency key holds the attempt number, so a retry reaches the earlier
   transfer only if that number was already used; otherwise money moves again.
   */
  lemma RetryMovesAgainIff(s: State)
    requires s.row.status.Failed?
    ensures Feasible(s, Attempt(s))
    ensures s.row.attempts + 1 !in s.transfers <==> |Exec(s, Attempt(s)).transfers| == |s.transfers| + 1
    ensures s.row.attempts + 1 in s.transfers <==> Exec(s, Attempt(s)).transfers == s.transfers
  {
    AttemptRuns(s);
    var key := s.row.attempts + 1;
    assert key in Exec(s, Attempt(s)).transfers;
  }

  /**
   forceRetry starts the attempts over, so it reaches the transfer of the first
   attempt if there was one, and otherwise moves the money again.
   */
  lemma ForceMovesAgainIff(s: State) returns (acts: seq<Action>)
    requires s.row.status.Failed?
    ensures Feasible(s, acts) && acts == [Spawn(ForceRead), Run(|s.workers|, true), Run(|s.workers|, true)]
    ensures var z := Exec(s, acts);
      z == s.(workers := s.workers + [Read], row := z.row) && z.row == s.row.(attempts := 0)
    ensures Feasible(Exec(s, acts), Attempt(Exec(s, acts)))
    ensures 1 in s.transfers <==> Exec(Exec(s, acts), Attempt(Exec(s, acts))).transfers == s.transfers
  {
    Snoc(s, [], Spawn(ForceRead));
    assert [] + [Spawn(ForceRead)] == [Spawn(ForceRead)];
    acts := [Spawn(ForceRead)];
    LastMoves(s, acts, s, ForceRead, true, s.(workers := s.workers + [ForceReset]));
    acts := acts + [Run(|s.workers|, true)];
    var z := s.(workers := s.workers + [Read], row := s.row.(attempts := 0));
    LastMoves(s, acts, s, ForceReset, true, z);
    acts := acts + [Run(|s.workers|, true)];
    RetryMovesAgainIff(z);
  }

  /** retryPayout goes on to processPayout exactly below the attempt limit. */
  lemma RetryGoesOnIff(s: State, w: nat)
    requires w < |s.workers| && s.workers[w].RetryRead?
    ensures RunStep(s, w, true) == s.(workers := s.workers[w := RunStep(s, w, true).workers[w]])
    ensures RunStep(s, w, true).workers[w] == Read <==> s.row.attempts < s.row.maxAttempts
    ensures RunStep(s, w, true).workers[w] == Finished <==> s.row.attempts >= s.row.maxAttempts
  {
  }

  predicate NoForce(acts: seq<Action>) {
    forall i :: 0 <= i < |acts| ==> acts[i] != Spawn(ForceRead)
  }

  /** Without forceRetry the attempt counter never goes back, so no key is ever drawn twice in a row of retries. */
  ghost predicate KeysBelow(s: State) {
    && (forall k :: k in s.transfers ==> k <= s.row.attempts)
    && (forall v :: 0 <= v < |s.workers| ==> KeyBelow(s.workers[v], s.row.attempts))
  }

  predicate KeyBelow(k: Worker, attempts: nat) {
    match k
    case Claim(seen) => seen.attempts <= attempts
    case Escrow(seen) => seen.attempts < attempts
    case Transfer(seen) => seen.attempts < attempts
    case ForceRead => false
    case ForceReset => false
    case _ => true
  }

  lemma KeepKeys(s: State, a: Action)
    requires KeysBelow(s) && Enabled(s, a) && a != Spawn(ForceRead)
    ensures KeysBelow(Step(s, a))
  {
    if a.Run? {
      KeepKeysRun(s, a.w, a.ok);
    }
  }

  lemma KeepKeysRun(s: State, w: nat, ok: bool)
    requires KeysBelow(s) && w < |s.workers|
    ensures KeysBelow(RunStep(s, w, ok))
  {
    assert KeyBelow(s.workers[w], s.row.attempts);
    var s' := RunStep(s, w, ok);
    assert s'.row.attempts >= s.row.attempts && KeyBelow(s'.workers[w], s'.row.attempts);
    assert forall v :: 0 <= v < |s.workers| && v != w ==> s'.workers[v] == s.workers[v];
  }

  lemma {:induction false} KeepKeysAll(s: State, acts: seq<Action>)
    requires KeysBelow(s) && Feasible(s, acts) && NoForce(acts)
    ensures KeysBelow(Exec(s, acts))
    decreases |acts|
  {
    if acts != [] {
      KeepKeys(s, acts[0]);
      assert forall i :: 0 <= i < |acts[1..]| ==> acts[1..][i] == acts[i + 1];
      KeepKeysAll(Step(s, acts[0]), acts[1..]);
    }
  }

  /**
   A plain retry never reaches the earlier transfer: of a FAILED payout that
   carries a transfer id, it moves the money a second time whenever Stripe accepts.
   */
  lemma RetryPaysAgain(n: nat, acts: seq<Action>)
    requires Feasible(Created(n), acts) && NoForce(acts)
    requires var s := Exec(Created(n), acts); s.row.status.Failed? && s.row.transferId.Some?
    ensures var s := Exec(Created(n), acts);
      Feasible(s, Attempt(s)) && |s.transfers| >= 1 && |Exec(s, Attempt(s)).transfers| == |s.transfers| + 1
  {
    KeepAll(Created(n), acts);
    KeepKeysAll(Created(n), acts);
    var s := Exec(Created(n), acts);
    assert s.row.transferId.value in s.transfers.Values;
    RetryMovesAgainIff(s);
  }

  /** The discipline that would prevent it: never claim a payout that already carries a transfer id. */
  predicate CleanClaims(s: State, acts: seq<Action>)
    requires Feasible(s, acts)
    decreases |acts|
  {
    acts == [] ||
    ((acts[0].Run? && s.workers[acts[0].w].Claim? ==> s.row.transferId.None?)
        && CleanClaims(Step(s, acts[0]), acts[1..]))
  }

  ghost predicate OneTransfer(s: State) {
    && |s.transfers| <= 1
    && (s.transfers != map[] ==>
          forall v :: 0 <= v < |s.workers| ==> !s.workers[v].Escrow? && !s.workers[v].Transfer?)
  }

  lemma KeepOneTransfer(s: State, a: Action)
    requires Inv(s) && OneTransfer(s) && Enabled(s, a)
    requires a.Run? && s.workers[a.w].Claim? ==> s.row.transferId.None?
    ensures OneTransfer(Step(s, a))
  {
    if a.Run? {
      assert WorkerOk(s, s.workers[a.w]);
    }
  }

  lemma {:induction false} KeepOneTransferAll(s: State, acts: seq<Action>)
    requires Inv(s) && OneTransfer(s) && Feasible(s, acts) && CleanClaims(s, acts)
    ensures OneTransfer(Exec(s, acts))
    decreases |acts|
  {
    if acts != [] {
      KeepOneTransfer(s, acts[0]);
      Keep(s, acts[0]);
      KeepOneTransferAll(Step(s, acts[0]), acts[1..]);
    }
  }

  /** Under that discipline money moves at most once, whatever the interleaving and the crashes. */
  lemma PaidOutOnce(n: nat, acts: seq<Action>)
    requires Feasible(Created(n), acts) && CleanClaims(Created(n), acts)
    ensures |Exec(Created(n), acts).transfers| <= 1
  {
    KeepOneTransferAll(Created(n), acts);
  }

  // ---- Runs that end badly ----

  /** A worker takes a PENDING payout through the gate. */
  lemma GatePasses(s: State, acts: seq<Action>, f: Facts) returns (acts': seq<Action>)
    requires Feasible(s, acts) && Exec(s, acts).row.status.Pending? && Passes(f)
    ensures |acts'| > |acts| && acts'[..|acts|] == acts && acts'[|acts|] == Spawn(GateRead) && Feasible(s, acts')
    ensures var z := Exec(s, acts);
      Exec(s, acts') ==
          z.(workers := z.workers + [Finished], row := z.row.(status := Eligible), grant := Some(ByGate(f)))
  {
    var z := Exec(s, acts);
    var w := |z.workers|;
    Snoc(s, acts, Spawn(GateRead));
    acts' := acts + [Spawn(GateRead)];
    LastMoves(s, acts', z, GateRead, true, z.(workers := z.workers + [GateCheck]));
    acts' := acts' + [Run(w, true)];
    Snoc(s, acts', Gate(w, f));
    acts' := acts' + [Gate(w, f)];
    assert Exec(s, acts') == z.(workers := z.workers + [GateGrant(f)]);
    LastMoves(s, acts', z, GateGrant(f), true,
              z.(workers := z.workers + [Finished], row := z.row.(status := Eligible), grant := Some(ByGate(f))));
    acts' := acts' + [Run(w, true)];
  }

  /**
   From any payout at rest that may be processed and shows no transfer: a crash
   between the transfer and the write of its id leaves money moved, no trace of
   it on the row, and the status PROCESSING.
   */
  lemma CrashHidesTransfer(s: State) returns (acts: seq<Action>)
    requires Idle(s) && Allowed(s.row.status, Processing) && s.row.transferId.None?
    ensures Feasible(s, acts)
    ensures var z := Exec(s, acts);
      Idle(z) && z.row.status.Processing? && Unrecorded(z) && z.released == s.released
  {
    var w := |s.workers|;
    acts := AttemptClaims(s);
    var c := s.(row := s.row.(status := Processing, attempts := s.row.attempts + 1));
    LastMoves(s, acts, c, Escrow(s.row), true, c.(workers := s.workers + [Transfer(s.row)]));
    acts := acts + [Run(w, true)];
    var (d, id) := Charge(c, s.row.attempts + 1);
    LastMoves(s, acts, c, Transfer(s.row), true, d.(workers := s.workers + [Persist(id)]));
    acts := acts + [Run(w, true)];
    Snoc(s, acts, Crash(w));
    acts := acts + [Crash(w)];
    assert s.row.attempts + 1 in d.transfers;
    assert Exec(s, acts) == d.(workers := s.workers + [Crashed]);
  }

  predicate Idling(k: Worker) {
    !Live(k) || Entry(k)
  }

  /** Nothing ever moves such a payout on: at rest in PROCESSING, its row stays as it is over every run. */
  lemma {:induction false} StuckForever(s: State, acts: seq<Action>)
    requires s.row.status.Processing? && Feasible(s, acts)
    requires forall v :: 0 <= v < |s.workers| ==> Idling(s.workers[v])
    ensures Exec(s, acts).row == s.row
    decreases |acts|
  {
    if acts != [] {
      if acts[0].Run? {
        assert Idling(s.workers[acts[0].w]);
      }
      StuckForever(Step(s, acts[0]), acts[1..]);
    }
  }
}
