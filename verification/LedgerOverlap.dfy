/**
 Two settlement calls of one transaction that overlap: exactly which pairs of
 batches can both be committed.
 */
module LedgerOverlap {
  import opened Wrappers
  import opened Ledger
  import opened LedgerProtocol
  import opened LedgerSafety
  import opened LedgerRefinement
  import opened LedgerProgress
  import opened LedgerSettlement
  import opened LedgerSolo

  /** The ledger takes the first batch, and then the second as well. */
  predicate PostsTwice(l: Tables, es1: seq<Entry>, es2: seq<Entry>, t: nat) {
    && t in l.txs && AtomicPost(l, es1, t).Ok?
    && AtomicPost(AtomicPost(l, es1, t).value, es2, t).Ok?
  }

  function BothPosted(l: Tables, es1: seq<Entry>, es2: seq<Entry>, t: nat): Tables
    requires PostsTwice(l, es1, es2, t)
  {
    AtomicPost(AtomicPost(l, es1, t).value, es2, t).value
  }

  /** Both calls have begun. */
  function TwoSpawned(s: State, es1: seq<Entry>, es2: seq<Entry>, t: nat): State {
    s.(procs := s.procs + [Start(Settle(es1, t)), Start(Settle(es2, t))])
  }

  predicate Statements(acts: seq<Action>) {
    forall i :: 0 <= i < |acts| ==> acts[i].Run?
  }

  /** An interleaving of the two calls' statements after which both have committed. */
  predicate BothSettle(s: State, acts: seq<Action>, es1: seq<Entry>, es2: seq<Entry>, t: nat) {
    var s2 := TwoSpawned(s, es1, es2, t);
    var n := |s.procs|;
    && Statements(acts) && Feasible(s2, acts) && |Exec(s2, acts).procs| == n + 2
    && Settled(Exec(s2, acts).procs[n], t) && Settled(Exec(s2, acts).procs[n + 1], t)
  }

  // ---- Driving both past the guard and to their commits ----

  lemma PastGuardRuns(s: State, w: nat) returns (acts: seq<Action>)
    requires w < |s.procs| && s.procs[w].call.Settle? && s.procs[w].pc.CheckStatus?
    requires SettleGuard(s.ledger, s.procs[w].call.target).None?
    ensures Statements(acts) && Feasible(s, acts) && Exec(s, acts) == Goto(s, w, LoopAt(s.procs[w].call, 0))
  {
    var s1 := RunStep(s, w);
    assert s1.procs == s.procs[w := s.procs[w].(pc := CheckCount)];
    var s2 := RunStep(s1, w);
    assert s2 == Goto(s, w, LoopAt(s.procs[w].call, 0));
    assert Exec(s2, []) == s2;
    Prefixed(s1, Run(w), []);
    Prefixed(s, Run(w), [Run(w)] + []);
    acts := [Run(w)] + ([Run(w)] + []);
  }

  lemma RestsHoldNothing(s: State, v: nat)
    requires v < |s.procs| && !s.procs[v].Active()
    ensures (forall a :: !s.procs[v].Holds(a)) && (forall t :: !s.procs[v].HoldsTxRow(t))
  {
  }

  function Entered(es: seq<Entry>, t: nat): Proc {
    Proc(Settle(es, t), LoopAt(Settle(es, t), 0), [])
  }

  lemma EnteredHoldsNothing(es: seq<Entry>, t: nat)
    ensures (forall a :: !Entered(es, t).Holds(a)) && (forall u :: !Entered(es, t).HoldsTxRow(u))
    ensures InLoopAt(Entered(es, t))
  {
    forall a ensures !Entered(es, t).Holds(a) {
      assert Entered(es, t).Locks() == 0 || |Entered(es, t).Ids()| == 0;
    }
  }

  lemma BothEnter(s: State, es1: seq<Entry>, es2: seq<Entry>, t: nat) returns (acts: seq<Action>)
    requires SettleGuard(s.ledger, t).None? && Validate(es1).None? && Validate(es2).None?
    ensures Statements(acts) && Feasible(TwoSpawned(s, es1, es2, t), acts)
    ensures Exec(TwoSpawned(s, es1, es2, t), acts) == s.(procs := s.procs + [Entered(es1, t), Entered(es2, t)])
  {
    var s2 := TwoSpawned(s, es1, es2, t);
    var n := |s.procs|;
    var first := PastGuardRuns(s2, n);
    var z1 := Exec(s2, first);
    assert z1.procs == s.procs + [Entered(es1, t), Start(Settle(es2, t))];
    var second := PastGuardRuns(z1, n + 1);
    assert Exec(z1, second).procs == s.procs + [Entered(es1, t), Entered(es2, t)];
    Chain(s2, first, second);
    acts := first + second;
  }

  /** With one of the two calls ended, nobody but the other may hold anything. */
  lemma OthersAtRest(s: State, i: nat, j: nat, p: Proc, t: nat)
    requires i < |s.procs| && j < |s.procs| && i != j && !p.Active()
    requires forall v :: 0 <= v < |s.procs| && v != j ==>
      (forall a :: !s.procs[v].Holds(a)) && !s.procs[v].HoldsTxRow(t)
    ensures var procs := s.procs[i := p];
      && procs[j] == s.procs[j]
      && forall v :: 0 <= v < |procs| && v != j ==> (forall a :: !procs[v].Holds(a)) && !procs[v].HoldsTxRow(t)
  {
    assert p.Locks() == 0;
  }

  /** The first call commits, then the second, whichever of the two was started first. */
  lemma BothCommit(s: State, es1: seq<Entry>, es2: seq<Entry>, t: nat, swapped: bool) returns (acts: seq<Action>)
    requires Quiescent(s) && SettleGuard(s.ledger, t).None?
    requires if swapped then PostsTwice(s.ledger, es2, es1, t) else PostsTwice(s.ledger, es1, es2, t)
    ensures Statements(acts)
    ensures var s' := s.(procs := s.procs + [Entered(es1, t), Entered(es2, t)]); var n := |s.procs|;
      && Feasible(s', acts) && |Exec(s', acts).procs| == n + 2
      && Settled(Exec(s', acts).procs[n], t) && Settled(Exec(s', acts).procs[n + 1], t)
      && Exec(s', acts).ledger ==
         if swapped then BothPosted(s.ledger, es2, es1, t) else BothPosted(s.ledger, es1, es2, t)
  {
    var n := |s.procs|;
    var s' := s.(procs := s.procs + [Entered(es1, t), Entered(es2, t)]);
    forall v | 0 <= v < n ensures (forall a :: !s'.procs[v].Holds(a)) && (forall u :: !s'.procs[v].HoldsTxRow(u)) {
      RestsHoldNothing(s, v);
    }
    EnteredHoldsNothing(es1, t);
    EnteredHoldsNothing(es2, t);
    var i := if swapped then n + 1 else n;
    var j := if swapped then n else n + 1;
    var first, p := SettlesAlone(s', i);
    var z := Exec(s', first);
    OthersAtRest(s', i, j, p, t);
    var second, q := SettlesAlone(z, j);
    Chain(s', first, second);
    acts := first + second;
  }

  // ---- What both commits imply ----

  /** How far the two calls have changed the tables. */
  ghost predicate Between(z: State, l: Tables, n: nat, es1: seq<Entry>, es2: seq<Entry>, t: nat) {
    && |z.procs| == n + 2 && t in l.txs
    && (forall v :: 0 <= v < n ==> !z.procs[v].Active())
    && z.procs[n].call == Settle(es1, t) && z.procs[n + 1].call == Settle(es2, t)
    && (if z.procs[n].pc.Done? then
          if z.procs[n + 1].pc.Done? then
            || (PostsTwice(l, es1, es2, t) && z.ledger == BothPosted(l, es1, es2, t))
            || (PostsTwice(l, es2, es1, t) && z.ledger == BothPosted(l, es2, es1, t))
          else AtomicPost(l, es1, t) == Ok(z.ledger)
        else if z.procs[n + 1].pc.Done? then AtomicPost(l, es2, t) == Ok(z.ledger)
        else z.ledger == l)
  }

  lemma KeepBetween(z: State, w: nat, l: Tables, n: nat, es1: seq<Entry>, es2: seq<Entry>, t: nat)
    requires Inv(z) && Between(z, l, n, es1, es2, t) && Enabled(z, Run(w))
    ensures Between(RunStep(z, w), l, n, es1, es2, t)
  {
    assert ProcOk(z.ledger, z.nextTx, z.procs[w]);
    StepLeft(z, w);
    var z' := RunStep(z, w);
    if z.procs[w].pc.Commit? {
      CommitIsAtomic(z, w);
      CommitPosts(z, w);
    } else {
      QuietStep(z, w, t);
    }
  }

  lemma CommitPosts(z: State, w: nat)
    requires Inv(z) && Enabled(z, Run(w)) && z.procs[w].call.Settle? && z.procs[w].pc.Commit?
    ensures var t := z.procs[w].call.target; var z' := RunStep(z, w);
      && t in z.ledger.txs && AtomicPost(z.ledger, z.procs[w].call.es, t) == Ok(z'.ledger)
      && z'.procs[w].pc.Done? && z'.procs[w].call == z.procs[w].call
  {
    assert ProcOk(z.ledger, z.nextTx, z.procs[w]);
    CommitIsAtomic(z, w);
  }

  lemma {:induction false} KeepBetweenAll(
    z: State, acts: seq<Action>, l: Tables, n: nat, es1: seq<Entry>, es2: seq<Entry>, t: nat)
    requires Inv(z) && Between(z, l, n, es1, es2, t) && Feasible(z, acts) && Statements(acts)
    ensures Between(Exec(z, acts), l, n, es1, es2, t)
    decreases |acts|
  {
    if acts != [] {
      assert acts[0].Run?;
      KeepBetween(z, acts[0].w, l, n, es1, es2, t);
      Keep(z, acts[0]);
      assert forall i :: 0 <= i < |acts[1..]| ==> acts[1..][i] == acts[i + 1];
      KeepBetweenAll(Step(z, acts[0]), acts[1..], l, n, es1, es2, t);
    }
  }

  lemma TwoSpawnedOk(s: State, es1: seq<Entry>, es2: seq<Entry>, t: nat)
    requires Inv(s)
    ensures Inv(TwoSpawned(s, es1, es2, t))
  {
    var s1 := Step(s, Spawn(Settle(es1, t)));
    Keep(s, Spawn(Settle(es1, t)));
    Keep(s1, Spawn(Settle(es2, t)));
    assert Step(s1, Spawn(Settle(es2, t))).procs == TwoSpawned(s, es1, es2, t).procs;
  }

  /**
   From any sound state at rest with a pending transaction without entries, two
   overlapping settlements of it with valid batches can both commit exactly when
   the ledger takes one batch and then, on the result, the other.
   */
  lemma DoubleSettlementIff(s: State, es1: seq<Entry>, es2: seq<Entry>, t: nat)
    requires Inv(s) && Quiescent(s) && SettleGuard(s.ledger, t).None?
    requires Validate(es1).None? && Validate(es2).None?
    ensures (exists acts :: BothSettle(s, acts, es1, es2, t)) <==>
            PostsTwice(s.ledger, es1, es2, t) || PostsTwice(s.ledger, es2, es1, t)
  {
    var l, n := s.ledger, |s.procs|;
    if PostsTwice(l, es1, es2, t) || PostsTwice(l, es2, es1, t) {
      var acts := DoubleSettles(s, es1, es2, t, !PostsTwice(l, es1, es2, t));
    }
    if acts :| BothSettle(s, acts, es1, es2, t) {
      TwoSpawnedOk(s, es1, es2, t);
      KeepBetweenAll(TwoSpawned(s, es1, es2, t), acts, l, n, es1, es2, t);
    }
  }

  lemma DoubleSettles(s: State, es1: seq<Entry>, es2: seq<Entry>, t: nat, swapped: bool) returns (acts: seq<Action>)
    requires Quiescent(s) && SettleGuard(s.ledger, t).None? && Validate(es1).None? && Validate(es2).None?
    requires if swapped then PostsTwice(s.ledger, es2, es1, t) else PostsTwice(s.ledger, es1, es2, t)
    ensures BothSettle(s, acts, es1, es2, t)
    ensures Exec(TwoSpawned(s, es1, es2, t), acts).ledger ==
            if swapped then BothPosted(s.ledger, es2, es1, t) else BothPosted(s.ledger, es1, es2, t)
  {
    var enter := BothEnter(s, es1, es2, t);
    var commit := BothCommit(s, es1, es2, t, swapped);
    Chain(TwoSpawned(s, es1, es2, t), enter, commit);
    acts := enter + commit;
  }

  // ---- A payment settled twice ----

  function Payment(d: int, c: int, x: int): seq<Entry> {
    [Entry(d, x, Debit), Entry(c, x, Credit)]
  }

  lemma PaymentAnswer(l: Tables, d: int, c: int, x: int, t: nat)
    requires t in l.txs && x >= 0 && d != c
    ensures AtomicPost(l, Payment(d, c, x), t).Ok? <==>
            d in l.accounts && c in l.accounts && (l.accounts[d] || Balance(l.rows, d) >= x)
    ensures AtomicPost(l, Payment(d, c, x), t).Ok? ==>
            var l' := AtomicPost(l, Payment(d, c, x), t).value;
            && l'.accounts == l.accounts && t in l'.txs
            && Balance(l'.rows, d) == Balance(l.rows, d) - x && Balance(l'.rows, c) == Balance(l.rows, c) + x
  {
    var es := Payment(d, c, x);
    OneDebit(d, c, x);
    FundsPass(l, es, DebitIds(es));
    assert DebitIds(es)[0] == d;
    assert es[0].account == d && es[1].account == c;
    TransferPosts(t, d, c, x);
    TotalAppend(OfAccount(d), l.rows, Post(t, es));
    TotalAppend(OfAccount(c), l.rows, Post(t, es));
  }

  /**
   Two overlapping deliveries of one payment of x from a buyer to escrow can both
   be booked exactly when the buyer may go negative or holds twice the amount;
   escrow then receives it twice.
   */
  lemma DoublePaymentIff(s: State, d: int, c: int, x: int, t: nat)
    requires Inv(s) && Quiescent(s) && SettleGuard(s.ledger, t).None? && x >= 0 && d != c
    ensures (exists acts :: BothSettle(s, acts, Payment(d, c, x), Payment(d, c, x), t)) <==>
      d in s.ledger.accounts && c in s.ledger.accounts && (s.ledger.accounts[d] || Balance(s.ledger.rows, d) >= 2 * x)
    ensures PostsTwice(s.ledger, Payment(d, c, x), Payment(d, c, x), t) ==>
      Balance(BothPosted(s.ledger, Payment(d, c, x), Payment(d, c, x), t).rows, c) == Balance(s.ledger.rows, c) + 2 * x
  {
    var es := Payment(d, c, x);
    OneDebit(d, c, x);
    DoubleSettlementIff(s, es, es, t);
    PaymentAnswer(s.ledger, d, c, x, t);
    if AtomicPost(s.ledger, es, t).Ok? {
      PaymentAnswer(AtomicPost(s.ledger, es, t).value, d, c, x, t);
    }
  }
}
