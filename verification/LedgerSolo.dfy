/** One call of the protocol driven to its commit while nobody holds what it needs. */
module LedgerSolo {
  import opened Wrappers
  import opened Ledger
  import opened LedgerProtocol
  import opened LedgerSafety
  import opened LedgerProgress

  predicate OnlyRuns(acts: seq<Action>, w: nat) {
    forall i :: 0 <= i < |acts| ==> acts[i] == Run(w)
  }

  lemma OneMoreRun(acts: seq<Action>, w: nat)
    requires OnlyRuns(acts, w)
    ensures OnlyRuns([Run(w)] + acts, w)
  {
  }

  /** No other process holds an account that process w debits. */
  predicate AccountsFree(s: State, w: nat)
    requires w < |s.procs|
  {
    forall v, k :: 0 <= v < |s.procs| && v != w && 0 <= k < |s.procs[w].Ids()| ==>
        !s.procs[v].Holds(s.procs[w].Ids()[k])
  }

  /** From turn |seen| on, every account of the loop can pay. */
  predicate CanPay(l: Tables, p: Proc) {
    forall k :: |p.seen| <= k < |p.Ids()| ==> FundsError(l, p.call.es, p.Ids()[k]).None?
  }

  predicate InLoopAt(p: Proc) {
    |p.seen| <= |p.Ids()| && p.pc == LoopAt(p.call, |p.seen|)
  }

  /** One turn of the locking loop: lock, then read. */
  lemma Turn(s: State, w: nat)
    requires w < |s.procs| && InLoopAt(s.procs[w]) && |s.procs[w].seen| < |s.procs[w].Ids()|
    requires AccountsFree(s, w) && CanPay(s.ledger, s.procs[w])
    ensures var p := s.procs[w]; var s1 := RunStep(s, w);
      && Enabled(s, Run(w)) && w < |s1.procs| && Enabled(s1, Run(w))
      && RunStep(s1, w) == s.(procs := s.procs[w :=
           Proc(p.call, LoopAt(p.call, |p.seen| + 1), p.seen + [Balance(s.ledger.rows, p.Ids()[|p.seen|])])])
  {
    var p := s.procs[w];
    var a := p.Ids()[|p.seen|];
    assert FundsError(s.ledger, p.call.es, a).None?;
    assert AscendingIds(p.Ids());
    forall v | 0 <= v < |s.procs| ensures !s.procs[v].Holds(a) {
      if v == w {
        assert forall k :: 0 <= k < |p.seen| ==> p.Ids()[k] < a;
      }
    }
    assert !AccountHeld(s, a);
    var s1 := RunStep(s, w);
    assert s1.procs == s.procs[w := p.(pc := Read(|p.seen|))];
  }

  lemma {:induction false} LoopDriven(s: State, w: nat) returns (acts: seq<Action>, seen: seq<int>)
    requires w < |s.procs| && InLoopAt(s.procs[w]) && AccountsFree(s, w) && CanPay(s.ledger, s.procs[w])
    ensures OnlyRuns(acts, w) && Feasible(s, acts) && |seen| == |s.procs[w].Ids()|
    ensures var p := s.procs[w];
      Exec(s, acts) == s.(procs := s.procs[w := Proc(p.call, LoopAt(p.call, |p.Ids()|), seen)])
    decreases |s.procs[w].Ids()| - |s.procs[w].seen|
  {
    var p := s.procs[w];
    if |p.seen| == |p.Ids()| {
      acts, seen := [], p.seen;
      assert s.procs[w := p] == s.procs;
    } else {
      Turn(s, w);
      var s1 := RunStep(s, w);
      var s2 := RunStep(s1, w);
      var rest;
      rest, seen := LoopDriven(s2, w);
      OneMoreRun(rest, w);
      OneMoreRun([Run(w)] + rest, w);
      Prefixed(s1, Run(w), rest);
      Prefixed(s, Run(w), [Run(w)] + rest);
      acts := [Run(w)] + ([Run(w)] + rest);
    }
  }

  /** From the end of the loop to the commit of a settlement. */
  lemma SettleDriven(s: State, w: nat) returns (acts: seq<Action>)
    requires w < |s.procs| && s.procs[w].call.Settle? && s.procs[w].pc == InsertEntries(s.procs[w].call.target)
    requires s.procs[w].call.target in s.ledger.txs && AccountsExist(s.ledger, s.procs[w].call.es)
    requires forall v :: 0 <= v < |s.procs| && v != w ==> !s.procs[v].HoldsTxRow(s.procs[w].call.target)
    ensures OnlyRuns(acts, w) && Feasible(s, acts)
    ensures var p := s.procs[w]; var l := s.ledger; var t := p.call.target;
      Exec(s, acts) == s.(procs := s.procs[w := p.(pc := Done(t))],
                          ledger := l.(txs := l.txs[t := l.txs[t].(status := Completed)],
                                       rows := l.rows + Post(t, p.call.es)))
  {
    var p := s.procs[w];
    var t := p.call.target;
    var s1 := RunStep(s, w);
    assert s1 == s.(procs := s.procs[w := p.(pc := UpdateStatus(t))]);
    assert !TxRowHeld(s1, t);
    var s2 := RunStep(s1, w);
    assert s2 == s.(procs := s.procs[w := p.(pc := Commit(t))]);
    var s3 := RunStep(s2, w);
    assert s3.procs == s.procs[w := p.(pc := Done(t))];
    assert Exec(s3, []) == s3;
    Prefixed(s2, Run(w), []);
    Prefixed(s1, Run(w), [Run(w)] + []);
    Prefixed(s, Run(w), [Run(w)] + ([Run(w)] + []));
    acts := [Run(w)] + ([Run(w)] + ([Run(w)] + []));
  }

  lemma {:induction false} Chain(s: State, a: seq<Action>, b: seq<Action>)
    requires Feasible(s, a) && Feasible(Exec(s, a), b)
    ensures Feasible(s, a + b) && Exec(s, a + b) == Exec(Exec(s, a), b)
    decreases |a|
  {
    if a == [] {
      assert a + b == b;
    } else {
      assert (a + b)[1..] == a[1..] + b;
      Chain(Step(s, a[0]), a[1..], b);
    }
  }

  /** A settlement past its guard, alone: it commits exactly what the atomic ledger posts. */
  lemma SettlesAlone(s: State, w: nat) returns (acts: seq<Action>, p: Proc)
    requires w < |s.procs| && s.procs[w].call.Settle? && s.procs[w].seen == [] && InLoopAt(s.procs[w])
        && AccountsFree(s, w)
    requires s.procs[w].call.target in s.ledger.txs
    requires AtomicPost(s.ledger, s.procs[w].call.es, s.procs[w].call.target).Ok?
    requires forall v :: 0 <= v < |s.procs| && v != w ==> !s.procs[v].HoldsTxRow(s.procs[w].call.target)
    ensures OnlyRuns(acts, w) && Feasible(s, acts)
    ensures p.call == s.procs[w].call && p.pc == Done(p.call.target)
    ensures Exec(s, acts) ==
        s.(procs := s.procs[w := p], ledger := AtomicPost(s.ledger, p.call.es, p.call.target).value)
  {
    FundsPass(s.ledger, s.procs[w].call.es, s.procs[w].Ids());
    var loop, seen := LoopDriven(s, w);
    var z := Exec(s, loop);
    var commit := SettleDriven(z, w);
    Chain(s, loop, commit);
    acts := loop + commit;
    p := Proc(s.procs[w].call, Done(s.procs[w].call.target), seen);
    assert Exec(s, acts).procs == s.procs[w := p];
  }

  /** From the end of the loop to the commit of a create call without a payment intent. */
  lemma CreateDriven(s: State, w: nat) returns (acts: seq<Action>)
    requires w < |s.procs| && s.procs[w].call.Create? && s.procs[w].pc.InsertTx? && s.procs[w].call.intent.None?
    requires AccountsExist(s.ledger, s.procs[w].call.es)
    ensures OnlyRuns(acts, w) && Feasible(s, acts)
    ensures var p := s.procs[w]; var l := s.ledger; var t := s.nextTx;
      Exec(s, acts) == State(l.(txs := l.txs[t := TxRow(Pending, None)], rows := l.rows + Post(t, p.call.es)),
                             t + 1, s.procs[w := p.(pc := Done(t))])
  {
    var p := s.procs[w];
    var t := s.nextTx;
    var s1 := RunStep(s, w);
    assert s1 == s.(procs := s.procs[w := p.(pc := InsertEntries(t))], nextTx := t + 1);
    var s2 := RunStep(s1, w);
    assert s2 == s.(procs := s.procs[w := p.(pc := Commit(t))], nextTx := t + 1);
    var s3 := RunStep(s2, w);
    assert s3.procs == s.procs[w := p.(pc := Done(t))];
    assert Exec(s3, []) == s3;
    Prefixed(s2, Run(w), []);
    Prefixed(s1, Run(w), [Run(w)] + []);
    Prefixed(s, Run(w), [Run(w)] + ([Run(w)] + []));
    acts := [Run(w)] + ([Run(w)] + ([Run(w)] + []));
  }
}
