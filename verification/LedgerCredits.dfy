/**
 What the balance read under an account's lock is worth while the lock is held:
 debits cannot be committed past it, credits can.  The committed balance is the
 balance read plus exactly the credits committed since.
 */
module LedgerCredits {
  import opened Wrappers
  import opened Ledger
  import opened LedgerProtocol
  import opened LedgerSafety
  import opened LedgerProgress
  import opened LedgerSettlement
  import opened LedgerBurst
  import opened LedgerSolo

  /** What a batch puts into one account. */
  function CreditTotal(es: seq<Entry>, a: int): int {
    if es == [] then 0
    else (if es[0].side.Credit? && es[0].account == a then es[0].amount else 0) + CreditTotal(es[1..], a)
  }

  lemma {:induction false} PostExact(t: nat, es: seq<Entry>, a: int)
    ensures Balance(Post(t, es), a) == CreditTotal(es, a) - DebitTotal(es, a)
  {
    if es != [] {
      PostTail(t, es);
      PostExact(t, es[1..], a);
    }
  }

  /** The credit to an account that one action commits. */
  function CreditOf(s: State, act: Action, a: int): int
    requires Enabled(s, act)
  {
    if act.Run? && RunStep(s, act.w).procs[act.w].pc.Done? then CreditTotal(s.procs[act.w].call.es, a) else 0
  }

  /** The credits to an account committed over a run. */
  function Credited(s: State, acts: seq<Action>, a: int): int
    requires Feasible(s, acts)
    decreases |acts|
  {
    if acts == [] then 0 else CreditOf(s, acts[0], a) + Credited(Step(s, acts[0]), acts[1..], a)
  }

  /** Process w holds the account of turn k, whose balance it has read. */
  predicate HasRead(s: State, w: nat, k: nat) {
    w < |s.procs| && s.procs[w].Active() && k < |s.procs[w].seen| && k < |s.procs[w].Ids()|
  }

  lemma HoldsRead(s: State, w: nat, k: nat)
    requires Inv(s) && HasRead(s, w, k)
    ensures s.procs[w].Holds(s.procs[w].Ids()[k])
  {
    assert ProcOk(s.ledger, s.nextTx, s.procs[w]);
  }

  /** A commit by another process credits the account and cannot debit it. */
  lemma OthersOnlyCredit(s: State, w: nat, k: nat, v: nat)
    requires Inv(s) && HasRead(s, w, k) && v < |s.procs| && v != w && Enabled(s, Run(v)) && s.procs[v].pc.Commit?
    ensures var a := s.procs[w].Ids()[k]; var s' := RunStep(s, v);
      && s'.procs[v].pc.Done?
      && Balance(s'.ledger.rows, a) == Balance(s.ledger.rows, a) + CreditTotal(s.procs[v].call.es, a)
  {
    var a := s.procs[w].Ids()[k];
    var p := s.procs[v];
    HoldsRead(s, w, k);
    assert ProcOk(s.ledger, s.nextTx, p) && Apart(s.procs[w], p);
    FirstBadFinds(p.call.es);
    if Debits(p.call.es, a) {
      var j :| 0 <= j < |p.Ids()| && p.Ids()[j] == a;
      assert p.Holds(a);
    }
    PostOfAccount(p.pc.tx, p.call.es, a);
    PostExact(p.pc.tx, p.call.es, a);
    TotalAppend(OfAccount(a), s.ledger.rows, Post(p.pc.tx, p.call.es));
  }

  lemma QuietBalance(s: State, w: nat, t: nat)
    requires Inv(s) && Enabled(s, Run(w)) && !s.procs[w].pc.Commit?
    ensures RunStep(s, w).ledger == s.ledger && !RunStep(s, w).procs[w].pc.Done?
  {
    assert ProcOk(s.ledger, s.nextTx, s.procs[w]);
    QuietStep(s, w, t);
  }

  /**
   While w lives on, one step changes the balance of the account by the credit it
   commits, and w keeps what it read.
   */
  lemma HeldStep(s: State, act: Action, w: nat, k: nat)
    requires Inv(s) && HasRead(s, w, k) && Enabled(s, act) && Step(s, act).procs[w].Active()
    ensures var s' := Step(s, act); var a := s.procs[w].Ids()[k];
      && HasRead(s', w, k) && s'.procs[w].call == s.procs[w].call && s'.procs[w].seen[k] == s.procs[w].seen[k]
      && Balance(s'.ledger.rows, a) == Balance(s.ledger.rows, a) + CreditOf(s, act, a)
  {
    if act.Run? {
      assert ProcOk(s.ledger, s.nextTx, s.procs[act.w]);
      StepLeft(s, act.w);
      if s.procs[act.w].pc.Commit? {
        if act.w != w {
          OthersOnlyCredit(s, w, k, act.w);
        }
      } else {
        QuietBalance(s, act.w, 0);
      }
    }
  }

  /** A call that has ended stays ended. */
  lemma EndedStays(s: State, act: Action, w: nat)
    requires w < |s.procs| && !s.procs[w].Active() && Enabled(s, act)
    ensures w < |Step(s, act).procs| && !Step(s, act).procs[w].Active()
  {
  }

  lemma {:induction false} EndedStaysAll(s: State, acts: seq<Action>, w: nat)
    requires w < |s.procs| && !s.procs[w].Active() && Feasible(s, acts)
    ensures w < |Exec(s, acts).procs| && !Exec(s, acts).procs[w].Active()
    decreases |acts|
  {
    if acts != [] {
      EndedStays(s, acts[0], w);
      EndedStaysAll(Step(s, acts[0]), acts[1..], w);
    }
  }

  lemma {:induction false} HeldBalance(s: State, acts: seq<Action>, w: nat, k: nat)
    requires Inv(s) && HasRead(s, w, k) && Feasible(s, acts)
    requires w < |Exec(s, acts).procs| && Exec(s, acts).procs[w].Active()
    ensures HasRead(Exec(s, acts), w, k) && Exec(s, acts).procs[w].seen[k] == s.procs[w].seen[k]
    ensures Balance(Exec(s, acts).ledger.rows, s.procs[w].Ids()[k]) ==
            Balance(s.ledger.rows, s.procs[w].Ids()[k]) + Credited(s, acts, s.procs[w].Ids()[k])
    decreases |acts|
  {
    if acts != [] {
      var s' := Step(s, acts[0]);
      StepKeepsProcs(s, acts[0]);
      if !s'.procs[w].Active() {
        EndedStaysAll(s', acts[1..], w);
      }
      HeldStep(s, acts[0], w, k);
      Keep(s, acts[0]);
      HeldBalance(s', acts[1..], w, k);
    }
  }

  lemma StepKeepsProcs(s: State, act: Action)
    requires Enabled(s, act)
    ensures |Step(s, act).procs| >= |s.procs|
  {
  }

  /** The statement just performed is the balance query of turn k, and the call goes on. */
  predicate JustRead(s0: State, s: State, w: nat, k: nat) {
    && w < |s0.procs| && Enabled(s0, Run(w)) && s == Step(s0, Run(w))
    && s0.procs[w].pc == Read(k) && s.procs[w].Active()
  }

  lemma ReadsCommitted(s0: State, s: State, w: nat, k: nat)
    requires Inv(s0) && JustRead(s0, s, w, k)
    ensures HasRead(s, w, k) && s.procs[w].seen[k] == Balance(s.ledger.rows, s.procs[w].Ids()[k])
  {
    assert ProcOk(s0.ledger, s0.nextTx, s0.procs[w]);
  }

  /**
   From the read of an account's balance to any later point at which the call is
   still open, the committed balance is the balance read plus the credits
   committed in between; so it equals the balance read exactly when those
   credits come to zero.
   */
  lemma ReadIsExactIff(s0: State, s: State, acts: seq<Action>, w: nat, k: nat)
    requires Inv(s0) && JustRead(s0, s, w, k) && Feasible(s, acts)
    requires w < |Exec(s, acts).procs| && Exec(s, acts).procs[w].Active()
    ensures HasRead(Exec(s, acts), w, k)
    ensures var z := Exec(s, acts); var a := z.procs[w].Ids()[k]; var read := z.procs[w].seen[k];
      && Balance(z.ledger.rows, a) == read + Credited(s, acts, a)
      && (Balance(z.ledger.rows, a) == read <==> Credited(s, acts, a) == 0)
  {
    Keep(s0, Run(w));
    ReadsCommitted(s0, s, w, k);
    HeldBalance(s, acts, w, k);
    CallKept(s, acts, w);
  }

  lemma {:induction false} CallKept(s: State, acts: seq<Action>, w: nat)
    requires w < |s.procs| && Feasible(s, acts)
    ensures w < |Exec(s, acts).procs| && Exec(s, acts).procs[w].call == s.procs[w].call
    decreases |acts|
  {
    if acts != [] {
      CallKept(Step(s, acts[0]), acts[1..], w);
    }
  }

  // ---- A credit that lands in between ----

  lemma TransferAlone(s: State, d: int, a: int, x: int) returns (acts: seq<Action>, p: Proc)
    requires d in s.ledger.accounts && s.ledger.accounts[d] && a in s.ledger.accounts && d != a && x >= 0
    requires !AccountHeld(s, d)
    ensures Feasible(s, acts) && p.call == Transfer(d, a, x) && p.pc == Done(s.nextTx)
    ensures Exec(s, acts) == State(
      s.ledger.(txs := s.ledger.txs[s.nextTx := TxRow(Pending, None)],
                rows := s.ledger.rows + Post(s.nextTx, p.call.es)),
      s.nextTx + 1, s.procs + [p])
  {
    var call := Transfer(d, a, x);
    OneDebit(d, a, x);
    var n := |s.procs|;
    var s1 := Step(s, Spawn(call));
    assert s1.procs[n] == Proc(call, LoopAt(call, 0), []);
    assert FundsError(s.ledger, call.es, d).None?;
    assert AccountsFree(s1, n) by {
      assert forall v :: 0 <= v < n ==> s1.procs[v] == s.procs[v] && !s.procs[v].Holds(d);
    }
    var loop, seen := LoopDriven(s1, n);
    var z := Exec(s1, loop);
    assert AccountsExist(z.ledger, call.es) by {
      assert call.es[0].account == d && call.es[1].account == a;
    }
    var commit := CreateDriven(z, n);
    Chain(s1, loop, commit);
    Prefixed(s, Spawn(call), loop + commit);
    acts := [Spawn(call)] + (loop + commit);
    p := Proc(call, Done(s.nextTx), seen);
    assert Exec(z, commit).procs == s.procs + [p];
  }

  /**
   From any sound state at rest: a call reads the balance of account a under its
   lock, another commits a credit of x to it, and the first is still open with a
   balance read that is x too low.
   */
  lemma CreditLands(s: State, a: int, d: int, y: int, x: int) returns (before: seq<Action>, after: seq<Action>)
    requires Inv(s) && Quiescent(s) && a != d && x >= 0 && y >= 0
    requires a in s.ledger.accounts && (s.ledger.accounts[a] || Balance(s.ledger.rows, a) >= y)
    requires d in s.ledger.accounts && s.ledger.accounts[d]
    ensures Feasible(s, before) && Feasible(Exec(s, before), after)
    ensures var z := Exec(Exec(s, before), after); var w := |s.procs|;
      && w < |z.procs| && z.procs[w].Active() && z.procs[w].Ids() == [a]
      && z.procs[w].seen == [Balance(s.ledger.rows, a)]
      && Balance(z.ledger.rows, a) == z.procs[w].seen[0] + x
  {
    var call, w := Transfer(a, d, y), |s.procs|;
    OneDebit(a, d, y);
    var s1 := Step(s, Spawn(call));
    assert s1.procs[w] == Proc(call, LoopAt(call, 0), []);
    assert AccountsFree(s1, w) by {
      assert forall v :: 0 <= v < w ==> s1.procs[v] == s.procs[v] && !s.procs[v].Active();
    }
    assert FundsError(s.ledger, call.es, a).None?;
    Turn(s1, w);
    var s2 := RunStep(s1, w);
    var s3 := RunStep(s2, w);
    assert [] + [Balance(s.ledger.rows, a)] == [Balance(s.ledger.rows, a)];
    assert Exec(s3, []) == s3;
    Prefixed(s2, Run(w), []);
    Prefixed(s1, Run(w), [Run(w)] + []);
    Prefixed(s, Spawn(call), [Run(w)] + ([Run(w)] + []));
    before := [Spawn(call)] + ([Run(w)] + ([Run(w)] + []));
    forall v | 0 <= v < |s3.procs| ensures !s3.procs[v].Holds(d) {
      assert v == w || (s3.procs[v] == s.procs[v] && !s.procs[v].Active());
    }
    var p;
    after, p := TransferAlone(s3, d, a, x);
    TransferPosts(s3.nextTx, d, a, x);
    TotalAppend(OfAccount(a), s3.ledger.rows, Post(s3.nextTx, p.call.es));
  }
}
