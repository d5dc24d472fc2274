/** A burst of identical debits against one guarded account: exactly as many succeed as it can fund. */
module LedgerBurst {
  import opened Wrappers
  import opened Ledger
  import opened LedgerProtocol
  import opened LedgerSafety
  import opened LedgerProgress
  import opened LedgerSettlement

  function Transfer(a: int, c: int, x: int): Call {
    Create([Entry(a, x, Debit), Entry(c, x, Credit)], None)
  }

  predicate OnlyTransfers(acts: seq<Action>, a: int, c: int, x: int) {
    forall i :: 0 <= i < |acts| ==> acts[i] == Spawn(Transfer(a, c, x)) || acts[i].Run?
  }

  function Successes(procs: seq<Proc>): nat {
    if procs == [] then 0 else (if procs[0].pc.Done? then 1 else 0) + Successes(procs[1..])
  }

  lemma {:induction false} SuccessesUpdate(procs: seq<Proc>, w: nat, p: Proc)
    requires w < |procs|
    ensures Successes(procs[w := p]) == Successes(procs) - (if procs[w].pc.Done? then 1 else 0)
        + (if p.pc.Done? then 1 else 0)
  {
    if w == 0 {
      assert procs[0 := p][1..] == procs[1..];
    } else {
      assert procs[w := p][1..] == procs[1..][w - 1 := p];
      SuccessesUpdate(procs[1..], w - 1, p);
    }
  }

  lemma {:induction false} SuccessesAppend(procs: seq<Proc>, p: Proc)
    ensures Successes(procs + [p]) == Successes(procs) + (if p.pc.Done? then 1 else 0)
  {
    if procs == [] {
      assert [p][1..] == [];
      assert procs + [p] == [p];
    } else {
      assert (procs + [p])[1..] == procs[1..] + [p];
      SuccessesAppend(procs[1..], p);
    }
  }

  lemma {:induction false} AllSucceeded(procs: seq<Proc>)
    ensures Successes(procs) <= |procs|
    ensures (forall v :: 0 <= v < |procs| ==> procs[v].pc.Done?) ==> Successes(procs) == |procs|
  {
    if procs != [] {
      AllSucceeded(procs[1..]);
      assert forall v :: 0 <= v < |procs[1..]| ==> procs[1..][v] == procs[v + 1];
    }
  }

  /** Every successful transfer has lowered the account by x, and a refusal means it could no longer fund one. */
  ghost predicate Burst(s: State, a: int, c: int, x: int, opening: int) {
    && a in s.ledger.accounts && !s.ledger.accounts[a] && c in s.ledger.accounts
    && Balance(s.ledger.rows, a) == opening - x * Successes(s.procs)
    && (forall v :: 0 <= v < |s.procs| ==> s.procs[v].call == Transfer(a, c, x) && !s.procs[v].pc.Crashed?)
    && (forall v :: 0 <= v < |s.procs| && s.procs[v].pc.Rejected? ==>
          s.procs[v].pc.error.InsufficientFunds? && Balance(s.ledger.rows, a) < x)
  }

  lemma BurstQuiet(s: State, w: nat, a: int, c: int, x: int, opening: int)
    requires Inv(s) && Burst(s, a, c, x, opening) && Enabled(s, Run(w)) && a != c && x > 0 && !s.procs[w].pc.Commit?
    ensures var q := RunStep(s, w).procs[w];
      && RunStep(s, w).ledger == s.ledger && q.call == s.procs[w].call && !q.pc.Done? && !q.pc.Crashed?
      && (q.pc.Rejected? ==> q.pc.error.InsufficientFunds? && Balance(s.ledger.rows, a) < x)
  {
    assert ProcOk(s.ledger, s.nextTx, s.procs[w]);
    OneDebit(a, c, x);
  }

  lemma BurstCommit(s: State, w: nat, a: int, c: int, x: int, opening: int)
    requires Inv(s) && Burst(s, a, c, x, opening) && Enabled(s, Run(w)) && a != c && x > 0 && s.procs[w].pc.Commit?
    ensures var z := RunStep(s, w);
      && z.ledger.accounts == s.ledger.accounts && Balance(z.ledger.rows, a) == Balance(s.ledger.rows, a) - x
      && z.procs[w].call == s.procs[w].call && z.procs[w].pc.Done?
  {
    TotalAppend(OfAccount(a), s.ledger.rows, Post(s.procs[w].pc.tx, s.procs[w].call.es));
    TransferPosts(s.procs[w].pc.tx, a, c, x);
  }

  lemma BurstMove(s: State, z: State, w: nat, a: int, c: int, x: int, opening: int)
    requires Burst(s, a, c, x, opening) && w < |s.procs| == |z.procs| && z.procs == s.procs[w := z.procs[w]]
    requires z.ledger.accounts == s.ledger.accounts && Balance(z.ledger.rows, a) <= Balance(s.ledger.rows, a)
    requires Balance(z.ledger.rows, a) == opening - x * Successes(z.procs)
    requires z.procs[w].call == s.procs[w].call && !z.procs[w].pc.Crashed?
    requires z.procs[w].pc.Rejected? ==> z.procs[w].pc.error.InsufficientFunds? && Balance(z.ledger.rows, a) < x
    ensures Burst(z, a, c, x, opening)
  {
  }

  lemma OneMore(x: int, n: int)
    ensures x * (n + 1) == x * n + x
  {
  }

  lemma KeepBurstRun(s: State, w: nat, a: int, c: int, x: int, opening: int)
    requires Inv(s) && Burst(s, a, c, x, opening) && Enabled(s, Run(w)) && x > 0 && a != c
    ensures Burst(RunStep(s, w), a, c, x, opening)
  {
    var z := RunStep(s, w);
    assert ProcOk(s.ledger, s.nextTx, s.procs[w]);
    StepLeft(s, w);
    SuccessesUpdate(s.procs, w, z.procs[w]);
    OneMore(x, Successes(s.procs));
    if s.procs[w].pc.Commit? {
      BurstCommit(s, w, a, c, x, opening);
    } else {
      BurstQuiet(s, w, a, c, x, opening);
    }
    BurstMove(s, z, w, a, c, x, opening);
  }

  lemma KeepBurst(s: State, act: Action, a: int, c: int, x: int, opening: int)
    requires Inv(s) && Burst(s, a, c, x, opening) && Enabled(s, act) && x > 0 && a != c
    requires act == Spawn(Transfer(a, c, x)) || act.Run?
    ensures Burst(Step(s, act), a, c, x, opening)
  {
    if act.Spawn? {
      OneDebit(a, c, x);
      SuccessesAppend(s.procs, Start(act.call));
    } else {
      KeepBurstRun(s, act.w, a, c, x, opening);
    }
  }

  lemma {:induction false} KeepBurstAll(s: State, acts: seq<Action>, a: int, c: int, x: int, opening: int)
    requires Inv(s) && Burst(s, a, c, x, opening) && Feasible(s, acts) && x > 0 && a != c
        && OnlyTransfers(acts, a, c, x)
    ensures Burst(Exec(s, acts), a, c, x, opening)
    decreases |acts|
  {
    if acts != [] {
      Keep(s, acts[0]);
      KeepBurst(s, acts[0], a, c, x, opening);
      assert forall i :: 0 <= i < |acts[1..]| ==> acts[1..][i] == acts[i + 1];
      KeepBurstAll(Step(s, acts[0]), acts[1..], a, c, x, opening);
    }
  }

  lemma Gap(x: int, i: int, j: int)
    requires x > 0
    ensures i < j ==> x * i + x <= x * j
  {
    if i < j {
      var d := j - i - 1;
      assert x * j == x * i + x + x * d;
    }
  }

  lemma Quotient(b: int, x: int, k: nat)
    requires x > 0 && 0 <= b - x * k
    ensures k <= b / x
    ensures b - x * k < x ==> k == b / x
  {
    var q := b / x;
    assert b == x * q + b % x;
    Gap(x, k, q);
    Gap(x, q, k);
  }

  /**
   n concurrent debits of x against an opening balance b, in any interleaving:
   min(n, b / x) succeed, every other one is refused for insufficient funds, and
   the account is left with b minus x per success.
   */
  lemma BurstExact(s: State, acts: seq<Action>, a: int, c: int, x: int)
    requires Initial(s) && a in s.ledger.accounts && !s.ledger.accounts[a] && c in s.ledger.accounts && a != c && x > 0
    requires Feasible(s, acts) && OnlyTransfers(acts, a, c, x) && Quiescent(Exec(s, acts))
    ensures var z := Exec(s, acts);
      var fundable := Balance(s.ledger.rows, a) / x;
      && Successes(z.procs) == (if |z.procs| <= fundable then |z.procs| else fundable)
      && Balance(z.ledger.rows, a) == Balance(s.ledger.rows, a) - x * Successes(z.procs)
      && forall v :: 0 <= v < |z.procs| ==>
           z.procs[v].pc.Done? || (z.procs[v].pc.Rejected? && z.procs[v].pc.error.InsufficientFunds?)
  {
    var opening := Balance(s.ledger.rows, a);
    KeepAll(s, acts);
    KeepBurstAll(s, acts, a, c, x, opening);
    var z := Exec(s, acts);
    AllSucceeded(z.procs);
    Quotient(opening, x, Successes(z.procs));
  }
}
