/** Deadlock freedom and termination of the interleaved ledger calls. */
module LedgerProgress {
  import opened Wrappers
  import opened Ledger
  import opened LedgerProtocol
  import opened LedgerSafety

  predicate Quiescent(s: State) {
    forall v :: 0 <= v < |s.procs| ==> !s.procs[v].Active()
  }

  predicate AtLoop(p: Proc) {
    p.pc.Lock? && p.pc.i < |p.Ids()|
  }

  /** Outside the locking loop a process only waits for one that waits for nothing. */
  lemma BeyondLoop(s: State, w: nat) returns (v: nat)
    requires Inv(s) && w < |s.procs| && s.procs[w].Active() && !s.procs[w].pc.Lock?
    ensures Enabled(s, Run(v))
  {
    v := w;
    if Waiting(s, w) {
      if s.procs[w].pc.InsertTx? {
        v :| 0 <= v < |s.procs| && s.procs[v].HoldsIntent(s.procs[w].call.intent.value);
      } else {
        v :| 0 <= v < |s.procs| && s.procs[v].HoldsTxRow(s.procs[w].pc.tx);
      }
    }
  }

  /** Of the first n processes, the waiting one that wants the highest account id. */
  lemma {:induction false} Highest(s: State, n: nat) returns (w: nat)
    requires n <= |s.procs|
    requires exists v :: 0 <= v < n && AtLoop(s.procs[v])
    ensures w < n && AtLoop(s.procs[w])
    ensures forall v :: 0 <= v < n && AtLoop(s.procs[v]) ==>
              s.procs[v].Ids()[s.procs[v].pc.i] <= s.procs[w].Ids()[s.procs[w].pc.i]
  {
    if exists v :: 0 <= v < n - 1 && AtLoop(s.procs[v]) {
      w := Highest(s, n - 1);
      if AtLoop(s.procs[n - 1]) && s.procs[n - 1].Ids()[s.procs[n - 1].pc.i] > s.procs[w].Ids()[s.procs[w].pc.i] {
        w := n - 1;
      }
    } else {
      w := n - 1;
    }
  }

  /** Locks are taken in ascending order, so nobody who is still in the loop holds what the highest one wants. */
  lemma HighestIsFree(s: State, w: nat, v: nat)
    requires Inv(s) && w < |s.procs| && AtLoop(s.procs[w])
    requires v < |s.procs| && s.procs[v].pc.Lock?
    requires AtLoop(s.procs[v]) ==> s.procs[v].Ids()[s.procs[v].pc.i] <= s.procs[w].Ids()[s.procs[w].pc.i]
    ensures !s.procs[v].Holds(s.procs[w].Ids()[s.procs[w].pc.i])
  {
    assert ProcOk(s.ledger, s.nextTx, s.procs[v]);
    assert AscendingIds(s.procs[v].Ids());
  }

  lemma InLoop(s: State, u: nat)
    requires Inv(s) && u < |s.procs| && s.procs[u].pc.Lock?
    ensures AtLoop(s.procs[u])
  {
    assert ProcOk(s.ledger, s.nextTx, s.procs[u]);
  }

  lemma EveryoneInLoop(s: State, u: nat) returns (w: nat)
    requires Inv(s) && u < |s.procs| && s.procs[u].pc.Lock?
    requires forall v :: 0 <= v < |s.procs| && s.procs[v].Active() ==> s.procs[v].pc.Lock?
    ensures w < |s.procs| && s.procs[w].Active() && !Waiting(s, w)
  {
    InLoop(s, u);
    w := Highest(s, |s.procs|);
    var a := s.procs[w].Ids()[s.procs[w].pc.i];
    forall v | 0 <= v < |s.procs| ensures !s.procs[v].Holds(a) {
      if s.procs[v].Active() {
        HighestIsFree(s, w, v);
      } else {
        assert s.procs[v].Locks() == 0;
      }
    }
    assert !AccountHeld(s, a);
  }

  /** No reachable state is a deadlock: while a call is unfinished, some call can take its next statement. */
  lemma NoDeadlock(s: State) returns (w: nat)
    requires Inv(s) && !Quiescent(s)
    ensures Enabled(s, Run(w))
  {
    var u :| 0 <= u < |s.procs| && s.procs[u].Active();
    if v :| 0 <= v < |s.procs| && s.procs[v].Active() && !s.procs[v].pc.Lock? {
      w := BeyondLoop(s, v);
    } else {
      w := EveryoneInLoop(s, u);
    }
  }

  // ---- Termination ----

  /** An upper bound on the statements a process has left. */
  function Left(p: Proc): nat {
    var n := |p.Ids()|;
    match p.pc
    case CheckStatus => 2 * n + 6
    case CheckCount => 2 * n + 5
    case Lock(i) => if i <= n then 2 * (n - i) + 4 else 5
    case Read(i) => if i < n then 2 * (n - i) + 3 else 5
    case InsertTx => 4
    case InsertEntries(_) => 3
    case UpdateStatus(_) => 2
    case Commit(_) => 1
    case _ => 0
  }

  function Work(procs: seq<Proc>): nat {
    if procs == [] then 0 else Left(procs[0]) + Work(procs[1..])
  }

  lemma {:induction false} WorkUpdate(procs: seq<Proc>, w: nat, p: Proc)
    requires w < |procs|
    ensures Work(procs[w := p]) == Work(procs) - Left(procs[w]) + Left(p)
  {
    if w == 0 {
      assert procs[0 := p][1..] == procs[1..];
    } else {
      assert procs[w := p][1..] == procs[1..][w - 1 := p];
      WorkUpdate(procs[1..], w - 1, p);
    }
  }

  lemma StepLeft(s: State, w: nat)
    requires w < |s.procs| && s.procs[w].Active() && PcOk(s.ledger, s.nextTx, s.procs[w])
    ensures |RunStep(s, w).procs| == |s.procs|
    ensures Left(RunStep(s, w).procs[w]) < Left(s.procs[w])
    ensures RunStep(s, w).procs == s.procs[w := RunStep(s, w).procs[w]]
  {
    var p := s.procs[w];
    match p.pc {
      case CheckStatus =>
      case CheckCount => assert Left(p.(pc := LoopAt(p.call, 0))) <= 2 * |p.Ids()| + 4;
      case Read(i) => assert Left(p.(pc := LoopAt(p.call, i + 1))) <= 2 * (|p.Ids()| - i - 1) + 4;
      case _ =>
    }
  }

  lemma StatementsRunOut(s: State, a: Action)
    requires Inv(s) && Enabled(s, a) && (a.Run? || a.Crash?)
    ensures Work(Step(s, a).procs) < Work(s.procs)
  {
    assert ProcOk(s.ledger, s.nextTx, s.procs[a.w]);
    if a.Run? {
      StepLeft(s, a.w);
    }
    WorkUpdate(s.procs, a.w, Step(s, a).procs[a.w]);
  }

  predicate NoArrivals(acts: seq<Action>) {
    forall i :: 0 <= i < |acts| ==> acts[i].Run? || acts[i].Crash?
  }

  /** Once no new call arrives, a run cannot go on longer than the statements left. */
  lemma {:induction false} RunsEnd(s: State, acts: seq<Action>)
    requires Inv(s) && Feasible(s, acts) && NoArrivals(acts)
    ensures |acts| <= Work(s.procs)
    decreases |acts|
  {
    if acts != [] {
      assert acts[0].Run? || acts[0].Crash?;
      StatementsRunOut(s, acts[0]);
      Keep(s, acts[0]);
      assert forall i :: 0 <= i < |acts[1..]| ==> acts[1..][i] == acts[i + 1];
      RunsEnd(Step(s, acts[0]), acts[1..]);
    }
  }

  /** From every reachable state the calls in progress can all be driven to their end, none of them by a crash. */
  lemma {:induction false} CanFinish(s: State) returns (acts: seq<Action>)
    requires Inv(s)
    ensures forall i :: 0 <= i < |acts| ==> acts[i].Run?
    ensures Feasible(s, acts) && Quiescent(Exec(s, acts))
    decreases Work(s.procs)
  {
    if Quiescent(s) {
      acts := [];
    } else {
      var w := NoDeadlock(s);
      StatementsRunOut(s, Run(w));
      Keep(s, Run(w));
      var rest := CanFinish(Step(s, Run(w)));
      acts := [Run(w)] + rest;
      Prefixed(s, Run(w), rest);
    }
  }

  lemma Prefixed(s: State, a: Action, rest: seq<Action>)
    requires Enabled(s, a) && Feasible(Step(s, a), rest)
    ensures Feasible(s, [a] + rest) && Exec(s, [a] + rest) == Exec(Step(s, a), rest)
  {
    assert ([a] + rest)[1..] == rest;
  }
}
