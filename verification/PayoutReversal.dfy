/**
 How often the reversal of one payout is posted to the ledger: once when
 reversal calls do not overlap and none dies between its posting and its status
 write; twice when two calls overlap, because Stripe answers the second one's
 repeated key and nothing claims the row.
 */
module PayoutReversal {
  import opened Wrappers
  import opened PayoutMachine
  import opened PayoutSafety

  predicate Reversing(k: Worker) {
    k.ReversalRead? || k.ReversalStripe? || k.ReversalLedger? || k.ReversalMark?
  }

  predicate InReversal(s: State) {
    exists v :: 0 <= v < |s.workers| && Reversing(s.workers[v])
  }

  /** The callers' discipline: one reversal call at a time, and none crashes after its posting. */
  predicate Orderly(s: State, acts: seq<Action>)
    requires Feasible(s, acts)
    decreases |acts|
  {
    acts == [] ||
    ((acts[0] == Spawn(ReversalRead) ==> !InReversal(s)) &&
     (acts[0].Crash? ==> !s.workers[acts[0].w].ReversalMark?) &&
     Orderly(Step(s, acts[0]), acts[1..]))
  }

  predicate Posted(s: State) {
    exists v :: 0 <= v < |s.workers| && s.workers[v].ReversalMark?
  }

  ghost predicate Once(s: State) {
    && (forall v, w :: 0 <= v < |s.workers| && 0 <= w < |s.workers| && v != w ==>
        !(Reversing(s.workers[v]) && Reversing(s.workers[w])))
    && s.reversed == (if s.row.status.Reversed? || Posted(s) then 1 else 0)
    && (s.row.status.Reversed? ==>
          forall v :: 0 <= v < |s.workers| && Reversing(s.workers[v]) ==> s.workers[v].ReversalRead?)
  }

  /** Replacing a worker that does not reverse by one that does not. */
  lemma OnceAside(s: State, s': State, w: nat)
    requires Once(s) && w < |s.workers| == |s'.workers| && s'.workers == s.workers[w := s'.workers[w]]
    requires !Reversing(s.workers[w]) && !Reversing(s'.workers[w])
    requires s'.reversed == s.reversed && (s'.row.status.Reversed? <==> s.row.status.Reversed?)
    ensures Once(s')
  {
    if Posted(s) {
      var v :| 0 <= v < |s.workers| && s.workers[v].ReversalMark?;
      assert s'.workers[v].ReversalMark?;
    }
  }

  /** A step of the one worker that reverses. */
  lemma OnceReversing(s: State, w: nat, ok: bool)
    requires Inv(s) && Once(s) && w < |s.workers| && Reversing(s.workers[w])
    ensures Once(RunStep(s, w, ok))
  {
    assert WorkerOk(s, s.workers[w]);
    var s' := RunStep(s, w, ok);
    forall v | 0 <= v < |s.workers| && v != w ensures s'.workers[v] == s.workers[v] && !Reversing(s'.workers[v]) {
    }
    assert Posted(s) <==> s.workers[w].ReversalMark?;
    assert Posted(s') <==> s'.workers[w].ReversalMark?;
  }

  lemma AsideRow(s: State, w: nat, ok: bool)
    requires Inv(s) && w < |s.workers| && Live(s.workers[w]) && !s.workers[w].GateCheck? && !Reversing(s.workers[w])
    ensures var s' := RunStep(s, w, ok);
      && |s'.workers| == |s.workers| && s'.workers == s.workers[w := s'.workers[w]] && !Reversing(s'.workers[w])
      && s'.reversed == s.reversed && (s'.row.status.Reversed? <==> s.row.status.Reversed?)
  {
    assert WorkerOk(s, s.workers[w]);
  }

  lemma OnceSpawn(s: State, k: Worker)
    requires Once(s) && Entry(k) && (k.ReversalRead? ==> !InReversal(s))
    ensures Once(s.(workers := s.workers + [k]))
  {
    var s' := s.(workers := s.workers + [k]);
    assert forall v :: 0 <= v < |s.workers| ==> s'.workers[v] == s.workers[v];
    assert Posted(s') <==> Posted(s) by {
      if Posted(s) {
        var v :| 0 <= v < |s.workers| && s.workers[v].ReversalMark?;
        assert s'.workers[v].ReversalMark?;
      }
    }
  }

  lemma OnceCrash(s: State, w: nat)
    requires Once(s) && w < |s.workers| && !s.workers[w].ReversalMark?
    ensures Once(Goto(s, w, Crashed))
  {
    var s' := Goto(s, w, Crashed);
    if Posted(s) {
      var v :| 0 <= v < |s.workers| && s.workers[v].ReversalMark?;
      assert s'.workers[v].ReversalMark?;
    }
  }

  lemma KeepOnce(s: State, a: Action)
    requires Inv(s) && Once(s) && Enabled(s, a)
    requires a == Spawn(ReversalRead) ==> !InReversal(s)
    requires a.Crash? ==> !s.workers[a.w].ReversalMark?
    ensures Once(Step(s, a))
  {
    match a {
      case Spawn(k) => OnceSpawn(s, k);
      case Crash(w) => OnceCrash(s, w);
      case Gate(w, _) => OnceAside(s, Step(s, a), w);
      case Run(w, ok) =>
        if Reversing(s.workers[w]) {
          OnceReversing(s, w, ok);
        } else {
          AsideRow(s, w, ok);
          OnceAside(s, RunStep(s, w, ok), w);
        }
      case _ => assert Posted(Step(s, a)) == Posted(s);
    }
  }

  lemma {:induction false} KeepOnceAll(s: State, acts: seq<Action>)
    requires Inv(s) && Once(s) && Feasible(s, acts) && Orderly(s, acts)
    ensures Once(Exec(s, acts))
    decreases |acts|
  {
    if acts != [] {
      KeepOnce(s, acts[0]);
      Keep(s, acts[0]);
      KeepOnceAll(Step(s, acts[0]), acts[1..]);
    }
  }

  /**
   In an orderly run the reversal is posted at most once, and a payout at rest is
   REVERSED exactly when it was posted.
   */
  lemma ReversedOnce(n: nat, acts: seq<Action>)
    requires Feasible(Created(n), acts) && Orderly(Created(n), acts)
    ensures var s := Exec(Created(n), acts);
      && s.reversed <= 1 && (s.row.status.Reversed? ==> s.reversed == 1)
      && (Idle(s) ==> (s.reversed == 1 <==> s.row.status.Reversed?))
  {
    KeepOnceAll(Created(n), acts);
  }

  // ---- Two calls that overlap ----

  lemma Moves(s: State, acts: seq<Action>, w: nat, ok: bool, k: Worker)
    requires Feasible(s, acts) && w < |Exec(s, acts).workers|
    requires Live(Exec(s, acts).workers[w]) && !Exec(s, acts).workers[w].GateCheck?
    requires RunStep(Exec(s, acts), w, ok).workers[w] == k
    ensures Feasible(s, acts + [Run(w, ok)]) && Exec(s, acts + [Run(w, ok)]) == RunStep(Exec(s, acts), w, ok)
  {
    Snoc(s, acts, Run(w, ok));
  }

  lemma BothRead(s: State) returns (acts: seq<Action>)
    requires s.row.status.Paid?
    ensures Feasible(s, acts) && Exec(s, acts) == s.(workers := s.workers + [ReversalStripe, ReversalStripe])
  {
    var n := |s.workers|;
    Snoc(s, [], Spawn(ReversalRead));
    assert [] + [Spawn(ReversalRead)] == [Spawn(ReversalRead)];
    acts := [Spawn(ReversalRead)];
    Snoc(s, acts, Spawn(ReversalRead));
    acts := acts + [Spawn(ReversalRead)];
    assert Exec(s, acts) == s.(workers := s.workers + [ReversalRead, ReversalRead]);
    Moves(s, acts, n, true, ReversalStripe);
    acts := acts + [Run(n, true)];
    assert Exec(s, acts) == s.(workers := s.workers + [ReversalStripe, ReversalRead]);
    Moves(s, acts, n + 1, true, ReversalStripe);
    acts := acts + [Run(n + 1, true)];
    assert Exec(s, acts) == s.(workers := s.workers + [ReversalStripe, ReversalStripe]);
  }

  /** On any PAID payout two overlapping reversal calls post the reversal twice. */
  lemma DoubleReversal(s: State) returns (acts: seq<Action>)
    requires s.row.status.Paid?
    ensures Feasible(s, acts) && Exec(s, acts).reversed == s.reversed + 2
  {
    var n := |s.workers|;
    acts := BothRead(s);
    Moves(s, acts, n, true, ReversalLedger);
    acts := acts + [Run(n, true)];
    Moves(s, acts, n, true, ReversalMark);
    acts := acts + [Run(n, true)];
    assert Exec(s, acts) == s.(workers := s.workers + [ReversalMark, ReversalStripe], reversed := s.reversed + 1);
    Moves(s, acts, n + 1, true, ReversalLedger);
    acts := acts + [Run(n + 1, true)];
    Moves(s, acts, n + 1, true, ReversalMark);
    acts := acts + [Run(n + 1, true)];
  }

  // ---- A call that dies after its posting ----

  lemma PostedOnce(s: State) returns (acts: seq<Action>)
    requires s.row.status.Paid?
    ensures Feasible(s, acts)
    ensures Exec(s, acts) == s.(workers := s.workers + [ReversalMark], reversed := s.reversed + 1)
  {
    var n := |s.workers|;
    Snoc(s, [], Spawn(ReversalRead));
    assert [] + [Spawn(ReversalRead)] == [Spawn(ReversalRead)];
    acts := [Spawn(ReversalRead)];
    LastMoves(s, acts, s, ReversalRead, true, s.(workers := s.workers + [ReversalStripe]));
    acts := acts + [Run(n, true)];
    LastMoves(s, acts, s, ReversalStripe, true, s.(workers := s.workers + [ReversalLedger]));
    acts := acts + [Run(n, true)];
    LastMoves(s, acts, s, ReversalLedger, true, s.(workers := s.workers + [ReversalMark], reversed := s.reversed + 1));
    acts := acts + [Run(n, true)];
  }

  /**
   On any PAID payout a reversal call that dies between its posting and its status
   write, followed by another call, posts twice.
   */
  lemma CrashedReversalRepeats(s: State) returns (acts: seq<Action>)
    requires s.row.status.Paid?
    ensures Feasible(s, acts) && Exec(s, acts).reversed == s.reversed + 2
  {
    var n := |s.workers|;
    var first := PostedOnce(s);
    Snoc(s, first, Crash(n));
    first := first + [Crash(n)];
    var z := Exec(s, first);
    var second := PostedOnce(z);
    Chain(s, first, second);
    acts := first + second;
  }

  // ---- Any number of calls ----

  /** A reversal call that has begun and not posted. */
  predicate Unposted(k: Worker) {
    k.ReversalRead? || k.ReversalStripe? || k.ReversalLedger?
  }

  function UnpostedCount(workers: seq<Worker>): nat {
    if workers == [] then 0 else (if Unposted(workers[0]) then 1 else 0) + UnpostedCount(workers[1..])
  }

  lemma {:induction false} UnpostedUpdate(workers: seq<Worker>, w: nat, k: Worker)
    requires w < |workers|
    ensures UnpostedCount(workers[w := k]) ==
            UnpostedCount(workers) - (if Unposted(workers[w]) then 1 else 0) + (if Unposted(k) then 1 else 0)
  {
    if w == 0 {
      assert workers[0 := k][1..] == workers[1..];
    } else {
      assert workers[w := k][1..] == workers[1..][w - 1 := k];
      UnpostedUpdate(workers[1..], w - 1, k);
    }
  }

  lemma {:induction false} UnpostedAppend(workers: seq<Worker>, k: Worker)
    ensures UnpostedCount(workers + [k]) == UnpostedCount(workers) + (if Unposted(k) then 1 else 0)
  {
    if workers == [] {
      assert workers + [k] == [k] && [k][1..] == [];
      assert UnpostedCount([k]) == (if Unposted(k) then 1 else 0) + UnpostedCount([]);
    } else {
      assert (workers + [k])[1..] == workers[1..] + [k];
      UnpostedAppend(workers[1..], k);
    }
  }

  predicate NoneStarted(acts: seq<Action>) {
    Spawn(ReversalRead) !in acts
  }

  /** A posting uses up one pending call, and no other step makes one. */
  lemma StepSpends(s: State, a: Action)
    requires Enabled(s, a) && a != Spawn(ReversalRead)
    ensures Step(s, a).reversed + UnpostedCount(Step(s, a).workers) <= s.reversed + UnpostedCount(s.workers)
  {
    match a {
      case Spawn(k) => UnpostedAppend(s.workers, k);
      case Run(w, ok) => RunSpends(s, w, ok);
      case Gate(w, f) => UnpostedUpdate(s.workers, w, if Passes(f) then GateGrant(f) else Finished);
      case Crash(w) => UnpostedUpdate(s.workers, w, Crashed);
      case _ =>
    }
  }

  lemma RunSpends(s: State, w: nat, ok: bool)
    requires w < |s.workers|
    ensures var s' := RunStep(s, w, ok);
      s'.reversed + UnpostedCount(s'.workers) <= s.reversed + UnpostedCount(s.workers)
  {
    var s' := RunStep(s, w, ok);
    OneWorker(s, w, ok);
    PostsFromLedger(s, w, ok);
    UnpostedUpdate(s.workers, w, s'.workers[w]);
  }

  lemma OneWorker(s: State, w: nat, ok: bool)
    requires w < |s.workers|
    ensures |RunStep(s, w, ok).workers| == |s.workers|
    ensures RunStep(s, w, ok).workers == s.workers[w := RunStep(s, w, ok).workers[w]]
  {
  }

  lemma PostsFromLedger(s: State, w: nat, ok: bool)
    requires w < |s.workers|
    ensures var s' := RunStep(s, w, ok); var k := s.workers[w];
      && (Unposted(s'.workers[w]) ==> Unposted(k) && s'.reversed == s.reversed)
      && s'.reversed == s.reversed + (if k.ReversalLedger? && ok then 1 else 0)
  {
  }

  lemma {:induction false} RunSpendsAll(s: State, acts: seq<Action>)
    requires Feasible(s, acts) && NoneStarted(acts)
    ensures Exec(s, acts).reversed <= s.reversed + UnpostedCount(s.workers)
    decreases |acts|
  {
    if acts != [] {
      StepSpends(s, acts[0]);
      RunSpendsAll(Step(s, acts[0]), acts[1..]);
    }
  }

  lemma {:induction false} SomeUnposted(workers: seq<Worker>) returns (w: nat)
    requires UnpostedCount(workers) > 0
    ensures w < |workers| && Unposted(workers[w])
  {
    if Unposted(workers[0]) {
      w := 0;
    } else {
      var v := SomeUnposted(workers[1..]);
      w := v + 1;
    }
  }

  /** The next step of a pending call on a PAID payout, when everything goes well. */
  function Ahead(k: Worker): Worker
    requires Unposted(k)
  {
    match k
    case ReversalRead => ReversalStripe
    case ReversalStripe => ReversalLedger
    case ReversalLedger => ReversalMark
  }

  /** How many such steps the pending calls have left. */
  function StepsLeft(k: Worker): nat {
    match k
    case ReversalRead => 3
    case ReversalStripe => 2
    case ReversalLedger => 1
    case _ => 0
  }

  function AllLeft(workers: seq<Worker>): nat {
    if workers == [] then 0 else StepsLeft(workers[0]) + AllLeft(workers[1..])
  }

  lemma {:induction false} LeftUpdate(workers: seq<Worker>, w: nat, k: Worker)
    requires w < |workers|
    ensures AllLeft(workers[w := k]) == AllLeft(workers) - StepsLeft(workers[w]) + StepsLeft(k)
  {
    if w == 0 {
      assert workers[0 := k][1..] == workers[1..];
    } else {
      assert workers[w := k][1..] == workers[1..][w - 1 := k];
      LeftUpdate(workers[1..], w - 1, k);
    }
  }

  lemma {:induction false} AllPost(s: State) returns (acts: seq<Action>)
    requires s.row.status.Paid?
    ensures NoneStarted(acts) && Feasible(s, acts)
    ensures Exec(s, acts).reversed == s.reversed + UnpostedCount(s.workers)
    decreases AllLeft(s.workers)
  {
    if UnpostedCount(s.workers) == 0 {
      acts := [];
    } else {
      var w := SomeUnposted(s.workers);
      var k := s.workers[w];
      var s' := Step(s, Run(w, true));
      assert s'.workers == s.workers[w := Ahead(k)] && s'.row == s.row;
      UnpostedUpdate(s.workers, w, Ahead(k));
      LeftUpdate(s.workers, w, Ahead(k));
      var rest := AllPost(s');
      acts := [Run(w, true)] + rest;
      assert acts[1..] == rest;
    }
  }

  /**
   On a PAID payout with m reversal calls begun and not posted, and no more
   started: every run posts at most m further reversals, and some run posts m.
   */
  lemma ReversalsExact(s: State) returns (acts: seq<Action>)
    requires s.row.status.Paid?
    ensures forall run :: Feasible(s, run) && NoneStarted(run) ==>
      Exec(s, run).reversed <= s.reversed + UnpostedCount(s.workers)
    ensures NoneStarted(acts) && Feasible(s, acts) && Exec(s, acts).reversed == s.reversed + UnpostedCount(s.workers)
  {
    forall run | Feasible(s, run) && NoneStarted(run)
      ensures Exec(s, run).reversed <= s.reversed + UnpostedCount(s.workers)
    {
      RunSpendsAll(s, run);
    }
    acts := AllPost(s);
  }
}
