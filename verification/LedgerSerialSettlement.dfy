/**
 The refinement with settlements atomic in full, guard included.  It holds for
 runs in which settlements of one transaction do not overlap and nothing outside
 the ledger rewrites a transaction while it is being settled.
 */
module LedgerSerialSettlement {
  import opened Wrappers
  import opened Ledger
  import opened LedgerProtocol
  import opened LedgerSafety
  import opened LedgerRefinement
  import opened LedgerProgress
  import opened LedgerSettlement

  // ---- The strict atomic ledger ----

  /** A settlement event answered by the whole atomic settlement; the other events as before. */
  function ApplyInFull(l: Tables, ev: Event): Option<Tables> {
    match ev
    case Committed(Settle(es, t), id) =>
      if id == t && AtomicSettle(l, es, t).Ok? then Some(AtomicSettle(l, es, t).value) else None
    case Refused(Settle(es, t), e) => if AtomicSettle(l, es, t) == Err(e) then Some(l) else None
    case _ => Apply(l, ev)
  }

  function ReplayInFull(l: Tables, evs: seq<Event>): Option<Tables>
    decreases evs
  {
    if evs == [] then Some(l)
    else match ApplyInFull(l, evs[0])
      case None => None
      case Some(l') => ReplayInFull(l', evs[1..])
  }

  // ---- The discipline ----

  predicate Calm(s: State, a: Action) {
    && (a.Spawn? && a.call.Settle? ==> !InFlight(s, a.call.target))
    && (a.Reconcile? ==> !InFlight(s, a.t))
  }

  predicate CalmRun(s: State, acts: seq<Action>)
    requires Feasible(s, acts)
    decreases |acts|
  {
    acts == [] || (Calm(s, acts[0]) && CalmRun(Step(s, acts[0]), acts[1..]))
  }

  // ---- What a settlement saw still holds ----

  /** The part of the guard a settlement has passed. */
  predicate SawGuard(l: Tables, p: Proc) {
    p.call.Settle? && p.Active() ==>
      && (!p.pc.CheckStatus? ==> p.call.target in l.txs && l.txs[p.call.target].status.Pending?)
      && (PastGuard(p) ==> !HasEntries(l.rows, p.call.target))
  }

  ghost predicate Guarded(s: State) {
    && (forall v :: 0 <= v < |s.procs| ==> SawGuard(s.ledger, s.procs[v]))
    && (forall v, w :: 0 <= v < |s.procs| && 0 <= w < |s.procs| && v != w ==> OneSettler(s.procs[v], s.procs[w]))
  }

  predicate OneSettler(p: Proc, q: Proc) {
    p.call.Settle? && p.Active() && q.call.Settle? && q.Active() ==> p.call.target != q.call.target
  }

  /** A statement that leaves the tables alone and does not pass a guard that fails. */
  lemma GuardedMove(s: State, s': State, w: nat)
    requires Guarded(s) && w < |s.procs| == |s'.procs| && s'.ledger == s.ledger
    requires s'.procs == s.procs[w := s'.procs[w]] && s'.procs[w].call == s.procs[w].call
    requires s'.procs[w].Active() ==> s.procs[w].Active()
    requires SawGuard(s.ledger, s'.procs[w])
    ensures Guarded(s')
  {
  }

  /** A statement other than a commit: the tables stay, and what it checks it has seen. */
  lemma QuietSees(s: State, w: nat)
    requires Guarded(s) && w < |s.procs| && s.procs[w].Active() && PcOk(s.ledger, s.nextTx, s.procs[w])
    requires !s.procs[w].pc.Commit?
    ensures var q := RunStep(s, w).procs[w];
      RunStep(s, w).ledger == s.ledger && q.call == s.procs[w].call && SawGuard(s.ledger, q)
  {
    assert SawGuard(s.ledger, s.procs[w]);
    QuietStep(s, w, 0);
  }

  /** A commit ends its call, and every other settlement is of another transaction. */
  lemma GuardedCommit(s: State, w: nat)
    requires Inv(s) && Guarded(s) && Enabled(s, Run(w)) && s.procs[w].pc.Commit?
    ensures Guarded(RunStep(s, w))
  {
    var p := s.procs[w];
    var s' := RunStep(s, w);
    var t := p.pc.tx;
    assert ProcOk(s.ledger, s.nextTx, p);
    assert s'.procs == s.procs[w := p.(pc := Done(t))];
    forall v | 0 <= v < |s.procs| && v != w ensures SawGuard(s'.ledger, s.procs[v]) {
      var q := s.procs[v];
      assert SawGuard(s.ledger, q) && OneSettler(p, q);
      if q.call.Settle? && q.Active() {
        PostHasEntries(s.ledger.rows, t, p.call.es, q.call.target);
      }
    }
  }

  lemma GuardedTxWrite(s: State, t: nat, row: TxRow, n: nat)
    requires Guarded(s) && (t in s.ledger.txs ==> !InFlight(s, t))
    ensures Guarded(s.(ledger := s.ledger.(txs := s.ledger.txs[t := row]), nextTx := n))
  {
    var l' := s.ledger.(txs := s.ledger.txs[t := row]);
    forall v | 0 <= v < |s.procs| ensures SawGuard(l', s.procs[v]) {
      assert SawGuard(s.ledger, s.procs[v]);
      assert Settling(s.procs[v], t) ==> InFlight(s, t);
    }
  }

  lemma GuardedSpawn(s: State, call: Call)
    requires Guarded(s) && (call.Settle? ==> !InFlight(s, call.target))
    ensures Guarded(s.(procs := s.procs + [Start(call)]))
  {
    var s' := s.(procs := s.procs + [Start(call)]);
    assert forall v :: 0 <= v < |s.procs| ==> s'.procs[v] == s.procs[v];
    forall v | 0 <= v < |s.procs| ensures OneSettler(s.procs[v], Start(call)) && OneSettler(Start(call), s.procs[v]) {
      assert call.Settle? && Settling(s.procs[v], call.target) ==> InFlight(s, call.target);
    }
  }

  lemma KeepGuarded(s: State, a: Action)
    requires Inv(s) && Guarded(s) && Enabled(s, a) && Calm(s, a)
    ensures Guarded(Step(s, a))
  {
    match a {
      case Spawn(call) => GuardedSpawn(s, call);
      case Crash(w) => GuardedMove(s, Step(s, a), w);
      case Intake(k) =>
        GuardedTxWrite(s, s.nextTx, TxRow(Pending, Some(k)), s.nextTx + 1);
      case Reconcile(t, status) => GuardedTxWrite(s, t, s.ledger.txs[t].(status := status), s.nextTx);
      case Run(w) =>
        assert ProcOk(s.ledger, s.nextTx, s.procs[w]);
        StepLeft(s, w);
        if s.procs[w].pc.Commit? {
          GuardedCommit(s, w);
        } else {
          QuietSees(s, w);
          GuardedMove(s, RunStep(s, w), w);
        }
    }
  }

  // ---- The refinement ----

  lemma CommitInFull(s: State, w: nat)
    requires Inv(s) && Guarded(s) && Enabled(s, Run(w)) && RunStep(s, w).procs[w].pc.Done?
    ensures ApplyInFull(s.ledger, Committed(s.procs[w].call, RunStep(s, w).procs[w].pc.tx)) ==
        Some(RunStep(s, w).ledger)
  {
    assert ProcOk(s.ledger, s.nextTx, s.procs[w]) && SawGuard(s.ledger, s.procs[w]);
    CommitIsAtomic(s, w);
    if s.procs[w].call.Settle? {
      SettlementAtomicIff(s, w);
    }
  }

  lemma RefusalInFull(s: State, w: nat)
    requires Inv(s) && Guarded(s) && Enabled(s, Run(w)) && RunStep(s, w).procs[w].pc.Rejected?
    ensures ApplyInFull(s.ledger, Refused(s.procs[w].call, RunStep(s, w).procs[w].pc.error)) == Some(s.ledger)
    ensures RunStep(s, w).ledger == s.ledger
  {
    assert ProcOk(s.ledger, s.nextTx, s.procs[w]) && SawGuard(s.ledger, s.procs[w]);
    RefusalIsAtomic(s, w);
  }

  lemma StepInFull(s: State, a: Action)
    requires Inv(s) && Guarded(s) && Enabled(s, a)
    ensures ReplayInFull(s.ledger, Instant(s, a)) == Some(Step(s, a).ledger)
  {
    StepRefines(s, a);
    if a.Run? {
      if RunStep(s, a.w).procs[a.w].pc.Done? {
        CommitInFull(s, a.w);
      } else if RunStep(s, a.w).procs[a.w].pc.Rejected? {
        RefusalInFull(s, a.w);
      }
    }
  }

  lemma {:induction false} ReplayInFullAppend(l: Tables, e1: seq<Event>, e2: seq<Event>)
    requires ReplayInFull(l, e1).Some?
    ensures ReplayInFull(l, e1 + e2) == ReplayInFull(ReplayInFull(l, e1).value, e2)
    decreases e1
  {
    if e1 == [] {
      assert e1 + e2 == e2;
    } else {
      assert (e1 + e2)[1..] == e1[1..] + e2;
      ReplayInFullAppend(ApplyInFull(l, e1[0]).value, e1[1..], e2);
    }
  }

  lemma {:induction false} RunInFull(s: State, acts: seq<Action>)
    requires Inv(s) && Guarded(s) && Feasible(s, acts) && CalmRun(s, acts)
    ensures ReplayInFull(s.ledger, Trace(s, acts)) == Some(Exec(s, acts).ledger)
    decreases |acts|
  {
    if acts != [] {
      StepInFull(s, acts[0]);
      Keep(s, acts[0]);
      KeepGuarded(s, acts[0]);
      RunInFull(Step(s, acts[0]), acts[1..]);
      ReplayInFullAppend(s.ledger, Instant(s, acts[0]), Trace(Step(s, acts[0]), acts[1..]));
    }
  }

  /**
   Every such run is a serial run of the atomic ledger, create calls and
   settlements alike: same answers, same tables.
   */
  lemma LinearizableInFull(s: State, acts: seq<Action>)
    requires Initial(s) && Feasible(s, acts) && CalmRun(s, acts)
    ensures ReplayInFull(s.ledger, Trace(s, acts)) == Some(Exec(s, acts).ledger)
  {
    RunInFull(s, acts);
  }
}
