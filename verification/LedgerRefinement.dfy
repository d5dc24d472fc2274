/**
 The interleaved protocol refines an atomic ledger.  Each call takes effect, or
 is refused, at one instant of the run: a commit at its commit, a refusal at
 the statement that throws.  Replaying those instants one call at a time on the
 atomic ledger yields the same outcomes and the same tables.
 */
module LedgerRefinement {
  import opened Wrappers
  import opened Ledger
  import opened LedgerProtocol
  import opened LedgerSafety

  datatype Event =
    | Committed(call: Call, id: nat)
    | Refused(call: Call, error: LedgerError)
    | Took(intent: string, id: nat)
    | Overwrote(t: nat, status: TxStatus)

  /** The instant, if any, that an action marks. */
  function Instant(s: State, a: Action): seq<Event>
    requires Enabled(s, a)
  {
    match a
    case Spawn(call) => if Validate(call.es).Some? then [Refused(call, Validate(call.es).value)] else []
    case Run(w) =>
      var pc := RunStep(s, w).procs[w].pc;
      if pc.Done? then [Committed(s.procs[w].call, pc.tx)]
      else if pc.Rejected? then [Refused(s.procs[w].call, pc.error)]
      else []
    case Crash(_) => []
    case Intake(k) => [Took(k, s.nextTx)]
    case Reconcile(t, status) => [Overwrote(t, status)]
  }

  function Trace(s: State, acts: seq<Action>): seq<Event>
    requires Feasible(s, acts)
    decreases |acts|
  {
    if acts == [] then [] else Instant(s, acts[0]) + Trace(Step(s, acts[0]), acts[1..])
  }

  /** What the atomic ledger answers to a call, refused for this reason. */
  predicate RefusedBy(l: Tables, call: Call, e: LedgerError) {
    match call
    case Create(es, intent) => AtomicCreate(l, es, intent, 0) == Err(e)
    case Settle(es, t) =>
      if Validate(es).Some? then e == Validate(es).value
      else if e.TxNotFound? || e.NotPending? then SettleGuard(l, t) == Some(e)
      else if e.AlreadyHasEntries? then HasEntries(l.rows, t)
      else t in l.txs && AtomicPost(l, es, t) == Err(e)
  }

  function Apply(l: Tables, ev: Event): Option<Tables> {
    match ev
    case Committed(Create(es, intent), id) =>
      if id !in l.txs && AtomicCreate(l, es, intent, id).Ok? then Some(AtomicCreate(l, es, intent, id).value) else None
    case Committed(Settle(es, t), id) =>
      if id == t && t in l.txs && Validate(es).None? && AtomicPost(l, es, t).Ok? then Some(AtomicPost(l, es, t).value)
      else None
    case Refused(call, e) => if RefusedBy(l, call, e) then Some(l) else None
    case Took(k, id) =>
      if id !in l.txs && !IntentTaken(l.txs, k) then Some(l.(txs := l.txs[id := TxRow(Pending, Some(k))])) else None
    case Overwrote(t, status) =>
      if t in l.txs then Some(l.(txs := l.txs[t := l.txs[t].(status := status)])) else None
  }

  /** The atomic ledger run on a list of events; None as soon as one of them is not its own answer. */
  function Replay(l: Tables, evs: seq<Event>): Option<Tables>
    decreases evs
  {
    if evs == [] then Some(l)
    else match Apply(l, evs[0])
      case None => None
      case Some(l') => Replay(l', evs[1..])
  }

  // ---- The funds loop, seen from its end and from its failing turn ----

  /** What the process read under its locks still entitles it to pass the loop now. */
  lemma ReadsStillPass(s: State, w: nat, k: nat)
    requires Inv(s) && w < |s.procs| && s.procs[w].Active() && k < |s.procs[w].seen|
    ensures k < |s.procs[w].Ids()|
    ensures FundsError(s.ledger, s.procs[w].call.es, s.procs[w].Ids()[k]).None?
  {
    assert ProcOk(s.ledger, s.nextTx, s.procs[w]);
  }

  lemma LoopPassed(s: State, w: nat)
    requires Inv(s) && w < |s.procs| && s.procs[w].Active() && |s.procs[w].seen| == |s.procs[w].Ids()|
    ensures CheckFunds(s.ledger, s.procs[w].call.es, s.procs[w].Ids()).None?
  {
    forall k | 0 <= k < |s.procs[w].Ids()| ensures FundsError(s.ledger, s.procs[w].call.es, s.procs[w].Ids()[k]).None? {
      ReadsStillPass(s, w, k);
    }
    FundsPass(s.ledger, s.procs[w].call.es, s.procs[w].Ids());
  }

  lemma LoopFails(s: State, w: nat, i: nat, e: LedgerError)
    requires Inv(s) && w < |s.procs| && s.procs[w].Active()
    requires i == |s.procs[w].seen| < |s.procs[w].Ids()|
    requires FundsError(s.ledger, s.procs[w].call.es, s.procs[w].Ids()[i]) == Some(e)
    ensures CheckFunds(s.ledger, s.procs[w].call.es, s.procs[w].Ids()) == Some(e)
  {
    var ids := s.procs[w].Ids();
    forall k | 0 <= k < i ensures FundsError(s.ledger, s.procs[w].call.es, ids[k]).None? {
      ReadsStillPass(s, w, k);
    }
    FundsSkip(s.ledger, s.procs[w].call.es, ids, i);
    assert ids[i..][0] == ids[i];
  }

  // ---- One step ----

  /** The statement that throws is one at which the atomic ledger refuses the call for the same reason. */
  lemma RefusalIsAtomic(s: State, w: nat)
    requires Inv(s) && Enabled(s, Run(w)) && RunStep(s, w).procs[w].pc.Rejected?
    ensures RefusedBy(s.ledger, s.procs[w].call, RunStep(s, w).procs[w].pc.error)
    ensures RunStep(s, w).ledger == s.ledger
  {
    var p := s.procs[w];
    assert ProcOk(s.ledger, s.nextTx, p);
    match p.pc {
      case Lock(i) => LoopFails(s, w, i, AccountNotFound(p.Ids()[i]));
      case Read(i) => LoopFails(s, w, i, RunStep(s, w).procs[w].pc.error);
      case InsertTx => LoopPassed(s, w);
      case InsertEntries(_) => LoopPassed(s, w);
      case _ =>
    }
  }

  lemma CommitIsAtomic(s: State, w: nat)
    requires Inv(s) && Enabled(s, Run(w)) && RunStep(s, w).procs[w].pc.Done?
    ensures Apply(s.ledger, Committed(s.procs[w].call, RunStep(s, w).procs[w].pc.tx)) == Some(RunStep(s, w).ledger)
  {
    assert ProcOk(s.ledger, s.nextTx, s.procs[w]);
    LoopPassed(s, w);
  }

  lemma StepRefines(s: State, a: Action)
    requires Inv(s) && Enabled(s, a)
    ensures Replay(s.ledger, Instant(s, a)) == Some(Step(s, a).ledger)
  {
    if a.Run? {
      assert ProcOk(s.ledger, s.nextTx, s.procs[a.w]);
      if RunStep(s, a.w).procs[a.w].pc.Done? {
        CommitIsAtomic(s, a.w);
      } else if RunStep(s, a.w).procs[a.w].pc.Rejected? {
        RefusalIsAtomic(s, a.w);
      }
    }
  }

  lemma {:induction false} ReplayAppend(l: Tables, e1: seq<Event>, e2: seq<Event>)
    requires Replay(l, e1).Some?
    ensures Replay(l, e1 + e2) == Replay(Replay(l, e1).value, e2)
    decreases e1
  {
    if e1 == [] {
      assert e1 + e2 == e2;
    } else {
      assert (e1 + e2)[1..] == e1[1..] + e2;
      ReplayAppend(Apply(l, e1[0]).value, e1[1..], e2);
    }
  }

  lemma {:induction false} RunRefines(s: State, acts: seq<Action>)
    requires Inv(s) && Feasible(s, acts)
    ensures Replay(s.ledger, Trace(s, acts)) == Some(Exec(s, acts).ledger)
    decreases |acts|
  {
    if acts != [] {
      StepRefines(s, acts[0]);
      Keep(s, acts[0]);
      RunRefines(Step(s, acts[0]), acts[1..]);
      ReplayAppend(s.ledger, Instant(s, acts[0]), Trace(Step(s, acts[0]), acts[1..]));
    }
  }

  /** The refinement theorem: every run of the protocol is a serial run of the atomic ledger. */
  lemma Linearizable(s: State, acts: seq<Action>)
    requires Initial(s) && Feasible(s, acts)
    ensures Replay(s.ledger, Trace(s, acts)) == Some(Exec(s, acts).ledger)
  {
    RunRefines(s, acts);
  }

  /**
   A settlement looks at the transaction row before it takes any lock.  Its
   commit is the atomic settlement exactly when what it saw still holds.
   */
  lemma SettlementAtomicIff(s: State, w: nat)
    requires Inv(s) && w < |s.procs| && s.procs[w].call.Settle? && s.procs[w].pc.Commit?
    ensures AtomicSettle(s.ledger, s.procs[w].call.es, s.procs[w].call.target) == Ok(RunStep(s, w).ledger)
       <==> SettleGuard(s.ledger, s.procs[w].call.target).None?
  {
    assert ProcOk(s.ledger, s.nextTx, s.procs[w]);
    LoopPassed(s, w);
  }
}
