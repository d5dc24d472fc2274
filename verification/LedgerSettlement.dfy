/**
 How often one transaction can be settled.  Serial settlement calls settle it at
 most once.  LedgerOverlap says when two overlapping calls settle it twice, which
 they can because the status and the entry count are read before any lock.
 */
module LedgerSettlement {
  import opened Wrappers
  import opened Ledger
  import opened LedgerProtocol
  import opened LedgerSafety
  import opened LedgerProgress

  predicate Settling(p: Proc, t: nat) {
    p.call.Settle? && p.call.target == t && p.Active()
  }

  predicate InFlight(s: State, t: nat) {
    exists v :: 0 <= v < |s.procs| && Settling(s.procs[v], t)
  }

  predicate Settled(p: Proc, t: nat) {
    p.call.Settle? && p.call.target == t && p.pc.Done?
  }

  /** The caller's discipline: no settlement of t starts while another one is in flight. */
  predicate Serial(s: State, acts: seq<Action>, t: nat)
    requires Feasible(s, acts)
    decreases |acts|
  {
    acts == [] ||
    ((acts[0].Spawn? && acts[0].call.Settle? && acts[0].call.target == t ==> !InFlight(s, t)) &&
     Serial(Step(s, acts[0]), acts[1..], t))
  }

  predicate PastGuard(p: Proc) {
    !p.pc.CheckStatus? && !p.pc.CheckCount?
  }

  /** At most one settlement of t is in flight or done, and none is past its guard once t has entries. */
  ghost predicate Once(s: State, t: nat) {
    && t < s.nextTx
    && (forall v :: 0 <= v < |s.procs| && DrawnTx(s.procs[v]).Some? ==> DrawnTx(s.procs[v]) != Some(t))
    && (forall v, w :: 0 <= v < |s.procs| && 0 <= w < |s.procs| && v != w ==>
          !(Settling(s.procs[v], t) && Settling(s.procs[w], t)) && !(Settled(s.procs[v], t) && Settled(s.procs[w], t)))
    && (forall v :: 0 <= v < |s.procs| && Settled(s.procs[v], t) ==> HasEntries(s.ledger.rows, t))
    && (forall v :: 0 <= v < |s.procs| && Settling(s.procs[v], t) && PastGuard(s.procs[v]) ==>
        !HasEntries(s.ledger.rows, t))
  }

  /** A step that leaves the rows alone and moves process w no further than its guard allows. */
  lemma OnceMove(s: State, s': State, w: nat, t: nat)
    requires Once(s, t) && w < |s.procs| == |s'.procs|
    requires s'.nextTx >= s.nextTx && s'.ledger.rows == s.ledger.rows
    requires s'.procs == s.procs[w := s'.procs[w]] && s'.procs[w].call == s.procs[w].call
    requires DrawnTx(s'.procs[w]).Some? ==>
        DrawnTx(s'.procs[w]) == DrawnTx(s.procs[w]) || DrawnTx(s'.procs[w]) == Some(s.nextTx)
    requires Settling(s'.procs[w], t) ==> Settling(s.procs[w], t)
    requires Settled(s'.procs[w], t) ==> Settled(s.procs[w], t)
    requires Settling(s'.procs[w], t) && PastGuard(s'.procs[w]) ==>
        PastGuard(s.procs[w]) || !HasEntries(s.ledger.rows, t)
    ensures Once(s', t)
  {
  }

  /** A commit gives t its entries only if it is the one settlement of t past its guard. */
  lemma OnceCommit(s: State, s': State, w: nat, t: nat)
    requires Once(s, t) && w < |s.procs| && s.procs[w].pc.Commit?
    requires s'.procs == s.procs[w := s.procs[w].(pc := Done(s.procs[w].pc.tx))] && s'.nextTx == s.nextTx
    requires HasEntries(s'.ledger.rows, t) <==> HasEntries(s.ledger.rows, t) || s.procs[w].pc.tx == t
    requires s.procs[w].call.Settle? ==> s.procs[w].pc.tx == s.procs[w].call.target
    ensures Once(s', t)
  {
    var p := s.procs[w];
    if p.pc.tx == t {
      assert DrawnTx(p) != Some(t);
      assert Settling(p, t) && PastGuard(p);
    }
  }

  lemma QuietStep(s: State, w: nat, t: nat)
    requires w < |s.procs| && s.procs[w].Active() && PcOk(s.ledger, s.nextTx, s.procs[w]) && !s.procs[w].pc.Commit?
    ensures var s' := RunStep(s, w); var p, q := s.procs[w], s'.procs[w];
      && s'.nextTx >= s.nextTx && s'.ledger == s.ledger && q.call == p.call && !q.pc.Done?
      && (DrawnTx(q).Some? ==> DrawnTx(q) == DrawnTx(p) || DrawnTx(q) == Some(s.nextTx))
      && (Settling(q, t) && PastGuard(q) ==> PastGuard(p) || !HasEntries(s.ledger.rows, t))
  {
  }

  lemma KeepOnceRun(s: State, w: nat, t: nat)
    requires Once(s, t) && w < |s.procs| && s.procs[w].Active() && ProcOk(s.ledger, s.nextTx, s.procs[w])
    ensures Once(RunStep(s, w), t)
  {
    var p := s.procs[w];
    StepLeft(s, w);
    if p.pc.Commit? {
      PostHasEntries(s.ledger.rows, p.pc.tx, p.call.es, t);
      OnceCommit(s, RunStep(s, w), w, t);
    } else {
      QuietStep(s, w, t);
      OnceMove(s, RunStep(s, w), w, t);
    }
  }

  lemma OnceSpawn(s: State, call: Call, t: nat)
    requires Once(s, t) && (call.Settle? && call.target == t ==> !InFlight(s, t))
    ensures Once(s.(procs := s.procs + [Start(call)]), t)
  {
    var s' := s.(procs := s.procs + [Start(call)]);
    assert forall v :: 0 <= v < |s.procs| ==> s'.procs[v] == s.procs[v];
    var p := s'.procs[|s.procs|];
    assert DrawnTx(p).None? && !p.pc.Done?;
    assert Settling(p, t) ==> p.pc.CheckStatus?;
  }

  lemma KeepOnce(s: State, a: Action, t: nat)
    requires Inv(s) && Once(s, t) && Enabled(s, a)
    requires a.Spawn? && a.call.Settle? && a.call.target == t ==> !InFlight(s, t)
    ensures Once(Step(s, a), t)
  {
    match a {
      case Run(w) =>
        assert ProcOk(s.ledger, s.nextTx, s.procs[w]);
        KeepOnceRun(s, w, t);
      case Crash(w) => OnceMove(s, Step(s, a), w, t);
      case Spawn(call) => OnceSpawn(s, call, t);
      case _ =>
    }
  }

  lemma {:induction false} KeepOnceAll(s: State, acts: seq<Action>, t: nat)
    requires Inv(s) && Once(s, t) && Feasible(s, acts) && Serial(s, acts, t)
    ensures Once(Exec(s, acts), t)
    decreases |acts|
  {
    if acts != [] {
      Keep(s, acts[0]);
      KeepOnce(s, acts[0], t);
      KeepOnceAll(Step(s, acts[0]), acts[1..], t);
    }
  }

  /** Settlement calls of t that never overlap settle t at most once, whatever the other calls do. */
  lemma SettledOnce(s: State, acts: seq<Action>, t: nat, v: nat, w: nat)
    requires Initial(s) && t in s.ledger.txs && Feasible(s, acts) && Serial(s, acts, t)
    requires v < |Exec(s, acts).procs| && Settled(Exec(s, acts).procs[v], t)
    requires w < |Exec(s, acts).procs| && Settled(Exec(s, acts).procs[w], t)
    ensures v == w
  {
    KeepOnceAll(s, acts, t);
  }

  // ---- A payment: one debit, one credit ----

  lemma OneDebit(d: int, c: int, x: int)
    ensures DebitIds([Entry(d, x, Debit), Entry(c, x, Credit)]) == [d]
    ensures SideSum(Debit, [Entry(d, x, Debit), Entry(c, x, Credit)]) == x
    ensures SideSum(Credit, [Entry(d, x, Debit), Entry(c, x, Credit)]) == x
    ensures DebitTotal([Entry(d, x, Debit), Entry(c, x, Credit)], d) == x
    ensures x >= 0 ==> Validate([Entry(d, x, Debit), Entry(c, x, Credit)]).None?
  {
    var es := [Entry(d, x, Debit), Entry(c, x, Credit)];
    var es' := [Entry(c, x, Credit)];
    assert es[1..] == es' && es'[1..] == [];
    assert SideSum(Debit, es') == 0 && SideSum(Credit, es') == x && DebitTotal(es', d) == 0 && DebitIds(es') == [];
    FirstBadFinds(es);
  }

  lemma TransferPosts(t: nat, d: int, c: int, x: int)
    requires d != c
    ensures var rows := Post(t, [Entry(d, x, Debit), Entry(c, x, Credit)]);
            Balance(rows, d) == -x && Balance(rows, c) == x
  {
    var p0, p1 := Posted(t, Entry(d, x, Debit)), Posted(t, Entry(c, x, Credit));
    assert Post(t, [Entry(d, x, Debit), Entry(c, x, Credit)]) == [p0] + [p1];
    TotalAppend(OfAccount(d), [p0], [p1]);
    TotalAppend(OfAccount(c), [p0], [p1]);
    assert [p0][1..] == [] && [p1][1..] == [];
  }
}
