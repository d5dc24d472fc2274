/** What every interleaving of ledger calls keeps: solvency, conservation, unique payment intents. */
module LedgerSafety {
  import opened Wrappers
  import opened Ledger
  import opened LedgerProtocol

  // ---- The invariant ----

  /** A balance read under its lock is a lower bound of the committed balance from then on. */
  ghost predicate ReadsHold(l: Tables, p: Proc) {
    forall k :: 0 <= k < |p.seen| ==>
      && k < |p.Ids()|
      && p.Ids()[k] in l.accounts
      && Balance(l.rows, p.Ids()[k]) >= p.seen[k]
      && (l.accounts[p.Ids()[k]] || p.seen[k] >= DebitTotal(p.call.es, p.Ids()[k]))
  }

  /** The Transaction id a create call has drawn from the sequence. */
  function DrawnTx(p: Proc): Option<nat> {
    if p.call.Settle? then None
    else match p.pc
      case InsertEntries(t) => Some(t)
      case Commit(t) => Some(t)
      case Done(t) => Some(t)
      case _ => None
  }

  ghost predicate Inserting(l: Tables, nextTx: nat, p: Proc, t: nat) {
    && |p.seen| == |p.Ids()|
    && (p.call.Create? ==> t < nextTx && t !in l.txs)
    && (p.call.Create? && p.call.intent.Some? ==> !IntentTaken(l.txs, p.call.intent.value))
    && (p.call.Settle? ==> t == p.call.target && t in l.txs)
  }

  ghost predicate PcOk(l: Tables, nextTx: nat, p: Proc) {
    match p.pc
    case CheckStatus => p.call.Settle? && p.seen == []
    case CheckCount => p.call.Settle? && p.call.target in l.txs && p.seen == []
    case Lock(i) => i == |p.seen| < |p.Ids()| && (p.call.Settle? ==> p.call.target in l.txs)
    case Read(i) => i == |p.seen| < |p.Ids()| && p.Ids()[i] in l.accounts && (p.call.Settle? ==> p.call.target in l.txs)
    case InsertTx => p.call.Create? && |p.seen| == |p.Ids()|
    case InsertEntries(t) => Inserting(l, nextTx, p, t)
    case UpdateStatus(t) => p.call.Settle? && Inserting(l, nextTx, p, t) && AccountsExist(l, p.call.es)
    case Commit(t) => Inserting(l, nextTx, p, t) && AccountsExist(l, p.call.es)
    case Done(t) =>
      && t in l.txs
      && (p.call.Create? ==> l.txs[t].intent == p.call.intent)
      && (p.call.Settle? ==> t == p.call.target)
    case Rejected(e) => e.DuplicateIntent? ==> IntentTaken(l.txs, e.intent)
    case Crashed => true
  }

  ghost predicate ProcOk(l: Tables, nextTx: nat, p: Proc) {
    && PcOk(l, nextTx, p)
    && (p.Active() ==> Validate(p.call.es).None? && ReadsHold(l, p))
  }

  /** Two processes hold no common account lock, unique key or transaction id. */
  ghost predicate Apart(p: Proc, q: Proc) {
    && (forall a :: !(p.Holds(a) && q.Holds(a)))
    && (forall k :: !(p.HoldsIntent(k) && q.HoldsIntent(k)))
    && (DrawnTx(p).Some? ==> DrawnTx(p) != DrawnTx(q))
  }

  ghost predicate Inv(s: State) {
    && GoodLedger(s.ledger)
    && (forall t :: t in s.ledger.txs ==> t < s.nextTx)
    && (forall v :: 0 <= v < |s.procs| ==> ProcOk(s.ledger, s.nextTx, s.procs[v]))
    && (forall v, w :: 0 <= v < |s.procs| && 0 <= w < |s.procs| && v != w ==> Apart(s.procs[v], s.procs[w]))
    && (forall v :: 0 <= v < |s.procs| && DrawnTx(s.procs[v]).Some? ==> DrawnTx(s.procs[v]).value < s.nextTx)
  }

  // ---- Preservation ----

  lemma Replace(s: State, w: nat, p: Proc, l: Tables, n: nat)
    requires Inv(s) && w < |s.procs|
    requires GoodLedger(l) && n >= s.nextTx && forall t :: t in l.txs ==> t < n
    requires ProcOk(l, n, p) && (DrawnTx(p).Some? ==> DrawnTx(p).value < n)
    requires forall v :: 0 <= v < |s.procs| && v != w ==> ProcOk(l, n, s.procs[v]) && Apart(p, s.procs[v])
    ensures Inv(State(l, n, s.procs[w := p]))
  {
  }

  /** Moving one process without touching the tables. */
  lemma Move(s: State, w: nat, p: Proc, n: nat)
    requires Inv(s) && w < |s.procs|
    requires n >= s.nextTx
    requires ProcOk(s.ledger, n, p)
    requires DrawnTx(p).Some? ==> DrawnTx(p) == DrawnTx(s.procs[w]) || s.nextTx <= DrawnTx(p).value < n
    requires forall a, v :: 0 <= v < |s.procs| && v != w && p.Holds(a) ==> !s.procs[v].Holds(a)
    requires forall k, v :: 0 <= v < |s.procs| && v != w && p.HoldsIntent(k) ==> !s.procs[v].HoldsIntent(k)
    ensures Inv(State(s.ledger, n, s.procs[w := p]))
  {
    forall v | 0 <= v < |s.procs| && v != w
      ensures ProcOk(s.ledger, n, s.procs[v]) && Apart(p, s.procs[v])
    {
      assert ProcOk(s.ledger, s.nextTx, s.procs[v]);
      assert Apart(s.procs[w], s.procs[v]);
    }
    Replace(s, w, p, s.ledger, n);
  }

  /** A process that only gives locks up. */
  lemma Release(s: State, w: nat, pc: Pc)
    requires Inv(s) && w < |s.procs|
    requires pc.Rejected? || pc.Crashed?
    requires PcOk(s.ledger, s.nextTx, s.procs[w].(pc := pc))
    ensures Inv(Goto(s, w, pc))
  {
    Move(s, w, s.procs[w].(pc := pc), s.nextTx);
  }

  lemma HoldsNext(p: Proc, i: nat, a: int)
    requires p.pc == Lock(i) && i < |p.Ids()|
    ensures p.(pc := Read(i)).Holds(a) <==> p.Holds(a) || a == p.Ids()[i]
  {
    var q := p.(pc := Read(i));
    if q.Holds(a) {
      var k :| 0 <= k < q.Locks() && k < |q.Ids()| && q.Ids()[k] == a;
      assert k == i || (k < p.Locks() && p.Ids()[k] == a);
    }
    if p.Holds(a) {
      var k :| 0 <= k < p.Locks() && k < |p.Ids()| && p.Ids()[k] == a;
      assert q.Ids()[k] == a;
    }
    assert q.Ids()[i] == p.Ids()[i];
  }

  /** The statements that end a call without a commit, or touch nothing shared. */
  lemma KeepQuiet(s: State, w: nat)
    requires Inv(s) && Enabled(s, Run(w))
    requires s.procs[w].pc.CheckStatus? || s.procs[w].pc.CheckCount? || s.procs[w].pc.UpdateStatus?
        || s.procs[w].pc.InsertEntries?
    ensures Inv(RunStep(s, w))
  {
    var p := s.procs[w];
    var s' := RunStep(s, w);
    assert ProcOk(s.ledger, s.nextTx, p);
    if s'.procs[w].pc.Rejected? {
      Release(s, w, s'.procs[w].pc);
    } else {
      forall a, v | 0 <= v < |s.procs| && v != w && s'.procs[w].Holds(a) ensures !s.procs[v].Holds(a) {
        assert p.Holds(a) by {
          var k :| 0 <= k < s'.procs[w].Locks() && k < |p.Ids()| && p.Ids()[k] == a;
          assert k < p.Locks();
        }
        assert Apart(p, s.procs[v]);
      }
      forall k, v | 0 <= v < |s.procs| && v != w && s'.procs[w].HoldsIntent(k) ensures !s.procs[v].HoldsIntent(k) {
        assert p.HoldsIntent(k);
        assert Apart(p, s.procs[v]);
      }
      Move(s, w, s'.procs[w], s.nextTx);
    }
  }

  lemma KeepLock(s: State, w: nat)
    requires Inv(s) && Enabled(s, Run(w)) && s.procs[w].pc.Lock?
    ensures Inv(RunStep(s, w))
  {
    var p := s.procs[w];
    var i := p.pc.i;
    assert ProcOk(s.ledger, s.nextTx, p);
    if p.Ids()[i] !in s.ledger.accounts {
      Release(s, w, Rejected(AccountNotFound(p.Ids()[i])));
    } else {
      var q := p.(pc := Read(i));
      forall a, v | 0 <= v < |s.procs| && v != w && q.Holds(a) ensures !s.procs[v].Holds(a) {
        HoldsNext(p, i, a);
        if p.Holds(a) {
          assert Apart(p, s.procs[v]);
        } else {
          assert !AccountHeld(s, a);
        }
      }
      Move(s, w, q, s.nextTx);
    }
  }

  lemma ReadGrows(l: Tables, p: Proc, q: Proc, balance: int)
    requires ReadsHold(l, p) && |p.seen| < |p.Ids()| && q.call == p.call && q.seen == p.seen + [balance]
    requires var a := p.Ids()[|p.seen|];
      a in l.accounts && Balance(l.rows, a) == balance && (l.accounts[a] || balance >= DebitTotal(p.call.es, a))
    ensures ReadsHold(l, q)
  {
    var ids := p.Ids();
    assert q.Ids() == ids;
    forall k | 0 <= k < |q.seen|
      ensures k < |ids| && ids[k] in l.accounts && Balance(l.rows, ids[k]) >= q.seen[k]
      ensures l.accounts[ids[k]] || q.seen[k] >= DebitTotal(q.call.es, ids[k])
    {
      if k < |p.seen| {
        assert p.Ids()[k] == ids[k] && p.seen[k] == q.seen[k];
      }
    }
  }

  lemma KeepRead(s: State, w: nat)
    requires Inv(s) && Enabled(s, Run(w)) && s.procs[w].pc.Read?
    ensures Inv(RunStep(s, w))
  {
    var p := s.procs[w];
    var s' := RunStep(s, w);
    assert ProcOk(s.ledger, s.nextTx, p);
    if s'.procs[w].pc.Rejected? {
      Release(s, w, s'.procs[w].pc);
    } else {
      var q := s'.procs[w];
      ReadGrows(s.ledger, p, q, Balance(s.ledger.rows, p.Ids()[p.pc.i]));
      forall a, v | 0 <= v < |s.procs| && v != w && q.Holds(a) ensures !s.procs[v].Holds(a) {
        assert p.Holds(a) by {
          var k :| 0 <= k < q.Locks() && k < |q.Ids()| && q.Ids()[k] == a;
          assert k < p.Locks() && p.Ids()[k] == a;
        }
        assert Apart(p, s.procs[v]);
      }
      Move(s, w, q, s.nextTx);
    }
  }

  lemma KeepInsertTx(s: State, w: nat)
    requires Inv(s) && Enabled(s, Run(w)) && s.procs[w].pc.InsertTx?
    ensures Inv(RunStep(s, w))
  {
    var p := s.procs[w];
    var q := RunStep(s, w).procs[w];
    assert ProcOk(s.ledger, s.nextTx, p);
    forall a, v | 0 <= v < |s.procs| && v != w && q.Holds(a) ensures !s.procs[v].Holds(a) {
      assert p.Holds(a);
      assert Apart(p, s.procs[v]);
    }
    forall k, v | 0 <= v < |s.procs| && v != w && q.HoldsIntent(k) ensures !s.procs[v].HoldsIntent(k) {
      assert !IntentHeld(s, k);
    }
    Move(s, w, q, s.nextTx + 1);
  }

  /** Committing a balanced batch keeps every table-level law, provided the debited accounts can pay. */
  lemma GoodAfterPost(l: Tables, es: seq<Entry>, t: nat, row: TxRow)
    requires GoodLedger(l) && Validate(es).None? && AccountsExist(l, es)
    requires forall a :: a in l.accounts && !l.accounts[a] && Debits(es, a) ==> Balance(l.rows, a) >= DebitTotal(es, a)
    requires if t in l.txs then row.intent == l.txs[t].intent
             else row.intent.Some? ==> !IntentTaken(l.txs, row.intent.value)
    ensures GoodLedger(l.(txs := l.txs[t := row], rows := l.rows + Post(t, es)))
  {
    var l' := l.(txs := l.txs[t := row], rows := l.rows + Post(t, es));
    FirstBadFinds(es);
    forall a | a in l'.accounts && !l'.accounts[a] ensures Balance(l'.rows, a) >= 0 {
      TotalAppend(OfAccount(a), l.rows, Post(t, es));
      PostOfAccount(t, es, a);
    }
    forall u ensures Total(OfTx(u), l'.rows) == 0 {
      TotalAppend(OfTx(u), l.rows, Post(t, es));
      PostOfTx(t, es, u);
    }
    TotalAppend(Everything, l.rows, Post(t, es));
    PostEverything(t, es);
    assert t !in l.txs && row.intent.Some? ==> forall u :: u in l.txs ==> l.txs[u].intent != row.intent;
  }

  /** A commit only raises the balances that other processes have locked. */
  lemma OthersAfterPost(s: State, w: nat, v: nat, t: nat, row: TxRow)
    requires Inv(s) && w < |s.procs| && v < |s.procs| && v != w
    requires s.procs[w].pc == Commit(t)
    requires t in s.ledger.txs ==> row.intent == s.ledger.txs[t].intent
    requires t !in s.ledger.txs ==> s.procs[w].call.Create? && row.intent == s.procs[w].call.intent
    ensures ProcOk(s.ledger.(txs := s.ledger.txs[t := row], rows := s.ledger.rows + Post(t, s.procs[w].call.es)),
                   s.nextTx, s.procs[v])
  {
    var l := s.ledger;
    var p, q := s.procs[w], s.procs[v];
    var l' := l.(txs := l.txs[t := row], rows := l.rows + Post(t, p.call.es));
    assert ProcOk(l, s.nextTx, p) && ProcOk(l, s.nextTx, q) && Apart(p, q);
    FirstBadFinds(p.call.es);
    if q.Active() {
      forall k | 0 <= k < |q.seen| ensures Balance(l'.rows, q.Ids()[k]) >= q.seen[k] {
        var a := q.Ids()[k];
        assert q.Holds(a);
        if Debits(p.call.es, a) {
          assert a in p.Ids();
          var j :| 0 <= j < |p.Ids()| && p.Ids()[j] == a;
          assert p.Holds(a);
        }
        TotalAppend(OfAccount(a), l.rows, Post(t, p.call.es));
        PostOfAccount(t, p.call.es, a);
      }
    }
    forall k | IntentTaken(l'.txs, k) ensures IntentTaken(l.txs, k) || p.HoldsIntent(k) {
      var u :| u in l'.txs && l'.txs[u].intent == Some(k);
      if u != t || t in l.txs {
        assert l.txs[u].intent == Some(k);
      }
    }
    forall k | IntentTaken(l.txs, k) ensures IntentTaken(l'.txs, k) {
      var u :| u in l.txs && l.txs[u].intent == Some(k);
      assert l'.txs[u].intent == Some(k);
    }
    assert PcOk(l', s.nextTx, q);
  }

  lemma KeepCommit(s: State, w: nat)
    requires Inv(s) && Enabled(s, Run(w)) && s.procs[w].pc.Commit?
    ensures Inv(RunStep(s, w))
  {
    var p := s.procs[w];
    var t := p.pc.tx;
    assert ProcOk(s.ledger, s.nextTx, p);
    var row := if p.call.Create? then TxRow(Pending, p.call.intent) else s.ledger.txs[t].(status := Completed);
    var l' := s.ledger.(txs := s.ledger.txs[t := row], rows := s.ledger.rows + Post(t, p.call.es));
    forall a | a in s.ledger.accounts && !s.ledger.accounts[a] && Debits(p.call.es, a)
      ensures Balance(s.ledger.rows, a) >= DebitTotal(p.call.es, a)
    {
      assert a in p.Ids();
      var k :| 0 <= k < |p.Ids()| && p.Ids()[k] == a;
      assert k < |p.seen|;
    }
    GoodAfterPost(s.ledger, p.call.es, t, row);
    var q := p.(pc := Done(t));
    forall v | 0 <= v < |s.procs| && v != w ensures ProcOk(l', s.nextTx, s.procs[v]) && Apart(q, s.procs[v]) {
      OthersAfterPost(s, w, v, t, row);
      assert Apart(p, s.procs[v]);
    }
    Replace(s, w, q, l', s.nextTx);
  }

  /** A Transaction row written outside the protocol: no entries, and no new clash of intents. */
  lemma KeepTxWrite(s: State, t: nat, row: TxRow, n: nat)
    requires Inv(s) && n >= s.nextTx && t < n
    requires if t in s.ledger.txs then row.intent == s.ledger.txs[t].intent
             else (t == s.nextTx && row.intent.Some? && !IntentTaken(s.ledger.txs, row.intent.value)
                   && !IntentHeld(s, row.intent.value))
    ensures Inv(s.(ledger := s.ledger.(txs := s.ledger.txs[t := row]), nextTx := n))
  {
    var l := s.ledger;
    var l' := l.(txs := l.txs[t := row]);
    forall k ensures IntentTaken(l'.txs, k) <==> IntentTaken(l.txs, k) || (t !in l.txs && row.intent == Some(k)) {
      if IntentTaken(l.txs, k) {
        var u :| u in l.txs && l.txs[u].intent == Some(k);
        assert l'.txs[u].intent == Some(k);
      }
      if IntentTaken(l'.txs, k) {
        var u :| u in l'.txs && l'.txs[u].intent == Some(k);
        if u != t { assert l.txs[u].intent == Some(k); }
      }
      if row.intent == Some(k) { assert l'.txs[t].intent == Some(k); }
    }
    assert UniqueIntents(l');
    forall v | 0 <= v < |s.procs| ensures ProcOk(l', n, s.procs[v]) {
      assert ProcOk(l, s.nextTx, s.procs[v]);
      var q := s.procs[v];
      if t !in l.txs && q.call.Create? && q.call.intent.Some? && (q.pc.InsertEntries? || q.pc.Commit?) {
        assert q.HoldsIntent(q.call.intent.value);
      }
    }
  }

  lemma KeepSpawn(s: State, call: Call)
    requires Inv(s)
    ensures Inv(Step(s, Spawn(call)))
  {
    var p := Start(call);
    forall a ensures !p.Holds(a) {
      assert p.Locks() == 0 || |p.Ids()| == 0;
    }
    assert ProcOk(s.ledger, s.nextTx, p);
    var s' := Step(s, Spawn(call));
    forall v | 0 <= v < |s.procs| ensures Apart(p, s.procs[v]) && Apart(s.procs[v], p) {
    }
    assert forall v :: 0 <= v < |s.procs| ==> s'.procs[v] == s.procs[v];
  }

  lemma Keep(s: State, a: Action)
    requires Inv(s) && Enabled(s, a)
    ensures Inv(Step(s, a))
  {
    match a {
      case Spawn(call) => KeepSpawn(s, call);
      case Crash(w) => Release(s, w, Crashed);
      case Intake(k) => KeepTxWrite(s, s.nextTx, TxRow(Pending, Some(k)), s.nextTx + 1);
      case Reconcile(t, status) => KeepTxWrite(s, t, s.ledger.txs[t].(status := status), s.nextTx);
      case Run(w) =>
        match s.procs[w].pc {
          case Lock(_) => KeepLock(s, w);
          case Read(_) => KeepRead(s, w);
          case InsertTx => KeepInsertTx(s, w);
          case Commit(_) => KeepCommit(s, w);
          case _ => KeepQuiet(s, w);
        }
    }
  }

  lemma {:induction false} KeepAll(s: State, acts: seq<Action>)
    requires Inv(s) && Feasible(s, acts)
    ensures Inv(Exec(s, acts))
    decreases |acts|
  {
    if acts != [] {
      Keep(s, acts[0]);
      KeepAll(Step(s, acts[0]), acts[1..]);
    }
  }

  // ---- The promises ----

  /** No interleaving of any number of calls drives a guarded account below zero. */
  lemma NeverOverspent(s: State, acts: seq<Action>, a: int)
    requires Initial(s) && Feasible(s, acts)
    requires a in Exec(s, acts).ledger.accounts && !Exec(s, acts).ledger.accounts[a]
    ensures Balance(Exec(s, acts).ledger.rows, a) >= 0
  {
    KeepAll(s, acts);
  }

  /** Money is conserved in every reachable state, overlapping settlements included. */
  lemma Conserved(s: State, acts: seq<Action>)
    requires Initial(s) && Feasible(s, acts)
    ensures Total(Everything, Exec(s, acts).ledger.rows) == 0
    ensures forall t :: Total(OfTx(t), Exec(s, acts).ledger.rows) == 0
  {
    KeepAll(s, acts);
  }

  /** Calls that share a payment intent: at most one of them commits. */
  lemma OneCommitPerIntent(s: State, acts: seq<Action>, v: nat, w: nat)
    requires Initial(s) && Feasible(s, acts)
    requires v < |Exec(s, acts).procs| && w < |Exec(s, acts).procs|
    requires var p, q := Exec(s, acts).procs[v], Exec(s, acts).procs[w];
             && p.call.Create? && q.call.Create? && p.call.intent.Some? && p.call.intent == q.call.intent
             && p.pc.Done? && q.pc.Done?
    ensures v == w
  {
    KeepAll(s, acts);
    var z := Exec(s, acts);
    assert ProcOk(z.ledger, z.nextTx, z.procs[v]) && ProcOk(z.ledger, z.nextTx, z.procs[w]);
  }

  /** A unique-key rejection is never spurious: the intent it names is committed. */
  lemma DuplicateHasWinner(s: State, acts: seq<Action>, w: nat)
    requires Initial(s) && Feasible(s, acts)
    requires w < |Exec(s, acts).procs| && Exec(s, acts).procs[w].pc.Rejected?
        && Exec(s, acts).procs[w].pc.error.DuplicateIntent?
    ensures IntentTaken(Exec(s, acts).ledger.txs, Exec(s, acts).procs[w].pc.error.intent)
  {
    KeepAll(s, acts);
    assert ProcOk(Exec(s, acts).ledger, Exec(s, acts).nextTx, Exec(s, acts).procs[w]);
  }
}
