/**
 createTransaction and settleTransaction as PostgreSQL runs them under READ
 COMMITTED: any number of calls, each a process that performs one statement at
 a time, in any interleaving.  A process's own inserts stay invisible until it
 commits.  Three things can make a process wait: the row lock of a debited
 account, the unique key of an uncommitted payment intent, and the Transaction
 row that another settlement has updated but not committed.
 */
module LedgerProtocol {
  import opened Wrappers
  import opened Ledger

  datatype Call =
    | Create(es: seq<Entry>, intent: Option<string>)
    | Settle(es: seq<Entry>, target: nat)

  /** The statement a process performs next; `Lock(i)` and `Read(i)` are the two queries of turn i of the loop. */
  datatype Pc =
    | CheckStatus
    | CheckCount
    | Lock(i: nat)
    | Read(i: nat)
    | InsertTx
    | InsertEntries(tx: nat)
    | UpdateStatus(tx: nat)
    | Commit(tx: nat)
    | Done(tx: nat)
    | Rejected(error: LedgerError)
    | Crashed

  /** `seen` holds the balances read so far, in the order of the locked accounts. */
  datatype Proc = Proc(call: Call, pc: Pc, seen: seq<int>) {
    function Ids(): seq<int> {
      DebitIds(call.es)
    }

    predicate Active() {
      !pc.Done? && !pc.Rejected? && !pc.Crashed?
    }

    /** How many of its debited accounts the process has locked. */
    function Locks(): nat {
      match pc
      case Lock(i) => i
      case Read(i) => i + 1
      case InsertTx => |Ids()|
      case InsertEntries(_) => |Ids()|
      case UpdateStatus(_) => |Ids()|
      case Commit(_) => |Ids()|
      case _ => 0
    }

    predicate Holds(a: int) {
      exists k :: 0 <= k < Locks() && k < |Ids()| && Ids()[k] == a
    }

    /** The process has inserted a Transaction row with this unique key and not committed it. */
    predicate HoldsIntent(k: string) {
      call.Create? && call.intent == Some(k) && (pc.InsertEntries? || pc.Commit?)
    }

    /** The process has updated this Transaction row and not committed the update. */
    predicate HoldsTxRow(t: nat) {
      call.Settle? && call.target == t && pc.Commit?
    }
  }

  /** `nextTx` is the sequence behind Transaction.id; it never goes back, even on rollback. */
  datatype State = State(ledger: Tables, nextTx: nat, procs: seq<Proc>)

  datatype Action =
    | Spawn(call: Call)
    | Run(w: nat)
    | Crash(w: nat)
    | Intake(intent: string)
    | Reconcile(t: nat, status: TxStatus)

  /** Where the locking loop goes at turn i: another account, or past the loop. */
  function LoopAt(call: Call, i: nat): Pc {
    if i < |DebitIds(call.es)| then Lock(i)
    else if call.Create? then InsertTx
    else InsertEntries(call.target)
  }

  function Start(call: Call): Proc {
    if Validate(call.es).Some? then Proc(call, Rejected(Validate(call.es).value), [])
    else if call.Create? then Proc(call, LoopAt(call, 0), [])
    else Proc(call, CheckStatus, [])
  }

  predicate IntentHeld(s: State, k: string) {
    exists v :: 0 <= v < |s.procs| && s.procs[v].HoldsIntent(k)
  }

  predicate TxRowHeld(s: State, t: nat) {
    exists v :: 0 <= v < |s.procs| && s.procs[v].HoldsTxRow(t)
  }

  predicate AccountHeld(s: State, a: int) {
    exists v :: 0 <= v < |s.procs| && s.procs[v].Holds(a)
  }

  predicate Waiting(s: State, w: nat)
    requires w < |s.procs|
  {
    var p := s.procs[w];
    match p.pc
    case Lock(i) => i < |p.Ids()| && AccountHeld(s, p.Ids()[i])
    case InsertTx => p.call.Create? && p.call.intent.Some? && IntentHeld(s, p.call.intent.value)
    case UpdateStatus(t) => TxRowHeld(s, t)
    case _ => false
  }

  predicate Enabled(s: State, a: Action) {
    match a
    case Spawn(_) => true
    case Run(w) => w < |s.procs| && s.procs[w].Active() && !Waiting(s, w)
    case Crash(w) => w < |s.procs| && s.procs[w].Active()
    case Intake(k) => !IntentTaken(s.ledger.txs, k) && !IntentHeld(s, k)
    case Reconcile(t, status) => t in s.ledger.txs && !status.Pending? && !TxRowHeld(s, t)
  }

  /** One statement of process w: its new control state, and the new tables and sequence. */
  function RunStep(s: State, w: nat): State
    requires w < |s.procs|
  {
    var p := s.procs[w];
    var l := s.ledger;
    match p.pc
    case CheckStatus =>
      if !p.call.Settle? then s
      else if p.call.target !in l.txs then Goto(s, w, Rejected(TxNotFound))
      else if !l.txs[p.call.target].status.Pending? then
        Goto(s, w, Rejected(NotPending(l.txs[p.call.target].status)))
      else Goto(s, w, CheckCount)
    case CheckCount =>
      if !p.call.Settle? then s
      else if HasEntries(l.rows, p.call.target) then Goto(s, w, Rejected(AlreadyHasEntries))
      else Goto(s, w, LoopAt(p.call, 0))
    case Lock(i) =>
      if i >= |p.Ids()| then s
      else if p.Ids()[i] !in l.accounts then Goto(s, w, Rejected(AccountNotFound(p.Ids()[i])))
      else Goto(s, w, Read(i))
    case Read(i) =>
      if i >= |p.Ids()| || p.Ids()[i] !in l.accounts then s
      else
        var a := p.Ids()[i];
        var balance := Balance(l.rows, a);
        if balance - DebitTotal(p.call.es, a) < 0 && !l.accounts[a] then
          Goto(s, w, Rejected(InsufficientFunds(a, balance, DebitTotal(p.call.es, a))))
        else
          s.(procs := s.procs[w := Proc(p.call, LoopAt(p.call, i + 1), p.seen + [balance])])
    case InsertTx =>
      if !p.call.Create? then s
      else if p.call.intent.Some? && IntentTaken(l.txs, p.call.intent.value) then
        Goto(s, w, Rejected(DuplicateIntent(p.call.intent.value))).(nextTx := s.nextTx + 1)
      else Goto(s, w, InsertEntries(s.nextTx)).(nextTx := s.nextTx + 1)
    case InsertEntries(t) =>
      if !AccountsExist(l, p.call.es) then Goto(s, w, Rejected(ForeignKey))
      else if p.call.Create? then Goto(s, w, Commit(t))
      else Goto(s, w, UpdateStatus(t))
    case UpdateStatus(t) => Goto(s, w, Commit(t))
    case Commit(t) =>
      if p.call.Create? then
        Goto(s, w, Done(t)).(ledger := l.(txs := l.txs[t := TxRow(Pending, p.call.intent)],
                                          rows := l.rows + Post(t, p.call.es)))
      else if t in l.txs then
        Goto(s, w, Done(t)).(ledger := l.(txs := l.txs[t := l.txs[t].(status := Completed)],
                                          rows := l.rows + Post(t, p.call.es)))
      else s
    case _ => s
  }

  function Goto(s: State, w: nat, pc: Pc): State
    requires w < |s.procs|
  {
    s.(procs := s.procs[w := s.procs[w].(pc := pc)])
  }

  function Step(s: State, a: Action): State
    requires Enabled(s, a)
  {
    match a
    case Spawn(call) => s.(procs := s.procs + [Start(call)])
    case Run(w) => RunStep(s, w)
    case Crash(w) => Goto(s, w, Crashed)
    case Intake(k) =>
      s.(ledger := s.ledger.(txs := s.ledger.txs[s.nextTx := TxRow(Pending, Some(k))]), nextTx := s.nextTx + 1)
    case Reconcile(t, status) =>
      s.(ledger := s.ledger.(txs := s.ledger.txs[t := s.ledger.txs[t].(status := status)]))
  }

  // ---- Runs ----

  predicate Feasible(s: State, acts: seq<Action>)
    decreases |acts|
  {
    acts == [] || (Enabled(s, acts[0]) && Feasible(Step(s, acts[0]), acts[1..]))
  }

  function Exec(s: State, acts: seq<Action>): State
    requires Feasible(s, acts)
    decreases |acts|
  {
    if acts == [] then s else Exec(Step(s, acts[0]), acts[1..])
  }

  /** Where a run may begin: a sound ledger and no call in progress. */
  ghost predicate Initial(s: State) {
    s.procs == [] && GoodLedger(s.ledger) && (forall t :: t in s.ledger.txs ==> t < s.nextTx)
  }

  /** What the tables alone must satisfy. */
  ghost predicate GoodLedger(l: Tables) {
    && Solvent(l)
    && (forall t :: Total(OfTx(t), l.rows) == 0)
    && Total(Everything, l.rows) == 0
    && (forall i :: 0 <= i < |l.rows| ==> l.rows[i].tx in l.txs && l.rows[i].entry.account in l.accounts)
    && UniqueIntents(l)
  }

  /** No account that forbids it has a negative committed balance. */
  ghost predicate Solvent(l: Tables) {
    forall a :: a in l.accounts && !l.accounts[a] ==> Balance(l.rows, a) >= 0
  }

  ghost predicate UniqueIntents(l: Tables) {
    forall t, u :: t in l.txs && u in l.txs && l.txs[t].intent.Some? && l.txs[t].intent == l.txs[u].intent ==> t == u
  }
}
