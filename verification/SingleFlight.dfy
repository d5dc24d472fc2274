/**
 The investigation server's three dictionaries under any number of concurrent
 callers.  A coroutine runs undisturbed from one await to the next, so each
 action is one such stretch of code: a call up to its first await, a task from
 the graph's answer to its end, a waiting caller from its wake-up to its reply.
 Callers are not cancelled.
 */
module SingleFlight {
  import opened Wrappers
  import opened RunKey

  datatype Verdict = Verdict(verdict: string, riskLevel: string, confidence: real, summary: string)

  /** What awaiting the graph yields. */
  datatype Outcome =
    | TransportError(message: string)
    | OtherError(message: string)
    | NoVerdict
    | Concluded(verdict: Verdict, trail: seq<string>, iterations: nat, runId: Option<int>)

  datatype Reply =
    | Success(key: string, tx: int, verdict: Verdict, iterations: nat, runId: Option<int>, auditUri: string,
        replayed: bool)
    | Failure(key: string, tx: int, message: string, retryable: bool, replayed: bool)

  function Replayed(r: Reply): Reply {
    r.(replayed := true)
  }

  /** `done` holds the reply once the task has ended. */
  datatype Task = Task(key: string, tx: int, done: Option<Reply>, trail: seq<string>)

  /** `owner` marks the caller that started the task. */
  datatype Caller =
    | Waiting(key: string, tx: int, task: nat, owner: bool)
    | Answered(key: string, tx: int, reply: Reply, started: Option<nat>)

  datatype State = State(
    completed: map<string, Reply>, trails: map<string, seq<string>>, inFlight: map<string, nat>,
    tasks: seq<Task>, callers: seq<Caller>)

  datatype Action =
    | Call(tx: int, trigger: Trigger, idem: Option<string>)
    | EndTask(t: nat, outcome: Outcome)
    | Resume(c: nat)

  predicate Running(k: Task) {
    k.done.None?
  }

  predicate Succeeded(k: Task) {
    k.done.Some? && k.done.value.Success?
  }

  predicate Enabled(s: State, a: Action) {
    match a
    case Call(_, _, _) => true
    case EndTask(t, _) => t < |s.tasks| && Running(s.tasks[t])
    case Resume(c) =>
      c < |s.callers| && s.callers[c].Waiting? && s.callers[c].task < |s.tasks| && !Running(s.tasks[s.callers[c].task])
  }

  function AuditUri(key: string): string {
    "investigation://" + key + "/audit"
  }

  function CallStep(s: State, tx: int, trigger: Trigger, idem: Option<string>): State {
    CallWith(s, Basis(tx, trigger, idem), tx)
  }

  function CallWith(s: State, key: string, tx: int): State {
    if key in s.completed then
      s.(callers := s.callers + [Answered(key, tx, Replayed(s.completed[key]), None)])
    else if key in s.inFlight then
      s.(callers := s.callers + [Waiting(key, tx, s.inFlight[key], false)])
    else
      var t := |s.tasks|;
      s.(tasks := s.tasks + [Task(key, tx, None, [])], inFlight := s.inFlight[key := t],
         callers := s.callers + [Waiting(key, tx, t, true)])
  }

  function EndTaskStep(s: State, t: nat, outcome: Outcome): State
    requires t < |s.tasks|
  {
    var k := s.tasks[t];
    match outcome
    case TransportError(m) => s.(tasks := s.tasks[t := k.(done := Some(Failure(k.key, k.tx, m, true, false)))])
    case OtherError(m) => s.(tasks := s.tasks[t := k.(done := Some(Failure(k.key, k.tx, m, false, false)))])
    case NoVerdict =>
      var r := Failure(k.key, k.tx, "Agent produced no verdict.", true, false);
      s.(tasks := s.tasks[t := k.(done := Some(r))])
    case Concluded(v, trail, iterations, runId) =>
      var r := Success(k.key, k.tx, v, iterations, runId, AuditUri(k.key), false);
      s.(tasks := s.tasks[t := k.(done := Some(r), trail := trail)],
         trails := s.trails[k.key := trail], completed := s.completed[k.key := r])
  }

  function ResumeStep(s: State, c: nat): State
    requires Enabled(s, Resume(c))
  {
    var w := s.callers[c];
    var r := s.tasks[w.task].done.value;
    if w.owner then
      s.(callers := s.callers[c := Answered(w.key, w.tx, r, Some(w.task))], inFlight := s.inFlight - {w.key})
    else s.(callers := s.callers[c := Answered(w.key, w.tx, Replayed(r), None)])
  }

  function Step(s: State, a: Action): State
    requires Enabled(s, a)
  {
    match a
    case Call(tx, trigger, idem) => CallStep(s, tx, trigger, idem)
    case EndTask(t, outcome) => EndTaskStep(s, t, outcome)
    case Resume(c) => ResumeStep(s, c)
  }

  const EMPTY := State(map[], map[], map[], [], [])

  predicate Feasible(s: State, acts: seq<Action>)
    decreases |acts|
  {
    acts == [] || (Enabled(s, acts[0]) && Feasible(Step(s, acts[0]), acts[1..]))
  }

  function Exec(s: State, acts: seq<Action>): State
    requires Feasible(s, acts)
    decreases |acts|
  {
    if acts == [] then s else Exec(Step(s, acts[0]), acts[1..])
  }

  // ---- The invariant ----

  /** A caller owns a task from the moment it starts it. */
  predicate Owns(c: Caller, t: nat) {
    match c
    case Waiting(_, _, task, owner) => owner && task == t
    case Answered(_, _, _, started) => started == Some(t)
  }

  predicate WaitingOwner(c: Caller, t: nat) {
    c.Waiting? && c.owner && c.task == t
  }

  ghost predicate TaskOk(s: State, t: nat)
    requires t < |s.tasks|
  {
    var k := s.tasks[t];
    && (Running(k) ==> k.key in s.inFlight && s.inFlight[k.key] == t && k.key !in s.completed)
    && (k.done.Some? ==> !k.done.value.replayed)
    && (Succeeded(k) ==>
          && k.key in s.completed && s.completed[k.key] == k.done.value
          && k.key in s.trails && s.trails[k.key] == k.trail)
  }

  ghost predicate CallerOk(s: State, c: Caller) {
    match c
    case Waiting(key, tx, t, owner) =>
      && t < |s.tasks| && s.tasks[t].key == key
      && (owner ==> key in s.inFlight && s.inFlight[key] == t)
    case Answered(key, tx, r, started) =>
      && (r.replayed <==> started.None?)
      && (r.Success? ==> key in s.completed && Replayed(s.completed[key]) == Replayed(r))
      && (started.Some? ==>
          started.value < |s.tasks| && s.tasks[started.value].key == key && s.tasks[started.value].done == Some(r))
  }

  ghost predicate TasksOk(s: State) {
    forall t :: 0 <= t < |s.tasks| ==> TaskOk(s, t)
  }

  ghost predicate CallersOk(s: State) {
    forall c :: 0 <= c < |s.callers| ==> CallerOk(s, s.callers[c])
  }

  ghost predicate OneSuccess(s: State) {
    forall t, u :: 0 <= t < |s.tasks| && 0 <= u < |s.tasks| && t != u && s.tasks[t].key == s.tasks[u].key ==>
      !(Succeeded(s.tasks[t]) && Succeeded(s.tasks[u]))
  }

  ghost predicate OneOwner(s: State) {
    forall b, c, t :: 0 <= b < |s.callers| && 0 <= c < |s.callers| && b != c && Owns(s.callers[b], t) ==>
        !Owns(s.callers[c], t)
  }

  ghost predicate HasOwner(s: State, t: nat) {
    exists c :: 0 <= c < |s.callers| && WaitingOwner(s.callers[c], t)
  }

  /** An entry in flight is a task of that key whose owner has not been answered yet. */
  ghost predicate FlightsOk(s: State) {
    forall k :: k in s.inFlight ==>
      && s.inFlight[k] < |s.tasks|
      && s.tasks[s.inFlight[k]].key == k
      && (k in s.completed ==> Succeeded(s.tasks[s.inFlight[k]]))
      && HasOwner(s, s.inFlight[k])
  }

  ghost predicate HasSuccess(s: State, key: string) {
    exists t :: 0 <= t < |s.tasks| && s.tasks[t].key == key && Succeeded(s.tasks[t])
  }

  ghost predicate CompletedOk(s: State) {
    forall k :: k in s.completed ==> HasSuccess(s, k)
  }

  ghost predicate Inv(s: State) {
    TasksOk(s) && CallersOk(s) && OneSuccess(s) && OneOwner(s) && FlightsOk(s) && CompletedOk(s)
  }

  lemma CallKeepsRest(s: State, s': State)
    requires FlightsOk(s) && CompletedOk(s)
    requires |s.tasks| <= |s'.tasks| && s'.tasks[..|s.tasks|] == s.tasks
    requires |s.callers| <= |s'.callers| && s'.callers[..|s.callers|] == s.callers
    requires s'.completed == s.completed
    requires forall k :: k in s'.inFlight ==> k in s.inFlight && s'.inFlight[k] == s.inFlight[k]
    ensures FlightsOk(s') && CompletedOk(s')
  {
    forall t | HasOwner(s, t) ensures HasOwner(s', t) {
      var c :| 0 <= c < |s.callers| && WaitingOwner(s.callers[c], t);
      assert s'.callers[c] == s.callers[c];
    }
    forall k | HasSuccess(s, k) ensures HasSuccess(s', k) {
      var t :| 0 <= t < |s.tasks| && s.tasks[t].key == k && Succeeded(s.tasks[t]);
      assert s'.tasks[t] == s.tasks[t];
    }
  }

  lemma KeepCallCached(s: State, key: string, tx: int)
    requires Inv(s) && key in s.completed
    ensures Inv(s.(callers := s.callers + [Answered(key, tx, Replayed(s.completed[key]), None)]))
  {
    var s' := s.(callers := s.callers + [Answered(key, tx, Replayed(s.completed[key]), None)]);
    forall c | 0 <= c < |s'.callers| ensures CallerOk(s', s'.callers[c]) {
      if c < |s.callers| { assert CallerOk(s, s.callers[c]); }
    }
    forall u | 0 <= u < |s'.tasks| ensures TaskOk(s', u) { assert TaskOk(s, u); }
    CallKeepsRest(s, s');
  }

  lemma KeepCallJoins(s: State, key: string, tx: int)
    requires Inv(s) && key in s.inFlight
    ensures Inv(s.(callers := s.callers + [Waiting(key, tx, s.inFlight[key], false)]))
  {
    var s' := s.(callers := s.callers + [Waiting(key, tx, s.inFlight[key], false)]);
    forall c | 0 <= c < |s'.callers| ensures CallerOk(s', s'.callers[c]) {
      if c < |s.callers| { assert CallerOk(s, s.callers[c]); }
    }
    forall u | 0 <= u < |s'.tasks| ensures TaskOk(s', u) { assert TaskOk(s, u); }
    CallKeepsRest(s, s');
  }

  function Started(s: State, key: string, tx: int): State {
    s.(tasks := s.tasks + [Task(key, tx, None, [])], inFlight := s.inFlight[key := |s.tasks|],
       callers := s.callers + [Waiting(key, tx, |s.tasks|, true)])
  }

  lemma StartedTasks(s: State, key: string, tx: int)
    requires Inv(s) && key !in s.inFlight && key !in s.completed
    ensures TasksOk(Started(s, key, tx)) && OneSuccess(Started(s, key, tx))
  {
    var s' := Started(s, key, tx);
    forall u | 0 <= u < |s'.tasks| ensures TaskOk(s', u) {
      if u < |s.tasks| { assert TaskOk(s, u); }
    }
  }

  lemma StartedCallers(s: State, key: string, tx: int)
    requires Inv(s) && key !in s.inFlight && key !in s.completed
    ensures CallersOk(Started(s, key, tx)) && OneOwner(Started(s, key, tx))
  {
    var s' := Started(s, key, tx);
    forall c | 0 <= c < |s'.callers| ensures CallerOk(s', s'.callers[c]) {
      if c < |s.callers| { assert CallerOk(s, s.callers[c]); }
    }
    forall c | 0 <= c < |s.callers| ensures !Owns(s.callers[c], |s.tasks|) { assert CallerOk(s, s.callers[c]); }
  }

  lemma KeepCallStarts(s: State, key: string, tx: int)
    requires Inv(s) && key !in s.inFlight && key !in s.completed
    ensures Inv(Started(s, key, tx))
  {
    var n := |s.callers|;
    var s' := Started(s, key, tx);
    StartedTasks(s, key, tx);
    StartedCallers(s, key, tx);
    CallKeepsRest(s, s'.(inFlight := s.inFlight));
    assert WaitingOwner(s'.callers[n], |s.tasks|);
    assert HasOwner(s', |s.tasks|);
    forall k | k in s.inFlight ensures HasOwner(s', s.inFlight[k]) {
      assert HasOwner(s'.(inFlight := s.inFlight), s.inFlight[k]);
    }
    forall k | k in s.completed ensures HasSuccess(s', k) {
      assert HasSuccess(s'.(inFlight := s.inFlight), k);
    }
  }

  lemma KeepCall(s: State, tx: int, trigger: Trigger, idem: Option<string>)
    requires Inv(s)
    ensures Inv(CallStep(s, tx, trigger, idem))
  {
    var key := Basis(tx, trigger, idem);
    if key in s.completed {
      KeepCallCached(s, key, tx);
    } else if key in s.inFlight {
      KeepCallJoins(s, key, tx);
    } else {
      KeepCallStarts(s, key, tx);
    }
  }

  /** A task that ends leaves every other task of its key unsuccessful, for it was running and none had succeeded. */
  lemma EndTaskTasks(s: State, t: nat, outcome: Outcome)
    requires Inv(s) && Enabled(s, EndTask(t, outcome))
    ensures TasksOk(EndTaskStep(s, t, outcome)) && OneSuccess(EndTaskStep(s, t, outcome))
  {
    var s' := EndTaskStep(s, t, outcome);
    assert TaskOk(s, t);
    forall u | 0 <= u < |s'.tasks|
      ensures TaskOk(s', u) && (u != t && s'.tasks[u].key == s'.tasks[t].key ==> !Succeeded(s'.tasks[u]))
    {
      assert TaskOk(s, u);
    }
  }

  lemma EndTaskCallers(s: State, t: nat, outcome: Outcome)
    requires Inv(s) && Enabled(s, EndTask(t, outcome))
    ensures CallersOk(EndTaskStep(s, t, outcome))
  {
    var s' := EndTaskStep(s, t, outcome);
    assert TaskOk(s, t);
    forall c | 0 <= c < |s'.callers| ensures CallerOk(s', s'.callers[c]) {
      assert CallerOk(s, s.callers[c]);
    }
  }

  lemma EndTaskFlights(s: State, t: nat, outcome: Outcome)
    requires Inv(s) && Enabled(s, EndTask(t, outcome))
    ensures FlightsOk(EndTaskStep(s, t, outcome))
  {
    var s' := EndTaskStep(s, t, outcome);
    assert TaskOk(s, t);
    forall k | k in s'.inFlight ensures HasOwner(s', s'.inFlight[k]) {
      assert HasOwner(s, s.inFlight[k]);
    }
  }

  lemma EndTaskCompleted(s: State, t: nat, outcome: Outcome)
    requires Inv(s) && Enabled(s, EndTask(t, outcome))
    ensures CompletedOk(EndTaskStep(s, t, outcome))
  {
    var s' := EndTaskStep(s, t, outcome);
    assert TaskOk(s, t);
    forall k | k in s'.completed ensures HasSuccess(s', k) {
      if k in s.completed {
        var u :| 0 <= u < |s.tasks| && s.tasks[u].key == k && Succeeded(s.tasks[u]);
        assert s'.tasks[u] == s.tasks[u];
      } else {
        assert Succeeded(s'.tasks[t]);
      }
    }
  }

  lemma KeepEndTask(s: State, t: nat, outcome: Outcome)
    requires Inv(s) && Enabled(s, EndTask(t, outcome))
    ensures Inv(EndTaskStep(s, t, outcome))
  {
    EndTaskTasks(s, t, outcome);
    EndTaskCallers(s, t, outcome);
    EndTaskFlights(s, t, outcome);
    EndTaskCompleted(s, t, outcome);
  }

  lemma ResumeCallers(s: State, c: nat)
    requires Inv(s) && Enabled(s, Resume(c))
    ensures CallersOk(ResumeStep(s, c))
  {
    var s' := ResumeStep(s, c);
    var w := s.callers[c];
    assert CallerOk(s, w);
    assert TaskOk(s, w.task);
    forall b | 0 <= b < |s'.callers| ensures CallerOk(s', s'.callers[b]) {
      assert CallerOk(s, s.callers[b]);
      assert Owns(w, w.task) <==> w.owner;
    }
  }

  lemma ResumeRest(s: State, c: nat)
    requires Inv(s) && Enabled(s, Resume(c))
    ensures TasksOk(ResumeStep(s, c)) && OneOwner(ResumeStep(s, c))
    ensures FlightsOk(ResumeStep(s, c)) && CompletedOk(ResumeStep(s, c))
  {
    var s' := ResumeStep(s, c);
    var w := s.callers[c];
    assert CallerOk(s, w);
    forall t | 0 <= t < |s'.tasks| ensures TaskOk(s', t) {
      assert TaskOk(s, t);
    }
    forall b, t | 0 <= b < |s'.callers| && Owns(s'.callers[b], t) ensures Owns(s.callers[b], t) {
    }
    forall k | k in s'.inFlight ensures HasOwner(s', s'.inFlight[k]) {
      var b :| 0 <= b < |s.callers| && WaitingOwner(s.callers[b], s.inFlight[k]);
      assert s'.callers[b] == s.callers[b];
    }
    forall k | k in s'.completed ensures HasSuccess(s', k) {
      assert HasSuccess(s, k);
    }
  }

  lemma KeepResume(s: State, c: nat)
    requires Inv(s) && Enabled(s, Resume(c))
    ensures Inv(ResumeStep(s, c))
  {
    ResumeCallers(s, c);
    ResumeRest(s, c);
  }

  lemma Keep(s: State, a: Action)
    requires Inv(s) && Enabled(s, a)
    ensures Inv(Step(s, a))
  {
    match a {
      case Call(tx, trigger, idem) => KeepCall(s, tx, trigger, idem);
      case EndTask(t, outcome) => KeepEndTask(s, t, outcome);
      case Resume(c) => KeepResume(s, c);
    }
  }

  lemma {:induction false} KeepAll(s: State, acts: seq<Action>)
    requires Inv(s) && Feasible(s, acts)
    ensures Inv(Exec(s, acts))
    decreases |acts|
  {
    if acts != [] {
      Keep(s, acts[0]);
      KeepAll(Step(s, acts[0]), acts[1..]);
    }
  }

  // ---- The promises ----

  /** Per key at most one investigation is running, and at most one ever succeeds. */
  lemma OneInvestigation(acts: seq<Action>, t: nat, u: nat)
    requires Feasible(EMPTY, acts)
    requires t < |Exec(EMPTY, acts).tasks| && u < |Exec(EMPTY, acts).tasks|
    requires Exec(EMPTY, acts).tasks[t].key == Exec(EMPTY, acts).tasks[u].key
    ensures var s := Exec(EMPTY, acts);
      && (Running(s.tasks[t]) && Running(s.tasks[u]) ==> t == u)
      && (Succeeded(s.tasks[t]) && Succeeded(s.tasks[u]) ==> t == u)
      && !(Running(s.tasks[t]) && Succeeded(s.tasks[u]))
  {
    KeepAll(EMPTY, acts);
    assert TaskOk(Exec(EMPTY, acts), t) && TaskOk(Exec(EMPTY, acts), u);
  }

  /**
   All successful replies for a key are the same reply, but for the replayed flag,
   and at most one is not a replay.
   */
  lemma RepliesAgree(acts: seq<Action>, b: nat, c: nat)
    requires Feasible(EMPTY, acts)
    requires b < |Exec(EMPTY, acts).callers| && c < |Exec(EMPTY, acts).callers|
    requires var s := Exec(EMPTY, acts);
      && s.callers[b].Answered? && s.callers[c].Answered? && s.callers[b].key == s.callers[c].key
      && s.callers[b].reply.Success? && s.callers[c].reply.Success?
    ensures var s := Exec(EMPTY, acts);
      && Replayed(s.callers[b].reply) == Replayed(s.callers[c].reply)
      && (!s.callers[b].reply.replayed && !s.callers[c].reply.replayed ==> b == c)
  {
    KeepAll(EMPTY, acts);
    var s := Exec(EMPTY, acts);
    assert CallerOk(s, s.callers[b]) && CallerOk(s, s.callers[c]);
    if !s.callers[b].reply.replayed && !s.callers[c].reply.replayed {
      var t, u := s.callers[b].started.value, s.callers[c].started.value;
      assert TaskOk(s, t) && TaskOk(s, u);
      assert t == u;
      assert Owns(s.callers[b], t) && Owns(s.callers[c], t);
    }
  }

  // ---- Whose reply it is ----

  ghost predicate Asked(key: string, tx: int) {
    exists trigger, idem :: key == Basis(tx, trigger, idem)
  }

  ghost predicate Proper(key: string, r: Reply) {
    r.key == key && Asked(key, r.tx) && (r.Success? ==> r.auditUri == AuditUri(key))
  }

  ghost predicate Origins(s: State) {
    && (forall t :: 0 <= t < |s.tasks| ==>
        Asked(s.tasks[t].key, s.tasks[t].tx)
            && (s.tasks[t].done.Some? ==> Proper(s.tasks[t].key, s.tasks[t].done.value)))
    && (forall c :: 0 <= c < |s.callers| ==>
        Asked(s.callers[c].key, s.callers[c].tx)
            && (s.callers[c].Answered? ==> Proper(s.callers[c].key, s.callers[c].reply)))
    && (forall k :: k in s.completed ==> Proper(k, s.completed[k]))
  }

  lemma CallOrigins(s: State, key: string, tx: int)
    requires Origins(s) && Asked(key, tx)
    ensures Origins(CallWith(s, key, tx))
  {
    if key in s.completed {
      assert Proper(key, Replayed(s.completed[key]));
    }
  }

  lemma EndTaskOrigins(s: State, t: nat, outcome: Outcome)
    requires Origins(s) && t < |s.tasks|
    ensures Origins(EndTaskStep(s, t, outcome))
  {
    var k := s.tasks[t];
    assert Asked(k.key, k.tx);
    var s' := EndTaskStep(s, t, outcome);
    assert Proper(k.key, s'.tasks[t].done.value);
  }

  lemma ResumeOrigins(s: State, c: nat)
    requires Inv(s) && Origins(s) && Enabled(s, Resume(c))
    ensures Origins(ResumeStep(s, c))
  {
    var w := s.callers[c];
    assert CallerOk(s, w);
    var r := s.tasks[w.task].done.value;
    assert Asked(w.key, w.tx) && Proper(w.key, r) && Proper(w.key, Replayed(r));
    var s' := ResumeStep(s, c);
    assert forall b :: 0 <= b < |s.callers| && b != c ==> s'.callers[b] == s.callers[b];
  }

  lemma KeepOrigins(s: State, a: Action)
    requires Inv(s) && Origins(s) && Enabled(s, a)
    ensures Origins(Step(s, a))
  {
    match a {
      case Call(tx, trigger, idem) =>
        assert Asked(Basis(tx, trigger, idem), tx);
        CallOrigins(s, Basis(tx, trigger, idem), tx);
      case EndTask(t, outcome) => EndTaskOrigins(s, t, outcome);
      case Resume(c) => ResumeOrigins(s, c);
    }
  }

  lemma {:induction false} KeepOriginsAll(s: State, acts: seq<Action>)
    requires Inv(s) && Origins(s) && Feasible(s, acts)
    ensures Origins(Exec(s, acts))
    decreases |acts|
  {
    if acts != [] {
      KeepOrigins(s, acts[0]);
      Keep(s, acts[0]);
      KeepOriginsAll(Step(s, acts[0]), acts[1..]);
    }
  }

  /** Every reply is about the transaction its caller asked for. */
  lemma ReplyIsForCaller(acts: seq<Action>, c: nat)
    requires Feasible(EMPTY, acts) && c < |Exec(EMPTY, acts).callers| && Exec(EMPTY, acts).callers[c].Answered?
    ensures Exec(EMPTY, acts).callers[c].reply.tx == Exec(EMPTY, acts).callers[c].tx
  {
    KeepOriginsAll(EMPTY, acts);
    var k := Exec(EMPTY, acts).callers[c];
    assert Asked(k.key, k.tx) && Proper(k.key, k.reply);
    var tr1, id1 :| k.key == Basis(k.tx, tr1, id1);
    var tr2, id2 :| k.key == Basis(k.reply.tx, tr2, id2);
    SameRunIff(k.tx, tr1, id1, k.reply.tx, tr2, id2);
  }

  /** The audit resource: the stored trail, or a structured miss. */
  function Audit(s: State, key: string): Option<seq<string>> {
    if key in s.trails then Some(s.trails[key]) else None
  }

  /** The audit_uri of a successful reply resolves, to the trail of the one run that produced the reply. */
  lemma AuditResolves(acts: seq<Action>, c: nat)
    requires Feasible(EMPTY, acts) && c < |Exec(EMPTY, acts).callers|
    requires Exec(EMPTY, acts).callers[c].Answered? && Exec(EMPTY, acts).callers[c].reply.Success?
    ensures var s := Exec(EMPTY, acts); var r := s.callers[c].reply;
      r.auditUri == AuditUri(r.key) &&
      exists t :: 0 <= t < |s.tasks| && s.tasks[t].key == r.key && Succeeded(s.tasks[t])
          && Audit(s, r.key) == Some(s.tasks[t].trail)
  {
    KeepAll(EMPTY, acts);
    KeepOriginsAll(EMPTY, acts);
    var s := Exec(EMPTY, acts);
    assert CallerOk(s, s.callers[c]);
    assert Proper(s.callers[c].key, s.callers[c].reply);
    var key := s.callers[c].key;
    assert HasSuccess(s, key);
    var t :| 0 <= t < |s.tasks| && s.tasks[t].key == key && Succeeded(s.tasks[t]);
    assert TaskOk(s, t);
  }

  /**
   A call starts an investigation exactly when none of its key has succeeded and
   none is running or about to be answered.
   */
  lemma StartsIff(acts: seq<Action>, tx: int, trigger: Trigger, idem: Option<string>)
    requires Feasible(EMPTY, acts)
    ensures var s := Exec(EMPTY, acts); var key := Basis(tx, trigger, idem);
      |CallStep(s, tx, trigger, idem).tasks| == |s.tasks| + 1 <==>
        (forall t :: 0 <= t < |s.tasks| && s.tasks[t].key == key ==>
           && !Running(s.tasks[t]) && !Succeeded(s.tasks[t])
           && forall c :: 0 <= c < |s.callers| ==> !WaitingOwner(s.callers[c], t))
  {
    KeepAll(EMPTY, acts);
    var s := Exec(EMPTY, acts);
    var key := Basis(tx, trigger, idem);
    if key in s.completed {
      var t :| 0 <= t < |s.tasks| && s.tasks[t].key == key && Succeeded(s.tasks[t]);
    } else if key in s.inFlight {
      var t := s.inFlight[key];
      var c :| 0 <= c < |s.callers| && WaitingOwner(s.callers[c], t);
    } else {
      forall t | 0 <= t < |s.tasks| && s.tasks[t].key == key
        ensures !Running(s.tasks[t]) && !Succeeded(s.tasks[t])
        ensures forall c :: 0 <= c < |s.callers| ==> !WaitingOwner(s.callers[c], t)
      {
        assert TaskOk(s, t);
        forall c | 0 <= c < |s.callers| ensures !WaitingOwner(s.callers[c], t) {
          assert CallerOk(s, s.callers[c]);
        }
      }
    }
  }

  /** A failed investigation blocks nobody: once its owner has its answer, the key is free again. */
  lemma FailureFreesKey(acts: seq<Action>, c: nat, tx: int, trigger: Trigger, idem: Option<string>)
    requires Feasible(EMPTY, acts) && Enabled(Exec(EMPTY, acts), Resume(c))
    requires var s := Exec(EMPTY, acts); var w := s.callers[c];
      w.owner && w.key == Basis(tx, trigger, idem) && s.tasks[w.task].done.value.Failure?
    ensures var s' := ResumeStep(Exec(EMPTY, acts), c);
      |CallStep(s', tx, trigger, idem).tasks| == |s'.tasks| + 1
  {
    KeepAll(EMPTY, acts);
    var s := Exec(EMPTY, acts);
    var w := s.callers[c];
    assert CallerOk(s, w);
  }
}
