/**
 What callers are told, against what the graph answered: every reply of the
 server is the outcome of an investigation of its key that ended in the run.
 */
module InvestigationReplies {
  import opened Wrappers
  import opened RunKey
  import opened SingleFlight

  /** Outcome `o` is what a reply reports, and for a success `trail` is what the graph recorded. */
  predicate Reports(r: Reply, trail: seq<string>, o: Outcome) {
    match o
    case Concluded(v, t, n, runId) =>
      r.Success? && r.verdict == v && r.iterations == n && r.runId == runId && trail == t
    case TransportError(m) => r.Failure? && r.message == m && r.retryable
    case OtherError(m) => r.Failure? && r.message == m && !r.retryable
    case NoVerdict => r.Failure? && r.message == "Agent produced no verdict." && r.retryable
  }

  /** Task t ended in the run with an outcome that its result reports. */
  ghost predicate EndedWith(past: seq<Action>, t: nat, k: Task) {
    k.done.Some? && exists o :: EndTask(t, o) in past && Reports(k.done.value, k.trail, o)
  }

  /** Some ended task of the key has this result, but for the replayed flag. */
  ghost predicate FromTask(s: State, key: string, r: Reply) {
    exists t :: 0 <= t < |s.tasks| && s.tasks[t].key == key && s.tasks[t].done.Some?
                && Replayed(s.tasks[t].done.value) == Replayed(r)
  }

  ghost predicate Told(s: State, past: seq<Action>) {
    && (forall t :: 0 <= t < |s.tasks| && s.tasks[t].done.Some? ==> EndedWith(past, t, s.tasks[t]))
    && (forall c :: 0 <= c < |s.callers| && s.callers[c].Answered? ==>
        FromTask(s, s.callers[c].key, s.callers[c].reply))
    && (forall k :: k in s.completed ==> FromTask(s, k, s.completed[k]))
  }

  lemma EndedLater(past: seq<Action>, a: Action, t: nat, k: Task)
    requires EndedWith(past, t, k)
    ensures EndedWith(past + [a], t, k)
  {
    var o :| EndTask(t, o) in past && Reports(k.done.value, k.trail, o);
    assert EndTask(t, o) in past + [a];
  }

  /** Tasks that have ended stay as they are. */
  lemma TaskStays(s: State, s': State, key: string, r: Reply)
    requires FromTask(s, key, r) && |s'.tasks| >= |s.tasks|
    requires forall t :: 0 <= t < |s.tasks| && s.tasks[t].done.Some? ==> s'.tasks[t] == s.tasks[t]
    ensures FromTask(s', key, r)
  {
    var t :| 0 <= t < |s.tasks| && s.tasks[t].key == key && s.tasks[t].done.Some?
             && Replayed(s.tasks[t].done.value) == Replayed(r);
    assert s'.tasks[t] == s.tasks[t];
  }

  /** A call only adds: a caller, and perhaps a task that has not ended. */
  lemma CallAdds(s: State, key: string, tx: int)
    ensures var s' := CallWith(s, key, tx);
      && s'.completed == s.completed && |s.tasks| <= |s'.tasks| && s'.tasks[..|s.tasks|] == s.tasks
      && (forall t :: |s.tasks| <= t < |s'.tasks| ==> s'.tasks[t].done.None?)
      && |s'.callers| == |s.callers| + 1 && s'.callers[..|s.callers|] == s.callers
      && (s'.callers[|s.callers|].Answered? ==>
            key in s.completed && s'.callers[|s.callers|] == Answered(key, tx, Replayed(s.completed[key]), None))
  {
  }

  lemma CallTasksTold(s: State, key: string, tx: int, past: seq<Action>, a: Action)
    requires Told(s, past)
    ensures var s' := CallWith(s, key, tx);
      forall t :: 0 <= t < |s'.tasks| && s'.tasks[t].done.Some? ==> EndedWith(past + [a], t, s'.tasks[t])
  {
    CallAdds(s, key, tx);
    var s' := CallWith(s, key, tx);
    forall t | 0 <= t < |s'.tasks| && s'.tasks[t].done.Some? ensures EndedWith(past + [a], t, s'.tasks[t]) {
      assert s'.tasks[t] == s'.tasks[..|s.tasks|][t];
      EndedLater(past, a, t, s.tasks[t]);
    }
  }

  lemma CallTold(s: State, key: string, tx: int, past: seq<Action>, a: Action)
    requires Told(s, past)
    ensures Told(CallWith(s, key, tx), past + [a])
  {
    CallAdds(s, key, tx);
    CallTasksTold(s, key, tx, past, a);
    var s' := CallWith(s, key, tx);
    assert forall t :: 0 <= t < |s.tasks| ==> s'.tasks[t] == s'.tasks[..|s.tasks|][t];
    forall k | k in s'.completed ensures FromTask(s', k, s'.completed[k]) {
      TaskStays(s, s', k, s.completed[k]);
    }
    forall c | 0 <= c < |s'.callers| && s'.callers[c].Answered?
      ensures FromTask(s', s'.callers[c].key, s'.callers[c].reply)
    {
      if c < |s.callers| {
        assert s'.callers[c] == s'.callers[..|s.callers|][c];
        TaskStays(s, s', s.callers[c].key, s.callers[c].reply);
      } else {
        TaskStays(s, s', key, Replayed(s.completed[key]));
      }
    }
  }

  lemma EndTold(s: State, t: nat, o: Outcome, past: seq<Action>)
    requires Told(s, past) && Enabled(s, EndTask(t, o))
    ensures Told(EndTaskStep(s, t, o), past + [EndTask(t, o)])
  {
    var s' := EndTaskStep(s, t, o);
    var a := EndTask(t, o);
    assert Reports(s'.tasks[t].done.value, s'.tasks[t].trail, o) && a in past + [a];
    forall u | 0 <= u < |s'.tasks| && s'.tasks[u].done.Some? ensures EndedWith(past + [a], u, s'.tasks[u]) {
      if u != t {
        EndedLater(past, a, u, s.tasks[u]);
      }
    }
    forall c | 0 <= c < |s'.callers| && s'.callers[c].Answered?
      ensures FromTask(s', s'.callers[c].key, s'.callers[c].reply)
    {
      TaskStays(s, s', s.callers[c].key, s.callers[c].reply);
    }
    forall k | k in s'.completed ensures FromTask(s', k, s'.completed[k]) {
      if s'.completed[k] != s'.tasks[t].done.value || k != s'.tasks[t].key {
        TaskStays(s, s', k, s.completed[k]);
      }
    }
  }

  /** Waking up changes one caller, who is told the result of the task it waited for. */
  lemma ResumeTells(s: State, c: nat)
    requires Inv(s) && Enabled(s, Resume(c))
    ensures var s' := ResumeStep(s, c);
      && s'.tasks == s.tasks && s'.completed == s.completed && |s'.callers| == |s.callers|
      && (forall b :: 0 <= b < |s.callers| && b != c ==> s'.callers[b] == s.callers[b])
      && s'.callers[c].Answered? && s'.callers[c].key == s.callers[c].key
      && FromTask(s', s'.callers[c].key, s'.callers[c].reply)
  {
    var w := s.callers[c];
    assert CallerOk(s, w);
    assert s.tasks[w.task].key == w.key;
  }

  lemma ResumeTold(s: State, c: nat, past: seq<Action>)
    requires Inv(s) && Told(s, past) && Enabled(s, Resume(c))
    ensures Told(ResumeStep(s, c), past + [Resume(c)])
  {
    var s' := ResumeStep(s, c);
    ResumeTells(s, c);
    forall t | 0 <= t < |s'.tasks| && s'.tasks[t].done.Some? ensures EndedWith(past + [Resume(c)], t, s'.tasks[t]) {
      EndedLater(past, Resume(c), t, s.tasks[t]);
    }
    forall k | k in s'.completed ensures FromTask(s', k, s'.completed[k]) {
      TaskStays(s, s', k, s.completed[k]);
    }
    forall b | 0 <= b < |s'.callers| && b != c && s'.callers[b].Answered?
      ensures FromTask(s', s'.callers[b].key, s'.callers[b].reply)
    {
      TaskStays(s, s', s.callers[b].key, s.callers[b].reply);
    }
  }

  lemma KeepTold(s: State, a: Action, past: seq<Action>)
    requires Inv(s) && Told(s, past) && Enabled(s, a)
    ensures Told(Step(s, a), past + [a])
  {
    match a {
      case Call(tx, trigger, idem) => CallTold(s, Basis(tx, trigger, idem), tx, past, a);
      case EndTask(t, o) => EndTold(s, t, o, past);
      case Resume(c) => ResumeTold(s, c, past);
    }
  }

  lemma {:induction false} KeepToldAll(s: State, acts: seq<Action>, past: seq<Action>)
    requires Inv(s) && Told(s, past) && Feasible(s, acts)
    ensures Told(Exec(s, acts), past + acts)
    decreases |acts|
  {
    if acts == [] {
      assert past + acts == past;
    } else {
      KeepTold(s, acts[0], past);
      Keep(s, acts[0]);
      KeepToldAll(Step(s, acts[0]), acts[1..], past + [acts[0]]);
      OneFurther(past, acts);
    }
  }

  lemma OneFurther(past: seq<Action>, acts: seq<Action>)
    requires acts != []
    ensures past + [acts[0]] + acts[1..] == past + acts
  {
  }

  /** The run contains the end of an investigation of this key with this outcome. */
  ghost predicate Ended(acts: seq<Action>, s: State, key: string, o: Outcome) {
    exists t :: 0 <= t < |s.tasks| && s.tasks[t].key == key && EndTask(t, o) in acts
  }

  /**
   Every reply reports the outcome of an investigation of its key that ended in
   the run: a verdict, its iterations and run id exactly as concluded, or the
   error's message, retryable for transport errors and missing verdicts only.
   */
  lemma RepliesReport(acts: seq<Action>, c: nat)
    requires Feasible(EMPTY, acts) && c < |Exec(EMPTY, acts).callers| && Exec(EMPTY, acts).callers[c].Answered?
    ensures var s := Exec(EMPTY, acts); var r := s.callers[c].reply;
      exists o, trail :: Ended(acts, s, s.callers[c].key, o) && Reports(r, trail, o)
  {
    KeepToldAll(EMPTY, acts, []);
    assert [] + acts == acts;
    var s := Exec(EMPTY, acts);
    var r := s.callers[c].reply;
    var t :| 0 <= t < |s.tasks| && s.tasks[t].key == s.callers[c].key && s.tasks[t].done.Some?
             && Replayed(s.tasks[t].done.value) == Replayed(r);
    var o :| EndTask(t, o) in acts && Reports(s.tasks[t].done.value, s.tasks[t].trail, o);
    assert Ended(acts, s, s.callers[c].key, o) && Reports(r, s.tasks[t].trail, o);
  }

  lemma SuccessReports(r: Reply, trail: seq<string>, o: Outcome)
    requires Reports(r, trail, o) && r.Success?
    ensures o == Concluded(r.verdict, trail, r.iterations, r.runId)
  {
  }

  /** For a successful reply the trail behind its audit_uri is the one that investigation recorded. */
  lemma AuditIsRecorded(acts: seq<Action>, c: nat)
    requires Feasible(EMPTY, acts) && c < |Exec(EMPTY, acts).callers|
    requires Exec(EMPTY, acts).callers[c].Answered? && Exec(EMPTY, acts).callers[c].reply.Success?
    ensures var s := Exec(EMPTY, acts); var r := s.callers[c].reply;
      exists trail ::
        && Ended(acts, s, s.callers[c].key, Concluded(r.verdict, trail, r.iterations, r.runId))
        && Audit(s, s.callers[c].key) == Some(trail)
  {
    KeepAll(EMPTY, acts);
    KeepToldAll(EMPTY, acts, []);
    assert [] + acts == acts;
    var s := Exec(EMPTY, acts);
    var r := s.callers[c].reply;
    var t :| 0 <= t < |s.tasks| && s.tasks[t].key == s.callers[c].key && s.tasks[t].done.Some?
             && Replayed(s.tasks[t].done.value) == Replayed(r);
    assert TaskOk(s, t);
    var o :| EndTask(t, o) in acts && Reports(s.tasks[t].done.value, s.tasks[t].trail, o);
    SuccessReports(s.tasks[t].done.value, s.tasks[t].trail, o);
    assert Ended(acts, s, s.callers[c].key, o);
  }

  /** The audit_uri names the key, between a fixed scheme and a fixed ending, so different keys have different URIs. */
  lemma AuditUriNames(k1: string, k2: string)
    ensures |AuditUri(k1)| == 22 + |k1| && AuditUri(k1)[16..16 + |k1|] == k1
    ensures AuditUri(k1)[..16] == "investigation://" && AuditUri(k1)[16 + |k1|..] == "/audit"
    ensures AuditUri(k1) == AuditUri(k2) <==> k1 == k2
  {
    if AuditUri(k1) == AuditUri(k2) {
      Middle(k1);
      Middle(k2);
    }
    Middle(k1);
  }

  lemma Middle(k: string)
    ensures |AuditUri(k)| == 22 + |k| && AuditUri(k)[16..16 + |k|] == k
    ensures AuditUri(k)[..16] == "investigation://" && AuditUri(k)[16 + |k|..] == "/audit"
  {
    var head, end := "investigation://", "/audit";
    assert |head| == 16 && |end| == 6;
    assert AuditUri(k) == head + k + end;
  }
}
