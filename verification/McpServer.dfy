/** The server itself: each method is the stretch of code between two awaits, updating the dictionaries in place. */
module McpServer {
  import opened Wrappers
  import opened RunKey
  import opened SingleFlight

  class McpServer {
    var completed: map<string, Reply>
    var auditTrails: map<string, seq<string>>
    var inFlight: map<string, nat>
    var tasks: seq<Task>
    var callers: seq<Caller>

    constructor ()
      ensures Contents() == EMPTY
    {
      completed, auditTrails, inFlight, tasks, callers := map[], map[], map[], [], [];
    }

    function Contents(): State
      reads this
    {
      State(completed, auditTrails, inFlight, tasks, callers)
    }

    /** investigate_transaction up to its first await, or to its reply if the run is cached. */
    method Investigate(tx: int, trigger: Trigger, idem: Option<string>)
      modifies this
      ensures Contents() == CallStep(old(Contents()), tx, trigger, idem)
    {
      var key := Basis(tx, trigger, idem);
      if key in completed {
        callers := callers + [Answered(key, tx, Replayed(completed[key]), None)];
        return;
      }
      if key in inFlight {
        callers := callers + [Waiting(key, tx, inFlight[key], false)];
        return;
      }
      var t := |tasks|;
      tasks := tasks + [Task(key, tx, None, [])];
      inFlight := inFlight[key := t];
      callers := callers + [Waiting(key, tx, t, true)];
    }

    /** _run_investigation from the graph's answer to its return. */
    method RunInvestigation(t: nat, outcome: Outcome)
      requires Enabled(Contents(), EndTask(t, outcome))
      modifies this
      ensures Contents() == EndTaskStep(old(Contents()), t, outcome)
    {
      var k := tasks[t];
      var result;
      match outcome {
        case TransportError(message) =>
          result := Failure(k.key, k.tx, message, true, false);
        case OtherError(message) =>
          result := Failure(k.key, k.tx, message, false, false);
        case NoVerdict =>
          result := Failure(k.key, k.tx, "Agent produced no verdict.", true, false);
        case Concluded(verdict, trail, iterations, runId) =>
          k := k.(trail := trail);
          auditTrails := auditTrails[k.key := trail];
          result := Success(k.key, k.tx, verdict, iterations, runId, AuditUri(k.key), false);
          completed := completed[k.key := result];
      }
      tasks := tasks[t := k.(done := Some(result))];
    }

    /** A caller that was waiting for a task resumes: the owner clears the in-flight entry, a joiner marks a replay. */
    method WakeUp(c: nat)
      requires Enabled(Contents(), Resume(c))
      modifies this
      ensures Contents() == ResumeStep(old(Contents()), c)
    {
      var w := callers[c];
      var result := tasks[w.task].done.value;
      if w.owner {
        callers := callers[c := Answered(w.key, w.tx, result, Some(w.task))];
        inFlight := inFlight - {w.key};
      } else {
        callers := callers[c := Answered(w.key, w.tx, Replayed(result), None)];
      }
    }

    method InvestigationAudit(key: string) returns (trail: Option<seq<string>>)
      ensures trail == Audit(Contents(), key)
    {
      if key !in auditTrails {
        return None;
      }
      return Some(auditTrails[key]);
    }
  }
}
