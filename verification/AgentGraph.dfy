/**
 The investigation graph run to its end against an arbitrary language model.
 `llm(i)` is whatever the i-th reasoning call yields and `synthesis` whatever
 the final call yields: it raises, or it answers and the answer parses to a
 verdict or does not (how the answer's text is read is in Fences).
 */
module AgentGraph {
  import opened Wrappers

  /** The cap on reasoning calls; the configuration sets 8, and nothing below depends on which. */
  type Cap = n: nat | n > 0 witness 8

  datatype Degradation = LlmUnavailable | OutputUnparseable | IterationsExhausted

  datatype Finding = TruePositive | FalsePositive | Inconclusive

  datatype Risk = CriticalRisk | HighRisk | MediumRisk | LowRisk

  datatype Reasoning = Raised(detail: string) | Message(toolCalls: bool, signalsDone: bool)

  datatype Synthesis = SynthesisRaised(detail: string) | Answer(parsed: Option<Verdict>)

  /** A verdict dictionary; `degraded` and `reason` are the two keys the code may add. */
  datatype Verdict = Verdict(verdict: Finding, confidence: real, riskLevel: Risk, degraded: Option<bool>,
      reason: Option<Degradation>)

  datatype Entry =
    | Started
    | Collected
    | Reasoned(iteration: nat, hasToolCalls: bool)
    | ReasonError(iteration: nat, detail: string)
    | SynthesisError(detail: string)
    | VerdictProduced(verdict: Finding, degraded: bool, reason: Option<Degradation>)
    | Complete(outcome: Option<Finding>, totalIterations: nat, totalEntries: nat)

  datatype Msg = System | Human | Ai(toolCalls: bool, signalsDone: bool) | ToolResults

  datatype State = State(
    iteration: nat, messages: seq<Msg>, trail: seq<Entry>, verdict: Option<Verdict>,
    degraded: bool, reason: Option<Degradation>)

  const INITIAL := State(0, [], [], None, false, None)

  datatype Env = Env(cap: Cap, llm: nat -> Reasoning, synthesis: Synthesis)

  /** A parsed answer is an object of the requested schema, which has no degraded key. */
  predicate SchemaFollowed(env: Env) {
    env.synthesis.Answer? && env.synthesis.parsed.Some? ==>
      env.synthesis.parsed.value.degraded.None? && env.synthesis.parsed.value.reason.None?
  }

  datatype Node = StartNode | CollectNode | ReasonNode | ToolsNode | SynthesizeNode | AuditNode | End

  // ---- The nodes ----

  function ReasonStep(s: State, env: Env): State {
    var i := s.iteration + 1;
    match env.llm(i)
    case Raised(detail) =>
      s.(messages := s.messages + [Ai(false, true)], iteration := i,
         trail := s.trail + [ReasonError(i, detail)], degraded := true, reason := Some(LlmUnavailable))
    case Message(toolCalls, done) =>
      s.(messages := s.messages + [Ai(toolCalls, done)], iteration := i, trail := s.trail + [Reasoned(i, toolCalls)])
  }

  function FallbackVerdict(code: Degradation): Verdict {
    Verdict(Inconclusive, 0.1, MediumRisk, Some(true), Some(code))
  }

  function OrElse(a: Option<Degradation>, b: Option<Degradation>): Option<Degradation> {
    if a.Some? then a else b
  }

  function SynthesizeStep(s: State, env: Env): State {
    match env.synthesis
    case SynthesisRaised(detail) =>
      var v := FallbackVerdict(LlmUnavailable);
      s.(verdict := Some(v), degraded := true, reason := Some(LlmUnavailable),
         trail := s.trail + [SynthesisError(detail), VerdictProduced(v.verdict, true, Some(LlmUnavailable))])
    case Answer(parsed) =>
      var v := if parsed.Some? then parsed.value else FallbackVerdict(OutputUnparseable);
      var built := v.degraded == Some(true);
      var capped := !built && s.iteration >= env.cap;
      var degraded := s.degraded || built || capped;
      var reason :=
        if built then OrElse(s.reason, v.reason)
        else if capped then OrElse(s.reason, Some(IterationsExhausted))
        else s.reason;
      var v' := if degraded then
                  v.(degraded := if v.degraded.Some? then v.degraded else Some(true),
                     reason := OrElse(v.reason, reason))
                else v;
      s.(verdict := Some(v'), degraded := degraded, reason := reason,
         trail := s.trail + [VerdictProduced(v'.verdict, degraded, reason)])
  }

  function NodeStep(node: Node, s: State, env: Env): State {
    match node
    case StartNode => s.(iteration := 0, trail := [Started], verdict := None)
    case CollectNode => s.(messages := s.messages + [System, Human], trail := s.trail + [Collected])
    case ReasonNode => ReasonStep(s, env)
    case ToolsNode => s.(messages := s.messages + [ToolResults])
    case SynthesizeNode => SynthesizeStep(s, env)
    case AuditNode =>
      var outcome := if s.verdict.Some? then Some(s.verdict.value.verdict) else None;
      s.(trail := s.trail + [Complete(outcome, s.iteration, |s.trail| + 1)])
    case End => s
  }

  /** _route_after_reason: the completion signal in the text makes no difference, every other way leads to synthesis. */
  function RouteAfterReason(s: State, env: Env): Node {
    if s.iteration >= env.cap then SynthesizeNode
    else if s.messages == [] then SynthesizeNode
    else
      var last := s.messages[|s.messages| - 1];
      if last.Ai? && last.toolCalls then ToolsNode else SynthesizeNode
  }

  function NextNode(node: Node, s: State, env: Env): Node {
    match node
    case StartNode => CollectNode
    case CollectNode => ReasonNode
    case ReasonNode => RouteAfterReason(s, env)
    case ToolsNode => ReasonNode
    case SynthesizeNode => AuditNode
    case AuditNode => End
    case End => End
  }

  function Rank(node: Node): nat {
    match node
    case StartNode => 6
    case CollectNode => 5
    case ToolsNode => 4
    case ReasonNode => 3
    case SynthesizeNode => 2
    case AuditNode => 1
    case End => 0
  }

  /** The reason-and-tools loop can be entered again only below the cap. */
  function Budget(node: Node, s: State, env: Env): nat {
    if node.StartNode? then env.cap + 1 else if s.iteration < env.cap then env.cap - s.iteration else 0
  }

  /** The graph run from a node on: the nodes visited, and the final state. */
  function Run(node: Node, s: State, env: Env): (seq<Node>, State)
    decreases Budget(node, s, env), Rank(node)
  {
    if node.End? then ([], s)
    else
      var s' := NodeStep(node, s, env);
      var (rest, final) := Run(NextNode(node, s', env), s', env);
      ([node] + rest, final)
  }

  function Investigate(env: Env): (seq<Node>, State) {
    Run(StartNode, INITIAL, env)
  }

  // ---- What a run must look like, read off the model's answers alone ----

  predicate WantsTools(r: Reasoning) {
    r.Message? && r.toolCalls
  }

  /** The number of reasoning calls: up to the first answer without tool calls, or the cap. */
  function CallsFrom(env: Env, i: nat): (k: nat)
    requires i < env.cap
    ensures i < k <= env.cap
    ensures forall j :: i < j < k ==> WantsTools(env.llm(j))
    ensures k < env.cap ==> !WantsTools(env.llm(k))
    decreases env.cap - i
  {
    if i + 1 < env.cap && WantsTools(env.llm(i + 1)) then CallsFrom(env, i + 1) else i + 1
  }

  function Calls(env: Env): nat {
    CallsFrom(env, 0)
  }

  function EntryOf(env: Env, i: nat): Entry {
    match env.llm(i)
    case Raised(detail) => ReasonError(i, detail)
    case Message(toolCalls, _) => Reasoned(i, toolCalls)
  }

  /** One entry for each of the iterations i+1..k. */
  function Entries(env: Env, i: nat, k: nat): seq<Entry>
    requires i <= k
    decreases k - i
  {
    if i == k then [] else [EntryOf(env, i + 1)] + Entries(env, i + 1, k)
  }

  function LoopNodes(i: nat, k: nat): seq<Node>
    requires i < k
    decreases k - i
  {
    if i + 1 == k then [ReasonNode] else [ReasonNode, ToolsNode] + LoopNodes(i + 1, k)
  }

  /** The state the loop leaves behind, but for its messages. */
  ghost predicate LoopEnds(s: State, s': State, env: Env, i: nat, k: nat)
    requires i <= k
  {
    && s'.iteration == k && s'.trail == s.trail + Entries(env, i, k) && s'.verdict == s.verdict
    && s'.degraded == (s.degraded || env.llm(k).Raised?)
    && s'.reason == if env.llm(k).Raised? then Some(LlmUnavailable) else s.reason
  }

  lemma {:induction false} LoopRuns(s: State, env: Env) returns (s': State)
    requires s.iteration < env.cap
    ensures var k := CallsFrom(env, s.iteration);
      && LoopEnds(s, s', env, s.iteration, k)
      && Run(ReasonNode, s, env).0 == LoopNodes(s.iteration, k) + Run(SynthesizeNode, s', env).0
      && Run(ReasonNode, s, env).1 == Run(SynthesizeNode, s', env).1
    decreases env.cap - s.iteration
  {
    var i := s.iteration;
    var t := ReasonStep(s, env);
    assert t.messages[|t.messages| - 1].toolCalls == WantsTools(env.llm(i + 1));
    if i + 1 < env.cap && WantsTools(env.llm(i + 1)) {
      var u := NodeStep(ToolsNode, t, env);
      s' := LoopRuns(u, env);
      LoopStateSplice(s, s', env);
      ToolsRound(s, env);
      var k := CallsFrom(env, i);
      Assoc(ReasonNode, ToolsNode, LoopNodes(i + 1, k), Run(SynthesizeNode, s', env).0);
    } else {
      s' := t;
      assert Entries(env, i, i + 1) == [EntryOf(env, i + 1)] + [];
    }
  }

  lemma LoopStateSplice(s: State, s': State, env: Env)
    requires s.iteration + 1 < env.cap && WantsTools(env.llm(s.iteration + 1))
    requires var u := NodeStep(ToolsNode, ReasonStep(s, env), env);
      LoopEnds(u, s', env, u.iteration, CallsFrom(env, u.iteration))
    ensures LoopEnds(s, s', env, s.iteration, CallsFrom(env, s.iteration))
  {
    var i := s.iteration;
    var k := CallsFrom(env, i);
    assert k == CallsFrom(env, i + 1);
    var e := [EntryOf(env, i + 1)];
    var es := Entries(env, i + 1, k);
    assert Entries(env, i, k) == e + es;
    assert s.trail + e + es == s.trail + (e + es);
  }

  /** Reasoning that asks for tools below the cap comes round to reasoning again. */
  lemma ToolsRound(s: State, env: Env)
    requires s.iteration + 1 < env.cap && WantsTools(env.llm(s.iteration + 1))
    ensures var rest := Run(ReasonNode, NodeStep(ToolsNode, ReasonStep(s, env), env), env);
      Run(ReasonNode, s, env) == ([ReasonNode] + ([ToolsNode] + rest.0), rest.1)
  {
    var t := ReasonStep(s, env);
    assert t.messages[|t.messages| - 1] == Ai(true, env.llm(s.iteration + 1).signalsDone);
    assert NextNode(ReasonNode, t, env) == ToolsNode;
    var u := NodeStep(ToolsNode, t, env);
    var rest := Run(ReasonNode, u, env);
    assert Run(ToolsNode, t, env) == ([ToolsNode] + rest.0, rest.1);
  }

  lemma Assoc<T>(a: T, b: T, xs: seq<T>, ys: seq<T>)
    ensures [a] + ([b] + (xs + ys)) == [a, b] + xs + ys
  {
  }

  lemma {:induction false} LoopLength(i: nat, k: nat)
    requires i < k
    ensures |LoopNodes(i, k)| == 2 * (k - i) - 1
    ensures forall x :: x in LoopNodes(i, k) ==> x == ReasonNode || x == ToolsNode
    decreases k - i
  {
    if i + 1 < k {
      LoopLength(i + 1, k);
    }
  }

  /** Start and collect, the loop, and then the state in which synthesis begins. */
  lemma WholeRun(env: Env) returns (s: State)
    ensures LoopEnds(State(0, [System, Human], [Started, Collected], None, false, None), s, env, 0, Calls(env))
    ensures Investigate(env).0 == [StartNode, CollectNode] + LoopNodes(0, Calls(env)) + [SynthesizeNode, AuditNode]
    ensures Investigate(env).1 == NodeStep(AuditNode, SynthesizeStep(s, env), env)
  {
    var s1 := NodeStep(StartNode, INITIAL, env);
    var s2 := NodeStep(CollectNode, s1, env);
    assert s2 == State(0, [System, Human], [Started, Collected], None, false, None) by {
      assert [] + [System, Human] == [System, Human];
      assert [Started] + [Collected] == [Started, Collected];
    }
    s := LoopRuns(s2, env);
    var s3 := SynthesizeStep(s, env);
    var s4 := NodeStep(AuditNode, s3, env);
    assert Run(End, s4, env) == ([], s4);
    assert Run(AuditNode, s3, env) == ([AuditNode] + [], s4);
    assert Run(SynthesizeNode, s, env) == ([SynthesizeNode] + ([AuditNode] + []), s4);
    var loop := Run(ReasonNode, s2, env);
    assert Run(CollectNode, s1, env) == ([CollectNode] + loop.0, loop.1);
    assert Investigate(env) == ([StartNode] + ([CollectNode] + loop.0), loop.1);
  }

  /**
   At most as many reasoning calls as the cap, at most twice the cap plus 3 nodes in
   all; synthesis and audit once each, last.
   */
  lemma BoundedRun(env: Env)
    ensures var nodes := Investigate(env).0;
      && |nodes| == 2 * Calls(env) + 3 <= 2 * env.cap + 3
      && Investigate(env).1.iteration == Calls(env)
      && nodes[|nodes| - 2..] == [SynthesizeNode, AuditNode]
      && (forall j :: 0 <= j < |nodes| - 2 ==> nodes[j] != SynthesizeNode && nodes[j] != AuditNode)
  {
    var s := WholeRun(env);
    LoopLength(0, Calls(env));
    var nodes := Investigate(env).0;
    var loop := LoopNodes(0, Calls(env));
    forall j | 0 <= j < |nodes| - 2 ensures nodes[j] != SynthesizeNode && nodes[j] != AuditNode {
      if j >= 2 {
        assert nodes[j] == loop[j - 2] && loop[j - 2] in loop;
      }
    }
  }

  // ---- Degradation ----

  predicate Unparseable(env: Env) {
    env.synthesis.Answer? && env.synthesis.parsed.None?
  }

  predicate ReasonFailed(env: Env) {
    env.llm(Calls(env)).Raised?
  }

  /** The reason the final state records, by priority. */
  function FinalReason(env: Env): Option<Degradation> {
    if ReasonFailed(env) || env.synthesis.SynthesisRaised? then Some(LlmUnavailable)
    else if Unparseable(env) then Some(OutputUnparseable)
    else if Calls(env) == env.cap then Some(IterationsExhausted)
    else None
  }

  /** The run is flagged exactly when one of the four failures happened, and the reason follows that priority. */
  lemma DegradedIff(env: Env)
    requires SchemaFollowed(env)
    ensures var s := Investigate(env).1;
      && s.verdict.Some?
      && s.reason == FinalReason(env)
      && (s.degraded <==>
          ReasonFailed(env) || env.synthesis.SynthesisRaised? || Unparseable(env) || Calls(env) == env.cap)
      && (s.degraded <==> s.verdict.value.degraded == Some(true))
  {
    var s := WholeRun(env);
  }

  /**
   A parsed verdict comes out with its finding, confidence and risk as parsed;
   otherwise it is the manual-review one.
   */
  lemma VerdictIs(env: Env)
    requires SchemaFollowed(env)
    ensures var v := Investigate(env).1.verdict;
      && v.Some?
      && (env.synthesis.Answer? && env.synthesis.parsed.Some? ==>
            var p := env.synthesis.parsed.value;
            v.value.verdict == p.verdict && v.value.confidence == p.confidence && v.value.riskLevel == p.riskLevel)
      && (!(env.synthesis.Answer? && env.synthesis.parsed.Some?) ==>
            v.value.verdict == Inconclusive && v.value.confidence == 0.1 && v.value.riskLevel == MediumRisk)
  {
    var s := WholeRun(env);
  }

  /**
   The verdict carries the reason the state records, except when reasoning
   failed and the answer then could not be parsed: the state keeps the earlier
   cause, the verdict the later one.
   */
  lemma PayloadAgreesIff(env: Env)
    requires SchemaFollowed(env)
    ensures var s := Investigate(env).1;
      && s.verdict.Some?
      && (s.verdict.value.reason == s.reason <==> !(ReasonFailed(env) && Unparseable(env)))
      && (ReasonFailed(env) && Unparseable(env) ==>
          s.reason == Some(LlmUnavailable) && s.verdict.value.reason == Some(OutputUnparseable))
  {
    var s := WholeRun(env);
  }

  // ---- The trail ----

  function VerdictEntries(env: Env): seq<Entry> {
    match env.synthesis
    case SynthesisRaised(detail) => [SynthesisError(detail), VerdictProduced(Inconclusive, true, Some(LlmUnavailable))]
    case Answer(parsed) =>
      var finding := if parsed.Some? then parsed.value.verdict else Inconclusive;
      [VerdictProduced(finding, FinalReason(env).Some?, FinalReason(env))]
  }

  function TrailBeforeAudit(env: Env): seq<Entry> {
    [Started, Collected] + Entries(env, 0, Calls(env)) + VerdictEntries(env)
  }

  /**
   The trail, exactly: started, collected, one entry per iteration, the verdict, and
   a closing entry that counts them all.
   */
  lemma TrailExact(env: Env)
    requires SchemaFollowed(env)
    ensures var before := TrailBeforeAudit(env); var s := Investigate(env).1;
      s.verdict.Some? && s.trail == before + [Complete(Some(s.verdict.value.verdict), Calls(env), |before| + 1)]
  {
    var s := WholeRun(env);
    DegradedIff(env);
    assert SynthesizeStep(s, env).trail == TrailBeforeAudit(env);
  }

  /** Read off by position: started, collected, then what each reasoning call did. */
  lemma TrailByPosition(env: Env, i: nat)
    requires SchemaFollowed(env) && 1 <= i <= Calls(env)
    ensures var trail := Investigate(env).1.trail;
      && |trail| >= Calls(env) + 4 && trail[0] == Started && trail[1] == Collected
      && (env.llm(i).Raised? ==> trail[1 + i] == ReasonError(i, env.llm(i).detail))
      && (env.llm(i).Message? ==> trail[1 + i] == Reasoned(i, env.llm(i).toolCalls))
  {
    TrailExact(env);
    EntryAt(env, 0, Calls(env), i);
    var before := TrailBeforeAudit(env);
    assert before[1 + i] == Entries(env, 0, Calls(env))[i - 1];
  }

  lemma {:induction false} EntryAt(env: Env, j: nat, k: nat, i: nat)
    requires j < i <= k
    ensures |Entries(env, j, k)| == k - j && Entries(env, j, k)[i - j - 1] == EntryOf(env, i)
    decreases k - j
  {
    if j + 1 < i {
      EntryAt(env, j + 1, k, i);
    } else if i < k {
      EntryAt(env, j + 1, k, i + 1);
    } else {
      assert Entries(env, i, k) == [];
    }
  }

  /** And its end: an error of the final call if it raised, the verdict as recorded, and the closing count. */
  lemma TrailEnds(env: Env)
    requires SchemaFollowed(env)
    ensures var s := Investigate(env).1; var n := |s.trail|;
      && n >= 2 && s.verdict.Some?
      && s.trail[n - 1] == Complete(Some(s.verdict.value.verdict), s.iteration, n)
      && s.trail[n - 2] == VerdictProduced(s.verdict.value.verdict, s.degraded, s.reason)
      && (env.synthesis.SynthesisRaised? ==> n >= 3 && s.trail[n - 3] == SynthesisError(env.synthesis.detail))
      && n == 2 + s.iteration + (if env.synthesis.SynthesisRaised? then 2 else 1) + 1
  {
    TrailExact(env);
    DegradedIff(env);
    VerdictIs(env);
    BoundedRun(env);
    EntriesLength(env, 0, Calls(env));
    var end := VerdictEntries(env);
    var before := TrailBeforeAudit(env);
    assert before[|before| - 1] == end[|end| - 1];
    assert |end| == 2 ==> before[|before| - 2] == end[0];
  }

  lemma {:induction false} EntriesLength(env: Env, i: nat, k: nat)
    requires i <= k
    ensures |Entries(env, i, k)| == k - i
    decreases k - i
  {
    if i < k {
      EntriesLength(env, i + 1, k);
    }
  }

  /** The recorded reason, cause by cause, the earlier causes first. */
  lemma ReasonIs(env: Env)
    requires SchemaFollowed(env)
    ensures var reason := Investigate(env).1.reason;
      var unavailable := env.llm(Calls(env)).Raised? || env.synthesis.SynthesisRaised?;
      var unparsed := env.synthesis.Answer? && env.synthesis.parsed.None?;
      && (reason == Some(LlmUnavailable) <==> unavailable)
      && (reason == Some(OutputUnparseable) <==> !unavailable && unparsed)
      && (reason == Some(IterationsExhausted) <==> !unavailable && !unparsed && Calls(env) == env.cap)
      && (reason == None <==> !unavailable && !unparsed && Calls(env) < env.cap)
  {
    DegradedIff(env);
  }

  lemma NodeOnlyExtends(node: Node, s: State, env: Env)
    requires !node.StartNode?
    ensures s.trail <= NodeStep(node, s, env).trail
    ensures s.degraded ==> NodeStep(node, s, env).degraded
  {
  }

  /** From any point after the first node to the end, the trail only grows and the degraded flag is never cleared. */
  lemma {:induction false} RunOnlyExtends(node: Node, s: State, env: Env)
    requires !node.StartNode?
    ensures s.trail <= Run(node, s, env).1.trail
    ensures s.degraded ==> Run(node, s, env).1.degraded
    decreases Budget(node, s, env), Rank(node)
  {
    if !node.End? {
      var t := NodeStep(node, s, env);
      NodeOnlyExtends(node, s, env);
      RunOnlyExtends(NextNode(node, t, env), t, env);
    }
  }
}
