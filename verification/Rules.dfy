/** The tiered fraud rules over any configuration, and the decision taken on the rounded score. */
module Rules {
  import opened Wrappers
  import opened Reals

  /** A tier applies from its threshold on (below it, for the account age rule). */
  datatype Tier = Tier(threshold: real, score: real)

  datatype Rule = Rule(weight: real, tiers: seq<Tier>)

  datatype Config = Config(
    velocity: Rule, amountThreshold: Rule, dailyVolume: Rule, failedHistory: Rule, newAccount: Rule, disputeRate: Rule,
    allowBelow: real, blockAbove: real)

  datatype Request = Request(amount: real, payouts24h: int, volume24h: real, failed7d: int, ageDays: int, disputes: int)

  datatype Outcome = Outcome(triggered: bool, score: real)

  datatype Decision = ALLOW | REVIEW | BLOCK

  // ---- The engine ----

  predicate Applies(t: Tier, below: bool, x: real) {
    if below then x < t.threshold else x >= t.threshold
  }

  /** The first tier that applies decides. */
  function Check(tiers: seq<Tier>, below: bool, x: real): Outcome {
    if tiers == [] then Outcome(false, 0.0)
    else if Applies(tiers[0], below, x) then Outcome(true, tiers[0].score)
    else Check(tiers[1..], below, x)
  }

  /** The six rules in the engine's order, each with its configuration, its direction and the value it looks at. */
  datatype Probe = Probe(rule: Rule, below: bool, value: real)

  function Probes(c: Config, q: Request): (r: seq<Probe>)
    ensures |r| == 6
  {
    [ Probe(c.velocity, false, q.payouts24h as real),
      Probe(c.amountThreshold, false, q.amount),
      Probe(c.dailyVolume, false, q.volume24h + q.amount),
      Probe(c.failedHistory, false, q.failed7d as real),
      Probe(c.newAccount, true, q.ageDays as real),
      Probe(c.disputeRate, false, q.disputes as real)]
  }

  function Evaluate(p: Probe): Outcome {
    Check(p.rule.tiers, p.below, p.value)
  }

  function Share(p: Probe): real {
    p.rule.weight * Evaluate(p).score
  }

  function Weighted(ps: seq<Probe>): real {
    if ps == [] then 0.0 else Share(ps[0]) + Weighted(ps[1..])
  }

  function Score(c: Config, q: Request): real {
    var sum := Weighted(Probes(c, q));
    if sum < 1.0 then sum else 1.0
  }

  /** round(x, 2), in hundredths: to nearest, ties to even. */
  function Hundredths(x: real): int {
    var n := (x * 100.0).Floor;
    var rest := x * 100.0 - n as real;
    if rest < 0.5 || (rest == 0.5 && n % 2 == 0) then n else n + 1
  }

  function ScoreToDecision(c: Config, hundredths: int): Decision {
    var s := hundredths as real / 100.0;
    if s >= c.blockAbove then BLOCK else if s >= c.allowBelow then REVIEW else ALLOW
  }

  function Decide(c: Config, q: Request): Decision {
    ScoreToDecision(c, Hundredths(Score(c, q)))
  }

  // ---- Well-formed configurations ----

  /** Listed strictest first, with scores that do not grow down the list. */
  predicate Strictest(tiers: seq<Tier>, below: bool) {
    && (forall i :: 0 <= i < |tiers| ==> tiers[i].score >= 0.0)
    && (forall i, j :: 0 <= i < j < |tiers| ==> tiers[i].score >= tiers[j].score)
    && (forall i, j :: 0 <= i < j < |tiers| ==>
          if below then tiers[i].threshold <= tiers[j].threshold else tiers[i].threshold >= tiers[j].threshold)
  }

  predicate RuleOk(r: Rule, below: bool) {
    r.weight >= 0.0 && Strictest(r.tiers, below)
  }

  predicate ConfigOk(c: Config) {
    && RuleOk(c.velocity, false) && RuleOk(c.amountThreshold, false) && RuleOk(c.dailyVolume, false)
    && RuleOk(c.failedHistory, false) && RuleOk(c.newAccount, true) && RuleOk(c.disputeRate, false)
  }

  /** x is at least as severe as y, for a rule of this direction. */
  predicate Severer(below: bool, x: real, y: real) {
    if below then x <= y else x >= y
  }

  // ---- One rule ----

  /** First match is the greatest score among the tiers that apply, and triggered says whether any does. */
  lemma {:induction false} FirstIsBest(tiers: seq<Tier>, below: bool, x: real)
    requires Strictest(tiers, below)
    ensures var r := Check(tiers, below, x);
      && (r.triggered <==> exists i :: 0 <= i < |tiers| && Applies(tiers[i], below, x))
      && (r.triggered ==> exists i :: 0 <= i < |tiers| && Applies(tiers[i], below, x) && tiers[i].score == r.score)
      && (!r.triggered ==> r.score == 0.0)
      && (forall i :: 0 <= i < |tiers| && Applies(tiers[i], below, x) ==> tiers[i].score <= r.score)
  {
    if tiers != [] && !Applies(tiers[0], below, x) {
      var rest := tiers[1..];
      FirstIsBest(rest, below, x);
      assert forall i :: 0 <= i < |rest| ==> rest[i] == tiers[i + 1];
      assert forall i :: 0 < i < |tiers| ==> tiers[i] == rest[i - 1];
    }
  }

  /** A severer value never scores less. */
  lemma {:induction false} CheckMonotone(tiers: seq<Tier>, below: bool, x: real, y: real)
    requires Strictest(tiers, below) && Severer(below, x, y)
    ensures Check(tiers, below, x).score >= Check(tiers, below, y).score >= 0.0
    ensures Check(tiers, below, y).triggered ==> Check(tiers, below, x).triggered
  {
    if tiers != [] {
      var rest := tiers[1..];
      CheckMonotone(rest, below, x, y);
      FirstIsBest(rest, below, y);
      assert forall i :: 0 <= i < |rest| ==> rest[i].score <= tiers[0].score;
    }
  }

  // ---- The score ----

  predicate ProbesOk(ps: seq<Probe>) {
    forall i :: 0 <= i < |ps| ==> RuleOk(ps[i].rule, ps[i].below)
  }

  /** The same rules looking at values at least as severe. */
  predicate Dominates(ps: seq<Probe>, qs: seq<Probe>) {
    |ps| == |qs| && forall i :: 0 <= i < |ps| ==>
      ps[i].rule == qs[i].rule && ps[i].below == qs[i].below && Severer(ps[i].below, ps[i].value, qs[i].value)
  }

  lemma {:induction false} WeightedMonotone(ps: seq<Probe>, qs: seq<Probe>)
    requires ProbesOk(ps) && Dominates(ps, qs)
    ensures Weighted(ps) >= Weighted(qs) >= 0.0
  {
    if ps != [] {
      ShareMonotone(ps[0], qs[0]);
      WeightedMonotone(ps[1..], qs[1..]);
    }
  }

  lemma ShareMonotone(p: Probe, q: Probe)
    requires RuleOk(p.rule, p.below) && p.rule == q.rule && p.below == q.below && Severer(p.below, p.value, q.value)
    ensures Share(p) >= Share(q) >= 0.0
  {
    CheckMonotone(p.rule.tiers, p.below, p.value, q.value);
    ProductMonotone(Evaluate(p).score, Evaluate(q).score, p.rule.weight);
  }

  /** A request at least as risky: no smaller counts, amount or volume, no older account. */
  predicate Riskier(p: Request, q: Request) {
    && p.amount >= q.amount && p.payouts24h >= q.payouts24h && p.volume24h >= q.volume24h
    && p.failed7d >= q.failed7d && p.ageDays <= q.ageDays && p.disputes >= q.disputes
  }

  function Severity(d: Decision): nat {
    match d
    case ALLOW => 0
    case REVIEW => 1
    case BLOCK => 2
  }

  lemma HundredthsMonotone(x: real, y: real)
    requires x >= y
    ensures Hundredths(x) >= Hundredths(y)
  {
  }

  /**
   For every well-formed configuration the score lies in [0, 1], and score and
   decision never fall when the request gets riskier.
   */
  lemma RiskMonotone(c: Config, p: Request, q: Request)
    requires ConfigOk(c) && Riskier(p, q)
    ensures 0.0 <= Score(c, q) <= Score(c, p) <= 1.0
    ensures 0 <= Hundredths(Score(c, q)) <= Hundredths(Score(c, p)) <= 100
    ensures Severity(Decide(c, p)) >= Severity(Decide(c, q))
  {
    WeightedMonotone(Probes(c, p), Probes(c, q));
    HundredthsMonotone(Score(c, p), Score(c, q));
    HundredthsMonotone(Score(c, q), 0.0);
    HundredthsMonotone(1.0, Score(c, p));
    DecisionMonotone(c, Hundredths(Score(c, p)), Hundredths(Score(c, q)));
  }

  lemma DecisionMonotone(c: Config, h: int, k: int)
    requires h >= k
    ensures Severity(ScoreToDecision(c, h)) >= Severity(ScoreToDecision(c, k))
  {
    assert h as real / 100.0 >= k as real / 100.0;
  }

  /** The rules that triggered, in order: the list the explanation names and takes the maximum of. */
  function Triggered(ps: seq<Probe>): seq<Outcome> {
    if ps == [] then []
    else (if Evaluate(ps[0]).triggered then [Evaluate(ps[0])] else []) + Triggered(ps[1..])
  }

  /** A rule adds to the score only by triggering with a positive score of its own. */
  lemma ShareTriggers(p: Probe)
    requires RuleOk(p.rule, p.below)
    ensures Share(p) >= 0.0
    ensures Evaluate(p).score > 0.0 ==> Evaluate(p).triggered
    ensures Evaluate(p).score <= 0.0 || !Evaluate(p).triggered ==> Share(p) == 0.0
  {
    FirstIsBest(p.rule.tiers, p.below, p.value);
    ShareMonotone(p, p);
    CheckMonotone(p.rule.tiers, p.below, p.value, p.value);
    TimesZero(p.rule.weight);
  }

  lemma TimesZero(w: real)
    ensures w * 0.0 == 0.0
  {
  }

  lemma {:induction false} NothingTriggered(ps: seq<Probe>)
    requires ProbesOk(ps)
    ensures Triggered(ps) == [] ==> Weighted(ps) == 0.0
    ensures Weighted(ps) > 0.0 ==> exists o :: o in Triggered(ps) && o.triggered && o.score > 0.0
  {
    if ps != [] {
      ShareTriggers(ps[0]);
      NothingTriggered(ps[1..]);
      if Evaluate(ps[0]).score > 0.0 {
        assert Evaluate(ps[0]) in Triggered(ps);
      }
    }
  }

  /** The rule the explanation calls dominant: Python's max over the triggered rules, which raises on an empty list. */
  function Dominant(triggered: seq<Outcome>): Option<Outcome> {
    if triggered == [] then None
    else
      var rest := Dominant(triggered[1..]);
      if rest.Some? && rest.value.score > triggered[0].score then rest else Some(triggered[0])
  }

  lemma {:induction false} DominantIsBest(triggered: seq<Outcome>)
    ensures Dominant(triggered).Some? <==> triggered != []
    ensures triggered != [] ==> Dominant(triggered).value in triggered
    ensures forall o :: o in triggered ==> Dominant(triggered).value.score >= o.score
    ensures triggered != [] ==> exists i :: 0 <= i < |triggered| && Dominant(triggered).value == triggered[i]
                                            && forall j :: 0 <= j < i ==> triggered[j].score < triggered[i].score
  {
    if triggered != [] {
      DominantIsBest(triggered[1..]);
      assert triggered == [triggered[0]] + triggered[1..];
      var rest := Dominant(triggered[1..]);
      if rest.Some? && rest.value.score > triggered[0].score {
        var i :| 0 <= i < |triggered[1..]| && rest.value == triggered[1..][i]
                 && forall j :: 0 <= j < i ==> triggered[1..][j].score < triggered[1..][i].score;
        assert triggered[i + 1] == rest.value;
        assert forall j :: 0 < j < i + 1 ==> triggered[j] == triggered[1..][j - 1];
      } else {
        assert Dominant(triggered).value == triggered[0];
      }
    }
  }

  /** Explaining a decision needs a dominant rule unless the decision is ALLOW. */
  predicate ExplanationFails(c: Config, q: Request) {
    Decide(c, q) != ALLOW && Dominant(Triggered(Probes(c, q))).None?
  }

  /**
   The explanation fails exactly when no rule triggered and a decision boundary
   is not positive; with positive boundaries, what it names has a positive score.
   */
  lemma ExplanationFailsIff(c: Config, q: Request)
    requires ConfigOk(c)
    ensures ExplanationFails(c, q) <==> Triggered(Probes(c, q)) == [] && (c.allowBelow <= 0.0 || c.blockAbove <= 0.0)
    ensures c.allowBelow > 0.0 && c.blockAbove > 0.0 && Decide(c, q) != ALLOW ==>
              Dominant(Triggered(Probes(c, q))).Some? && Dominant(Triggered(Probes(c, q))).value.score > 0.0
  {
    var ps := Probes(c, q);
    WeightedMonotone(ps, ps);
    NothingTriggered(ps);
    DominantIsBest(Triggered(ps));
    ZeroDecision(c);
    assert Weighted(ps) == 0.0 ==> Score(c, q) == 0.0;
  }

  lemma ZeroDecision(c: Config)
    ensures Hundredths(0.0) == 0
    ensures ScoreToDecision(c, 0) == ALLOW <==> c.allowBelow > 0.0 && c.blockAbove > 0.0
  {
  }

  // ---- The score and the decision, in full ----

  /** The value is at the threshold or beyond it; for the account's age, strictly below it. */
  predicate Reached(threshold: real, below: bool, x: real) {
    (below && threshold > x) || (!below && !(threshold > x))
  }

  /** b is the greatest score of a tier that applies to x, and 0 when none does. */
  predicate IsBest(tiers: seq<Tier>, below: bool, x: real, b: real) {
    && (forall i :: 0 <= i < |tiers| && Reached(tiers[i].threshold, below, x) ==> tiers[i].score <= b)
    && ((exists i :: 0 <= i < |tiers| && Reached(tiers[i].threshold, below, x) && tiers[i].score == b)
        || (b == 0.0 && forall i :: 0 <= i < |tiers| ==> !Reached(tiers[i].threshold, below, x)))
  }

  lemma BestIs(tiers: seq<Tier>, below: bool, x: real, b: real)
    requires Strictest(tiers, below) && IsBest(tiers, below, x, b)
    ensures Check(tiers, below, x).score == b
  {
    FirstIsBest(tiers, below, x);
  }

  /** A rule's share of the score: its weight times its best score for the value it looks at. */
  ghost predicate IsShare(rule: Rule, below: bool, x: real, share: real) {
    exists b :: IsBest(rule.tiers, below, x, b) && share == rule.weight * b
  }

  lemma ShareIs(rule: Rule, below: bool, x: real, share: real)
    requires RuleOk(rule, below) && IsShare(rule, below, x, share)
    ensures Share(Probe(rule, below, x)) == share
  {
    var b :| IsBest(rule.tiers, below, x, b) && share == rule.weight * b;
    ShareByBest(rule, below, x, b);
  }

  lemma ShareByBest(rule: Rule, below: bool, x: real, b: real)
    requires RuleOk(rule, below) && IsBest(rule.tiers, below, x, b)
    ensures Share(Probe(rule, below, x)) == rule.weight * b
  {
    BestIs(rule.tiers, below, x, b);
    ShareOf(Probe(rule, below, x), b);
  }

  lemma ShareOf(p: Probe, b: real)
    requires Evaluate(p).score == b
    ensures Share(p) == p.rule.weight * b
  {
  }

  /**
   The score is the smaller of 1 and the six shares together: of the counts, the
   amount, the day's volume with this amount added, and the account's age.
   */
  lemma ScoreIs(c: Config, q: Request, s0: real, s1: real, s2: real, s3: real, s4: real, s5: real)
    requires ConfigOk(c)
    requires IsShare(c.velocity, false, q.payouts24h as real, s0)
    requires IsShare(c.amountThreshold, false, q.amount, s1)
    requires IsShare(c.dailyVolume, false, q.volume24h + q.amount, s2)
    requires IsShare(c.failedHistory, false, q.failed7d as real, s3)
    requires IsShare(c.newAccount, true, q.ageDays as real, s4)
    requires IsShare(c.disputeRate, false, q.disputes as real, s5)
    ensures var sum := s0 + (s1 + (s2 + (s3 + (s4 + s5)))); Score(c, q) == if sum < 1.0 then sum else 1.0
  {
    ShareIs(c.velocity, false, q.payouts24h as real, s0);
    ShareIs(c.amountThreshold, false, q.amount, s1);
    ShareIs(c.dailyVolume, false, q.volume24h + q.amount, s2);
    ShareIs(c.failedHistory, false, q.failed7d as real, s3);
    ShareIs(c.newAccount, true, q.ageDays as real, s4);
    ShareIs(c.disputeRate, false, q.disputes as real, s5);
    SumIs(Probes(c, q), s0, s1, s2, s3, s4, s5);
  }

  lemma SumIs(ps: seq<Probe>, s0: real, s1: real, s2: real, s3: real, s4: real, s5: real)
    requires |ps| == 6
    requires s0 == Share(ps[0]) && s1 == Share(ps[1]) && s2 == Share(ps[2])
    requires s3 == Share(ps[3]) && s4 == Share(ps[4]) && s5 == Share(ps[5])
    ensures Weighted(ps) == s0 + (s1 + (s2 + (s3 + (s4 + s5))))
  {
    SixAdd(ps);
  }

  lemma SixAdd(ps: seq<Probe>)
    requires |ps| == 6
    ensures Weighted(ps) == Share(ps[0])
        + (Share(ps[1]) + (Share(ps[2]) + (Share(ps[3]) + (Share(ps[4]) + Share(ps[5])))))
  {
    Tail(ps, 0);
    Tail(ps, 1);
    Tail(ps, 2);
    Tail(ps, 3);
    Tail(ps, 4);
    Tail(ps, 5);
    assert ps[0..] == ps && ps[6..] == [];
  }

  lemma Tail(ps: seq<Probe>, i: nat)
    requires i < |ps|
    ensures Weighted(ps[i..]) == Share(ps[i]) + Weighted(ps[i + 1..])
  {
    assert ps[i..][1..] == ps[i + 1..];
  }

  /** Every rule has such a share. */
  lemma ShareExists(rule: Rule, below: bool, x: real) returns (share: real)
    requires RuleOk(rule, below)
    ensures IsShare(rule, below, x, share)
  {
    var b := BestExists(rule.tiers, below, x);
    share := rule.weight * b;
  }

  lemma BestExists(tiers: seq<Tier>, below: bool, x: real) returns (b: real)
    requires Strictest(tiers, below)
    ensures IsBest(tiers, below, x, b)
  {
    FirstIsBest(tiers, below, x);
    b := Check(tiers, below, x).score;
  }

  /** Rounding to hundredths moves by at most a half, and a tie goes to the even one. */
  lemma RoundsToNearest(x: real)
    ensures -0.5 <= Hundredths(x) as real - x * 100.0 <= 0.5
    ensures Hundredths(x) as real - x * 100.0 == 0.5 || Hundredths(x) as real - x * 100.0 == -0.5 ==>
        Hundredths(x) % 2 == 0
  {
  }

  /**
   The decision on the rounded score: BLOCK from one boundary on, REVIEW from the
   other up to it, ALLOW below both.
   */
  lemma DecisionIs(c: Config, q: Request)
    requires c.allowBelow <= c.blockAbove
    ensures var s := Hundredths(Score(c, q)) as real / 100.0;
      && (Decide(c, q) == BLOCK <==> s >= c.blockAbove)
      && (Decide(c, q) == REVIEW <==> c.allowBelow <= s < c.blockAbove)
      && (Decide(c, q) == ALLOW <==> s < c.allowBelow)
  {
  }

  /** The rules listed as triggered are those with a tier that applies to their own value. */
  lemma {:induction false} TriggeredAre(ps: seq<Probe>, o: Outcome)
    requires ProbesOk(ps)
    ensures o in Triggered(ps) <==>
      exists i :: 0 <= i < |ps| && o == Evaluate(ps[i])
        && exists t :: 0 <= t < |ps[i].rule.tiers| && Reached(ps[i].rule.tiers[t].threshold, ps[i].below, ps[i].value)
  {
    if ps != [] {
      TriggeredAre(ps[1..], o);
      var p := ps[0];
      FirstIsBest(p.rule.tiers, p.below, p.value);
      assert forall i :: 0 <= i < |ps[1..]| ==> ps[1..][i] == ps[i + 1];
      assert forall i :: 0 < i < |ps| ==> ps[i] == ps[1..][i - 1];
    }
  }
}
