/** Retrieval of similar cases by signal overlap. Similarities are in ten-thousandths, rounded half to even. */
module CaseStore {
  import opened Wrappers
  import opened Text
  import opened Signals
  import opened Sorting

  datatype Case = Case(caseId: string, verdict: string, riskLevel: string, summary: string, signals: seq<string>,
      actions: seq<string>)

  datatype Query = Query(fraudDecision: Option<string>, fraudScore: Option<real>, findings: seq<string>, limit: int)

  datatype Hit = Hit(of: Case, similarity: nat, matched: seq<string>)

  const SIMILAR_CASES_MAX_LIMIT := 5

  // ---- The query's signals ----

  function RiskBucket(score: Option<real>): set<string> {
    if score.None? then {}
    else if score.value >= 0.85 then {"risk:critical"}
    else if score.value >= 0.7 then {"risk:high"}
    else if score.value >= 0.3 then {"risk:medium"}
    else {"risk:low"}
  }

  function DecisionSignal(decision: Option<string>): set<string> {
    if decision.Some? && decision.value != "" then {"decision:" + Upper(Strip(decision.value))} else {}
  }

  /** A finding is a signal already when it has a colon, and names a rule otherwise; a blank one is none. */
  function FindingSignal(finding: string): set<string> {
    var n := Underscored(Norm(finding));
    if n == "" then {} else if ':' in n then {n} else {"rule:" + n}
  }

  function FindingSignals(findings: seq<string>): set<string> {
    if findings == [] then {}
    else FindingSignals(findings[..|findings| - 1]) + FindingSignal(findings[|findings| - 1])
  }

  function QuerySignals(q: Query): set<string> {
    DecisionSignal(q.fraudDecision) + RiskBucket(q.fraudScore) + FindingSignals(q.findings)
  }

  method AddFindings(start: set<string>, findings: seq<string>) returns (signals: set<string>)
    ensures signals == start + FindingSignals(findings)
  {
    signals := start;
    for i := 0 to |findings|
      invariant signals == start + FindingSignals(findings[..i])
    {
      assert findings[..i + 1][..i] == findings[..i];
      signals := signals + FindingSignal(findings[i]);
    }
    assert findings[..|findings|] == findings;
  }

  method BuildQuerySignals(q: Query) returns (signals: set<string>)
    ensures signals == QuerySignals(q)
  {
    signals := AddFindings(DecisionSignal(q.fraudDecision) + RiskBucket(q.fraudScore), q.findings);
  }

  /** Which scores fall into which bucket. */
  lemma BucketsAre(score: real)
    ensures RiskBucket(None) == {}
    ensures "risk:critical" in RiskBucket(Some(score)) <==> score >= 0.85
    ensures "risk:high" in RiskBucket(Some(score)) <==> 0.7 <= score < 0.85
    ensures "risk:medium" in RiskBucket(Some(score)) <==> 0.3 <= score < 0.7
    ensures "risk:low" in RiskBucket(Some(score)) <==> score < 0.3
    ensures |RiskBucket(Some(score))| == 1
  {
    DifferentNames();
  }

  lemma DifferentNames()
    ensures "risk:critical" != "risk:high" && "risk:critical" != "risk:medium" && "risk:critical" != "risk:low"
    ensures "risk:high" != "risk:medium" && "risk:high" != "risk:low" && "risk:medium" != "risk:low"
  {
    assert "risk:critical"[5] == 'c' && "risk:high"[5] == 'h' && "risk:medium"[5] == 'm' && "risk:low"[5] == 'l';
  }

  lemma {:induction false} FindingSignalsAre(findings: seq<string>, x: string)
    ensures x in FindingSignals(findings) <==> exists i :: 0 <= i < |findings| && x in FindingSignal(findings[i])
  {
    if findings != [] {
      var n := |findings| - 1;
      FindingSignalsAre(findings[..n], x);
      LastOrFront(findings, x);
    }
  }

  lemma LastOrFront(findings: seq<string>, x: string)
    requires findings != []
    ensures var n := |findings| - 1;
      (exists i :: 0 <= i < |findings| && x in FindingSignal(findings[i])) <==>
      x in FindingSignal(findings[n]) || exists i :: 0 <= i < n && x in FindingSignal(findings[..n][i])
  {
    var n := |findings| - 1;
    if i :| 0 <= i < |findings| && x in FindingSignal(findings[i]) {
      assert i == n || findings[..n][i] == findings[i];
    }
    if i :| 0 <= i < n && x in FindingSignal(findings[..n][i]) {
      assert findings[..n][i] == findings[i];
    }
  }

  /** The signal a finding stands for: itself when it has a colon, a rule's name otherwise, nothing when blank. */
  predicate StandsFor(finding: string, x: string) {
    var n := Underscored(Lower(Strip(finding)));
    n != "" && x == if ':' in n then n else "rule:" + n
  }

  /** The query's signals: its decision in upper case, its bucket, and what its findings stand for. */
  lemma QuerySignalsAre(q: Query, x: string)
    ensures x in QuerySignals(q) <==>
      || (q.fraudDecision.Some? && q.fraudDecision.value != ""
          && x == "decision:" + Upper(Strip(q.fraudDecision.value)))
      || (q.fraudScore.Some? && x in RiskBucket(q.fraudScore))
      || exists i :: 0 <= i < |q.findings| && StandsFor(q.findings[i], x)
  {
    FindingSignalsAre(q.findings, x);
    forall i | 0 <= i < |q.findings| ensures StandsFor(q.findings[i], x) <==> x in FindingSignal(q.findings[i]) {
      SignalStandsFor(q.findings[i], x);
    }
  }

  lemma SignalStandsFor(finding: string, x: string)
    ensures StandsFor(finding, x) <==> x in FindingSignal(finding)
  {
  }

  // ---- Scoring one case ----

  function RoundHalfEven(n: nat, d: nat): nat
    requires d > 0
  {
    var q, r := n / d, n % d;
    if 2 * r < d || (2 * r == d && q % 2 == 0) then q else q + 1
  }

  lemma MulGap(a: nat, b: nat, d: nat)
    ensures a < b ==> a * d + d <= b * d
  {
    if a < b {
      var e := b - a - 1;
      assert e * d >= 0;
      assert (a + 1 + e) * d == a * d + d + e * d;
    }
  }

  /** Rounding n/d stays below any whole number n/d stays below, and moves by at most a half. */
  lemma RoundBounds(n: nat, d: nat, top: nat)
    requires d > 0 && n <= top * d
    ensures RoundHalfEven(n, d) <= top
    ensures -(d as int) <= 2 * (RoundHalfEven(n, d) * d - n) <= d
  {
    var q, r := n / d, n % d;
    assert n == q * d + r;
    MulGap(top, q, d);
    assert (q + 1) * d == q * d + d;
  }

  function Shared(query: set<string>, c: Case): set<string> {
    query * Elements(c.signals)
  }

  predicate Matches(query: set<string>, c: Case) {
    Shared(query, c) != {}
  }

  function Similarity(query: set<string>, c: Case): nat
    requires Matches(query, c)
  {
    var all := query + Elements(c.signals);
    assert Shared(query, c) <= all;
    assert all != {};
    RoundHalfEven(10000 * |Shared(query, c)|, |all|)
  }

  lemma {:induction false} SubsetSize(a: set<string>, b: set<string>)
    requires a <= b
    ensures |a| <= |b|
  {
    if a != {} {
      var x :| x in a;
      SubsetSize(a - {x}, b - {x});
    }
  }

  lemma RoundWhole(k: nat, d: nat)
    requires d > 0
    ensures RoundHalfEven(k * d, d) == k
  {
    var n := k * d;
    var q, r := n / d, n % d;
    assert n == q * d + r;
    MulGap(k, q, d);
    MulGap(q, k, d);
  }

  lemma SimilarityInUnit(query: set<string>, c: Case)
    requires Matches(query, c)
    ensures 0 <= Similarity(query, c) <= 10000
    ensures Elements(c.signals) == query ==> Similarity(query, c) == 10000
  {
    var all := query + Elements(c.signals);
    var shared := Shared(query, c);
    SubsetSize(shared, all);
    assert all != {};
    RoundBounds(10000 * |shared|, |all|, 10000);
    if Elements(c.signals) == query {
      assert shared == all;
      RoundWhole(10000, |all|);
    }
  }

  /**
   The similarity is 10000 times the shared signals over all signals of the two
   together, to the nearest whole number, a tie going to the even one.
   */
  lemma SimilarityIs(query: set<string>, c: Case)
    requires Matches(query, c)
    ensures var shared, all, s := |query * Elements(c.signals)|, |query + Elements(c.signals)|, Similarity(query, c);
      && -(all as int) <= 2 * (s * all - 10000 * shared) <= all
      && (2 * (s * all - 10000 * shared) == all || 2 * (s * all - 10000 * shared) == -(all as int) ==> s % 2 == 0)
  {
    var shared, all := |query * Elements(c.signals)|, |query + Elements(c.signals)|;
    SubsetSize(Shared(query, c), query + Elements(c.signals));
    assert query + Elements(c.signals) != {};
    RoundBounds(10000 * shared, all, 10000);
    TiesToEven(10000 * shared, all);
  }

  lemma TiesToEven(n: nat, d: nat)
    requires d > 0
    ensures var r := RoundHalfEven(n, d);
      2 * (r * d - n) == d || 2 * (r * d - n) == -(d as int) ==> r % 2 == 0
  {
    var q, rest := n / d, n % d;
    assert n == q * d + rest;
    assert (q + 1) * d == q * d + d;
  }

  /** The list of a set in ascending order. */
  ghost function Listing(s: set<string>): seq<string> {
    if s == {} then [] else
      var x :| x in s;
      Place(x, Listing(s - {x}))
  }

  lemma {:induction false} ListingHolds(s: set<string>)
    ensures Ascending(Listing(s)) && Elements(Listing(s)) == s
  {
    if s != {} {
      var x :| x in s && Listing(s) == Place(x, Listing(s - {x}));
      ListingHolds(s - {x});
      PlaceAdds(x, Listing(s - {x}));
      PlaceAscends(x, Listing(s - {x}));
    }
  }

  ghost function HitOf(query: set<string>, c: Case): Hit
    requires Matches(query, c)
  {
    Hit(c, Similarity(query, c), Listing(Shared(query, c)))
  }

  // ---- The whole corpus ----

  ghost function Hits(query: set<string>, corpus: seq<Case>): seq<Hit> {
    if corpus == [] then []
    else
      var c := corpus[|corpus| - 1];
      Hits(query, corpus[..|corpus| - 1]) + if Matches(query, c) then [HitOf(query, c)] else []
  }

  predicate HitLeq(a: Hit, b: Hit) {
    a.similarity > b.similarity || (a.similarity == b.similarity && Leq(a.of.caseId, b.of.caseId))
  }

  function Take(limit: int, hits: seq<Hit>): seq<Hit> {
    if limit <= 0 then [] else if limit < |hits| then hits[..limit] else hits
  }

  ghost function Answer(query: set<string>, corpus: seq<Case>, limit: int): seq<Hit> {
    Take(limit, Sort(HitLeq, Hits(query, corpus)))
  }

  method Listed(s: set<string>) returns (r: seq<string>)
    ensures r == Listing(s)
  {
    r := [];
    var rest := s;
    while rest != {}
      invariant rest <= s && Ascending(r) && Elements(r) == s - rest
      decreases rest
    {
      var x :| x in rest;
      PlaceAdds(x, r);
      PlaceAscends(x, r);
      r := Place(x, r);
      rest := rest - {x};
    }
    ListingHolds(s);
    AscendingUnique(r, Listing(s));
  }

  method Search(corpus: seq<Case>, q: Query) returns (cases: seq<Hit>, count: nat)
    ensures cases == Answer(QuerySignals(q), corpus, q.limit) && count == |cases|
  {
    var query := BuildQuerySignals(q);
    if query == {} {
      NothingMatchesNothing(corpus);
      return [], 0;
    }
    var ranked: seq<Hit> := [];
    for i := 0 to |corpus|
      invariant ranked == Hits(query, corpus[..i])
    {
      var c := corpus[i];
      assert corpus[..i + 1][..i] == corpus[..i];
      var signals := Elements(c.signals);
      if query * signals != {} {
        var matched := Listed(query * signals);
        ranked := ranked + [Hit(c, Similarity(query, c), matched)];
      }
    }
    assert corpus[..|corpus|] == corpus;
    ranked := Sort(HitLeq, ranked);
    cases := Take(q.limit, ranked);
    count := |cases|;
  }

  /** The agent's tool never asks for more than five. */
  method FindSimilarCases(corpus: seq<Case>, q: Query) returns (cases: seq<Hit>, count: nat)
    ensures count == |cases| <= SIMILAR_CASES_MAX_LIMIT
    ensures cases ==
        Answer(QuerySignals(q), corpus, if q.limit < SIMILAR_CASES_MAX_LIMIT then q.limit else SIMILAR_CASES_MAX_LIMIT)
  {
    var bounded := if q.limit < SIMILAR_CASES_MAX_LIMIT then q.limit else SIMILAR_CASES_MAX_LIMIT;
    var capped := q.(limit := if bounded < 0 then 0 else bounded);
    cases, count := Search(corpus, capped);
    TakeCapped(bounded, Sort(HitLeq, Hits(QuerySignals(q), corpus)));
  }

  lemma TakeCapped(limit: int, hits: seq<Hit>)
    ensures Take(limit, hits) == Take(if limit < 0 then 0 else limit, hits)
    ensures |Take(limit, hits)| <= if limit < 0 then 0 else limit
  {
  }

  lemma {:induction false} NothingMatchesNothing(corpus: seq<Case>)
    ensures Hits({}, corpus) == []
  {
    if corpus != [] {
      NothingMatchesNothing(corpus[..|corpus| - 1]);
    }
  }

  // ---- What the answer is ----

  lemma {:induction false} HitsAre(query: set<string>, corpus: seq<Case>, h: Hit)
    ensures h in Hits(query, corpus) <==> h.of in corpus && Matches(query, h.of) && h == HitOf(query, h.of)
  {
    if corpus != [] {
      var n := |corpus| - 1;
      HitsAre(query, corpus[..n], h);
      assert corpus == corpus[..n] + [corpus[n]];
      assert h.of in corpus <==> h.of in corpus[..n] || h.of == corpus[n];
    }
  }

  lemma HitOrder()
    ensures TotalPreorder(HitLeq)
  {
    forall a, b ensures HitLeq(a, b) || HitLeq(b, a) {
      LeqTotal(a.of.caseId, b.of.caseId);
    }
    forall a, b, c | HitLeq(a, b) && HitLeq(b, c) ensures HitLeq(a, c) {
      if Leq(a.of.caseId, b.of.caseId) && Leq(b.of.caseId, c.of.caseId) {
        LeqTransitive(a.of.caseId, b.of.caseId, c.of.caseId);
      }
    }
  }

  ghost predicate Omitted(query: set<string>, corpus: seq<Case>, r: seq<Hit>, c: Case) {
    c in corpus && Matches(query, c) && HitOf(query, c) !in r
  }

  lemma AllRanked(query: set<string>, corpus: seq<Case>, h: Hit)
    ensures h in Sort(HitLeq, Hits(query, corpus)) <==>
        h.of in corpus && Matches(query, h.of) && h == HitOf(query, h.of)
  {
    SameElements(Hits(query, corpus), Sort(HitLeq, Hits(query, corpus)));
    HitsAre(query, corpus, h);
  }

  /** What is left out of the first `limit` of a sorted list ranks no higher than what is in. */
  lemma TakeIsTop(limit: int, all: seq<Hit>, g: Hit)
    requires Sorted(HitLeq, all) && g in all && g !in Take(limit, all)
    ensures |Take(limit, all)| == if limit < 0 then 0 else limit
    ensures forall h :: h in Take(limit, all) ==> HitLeq(h, g)
  {
  }

  /**
   The answer holds matching cases only, in rank order, and an omitted match means
   the limit is used up by cases that rank no lower.
   */
  lemma TopK(query: set<string>, corpus: seq<Case>, limit: int)
    ensures var r := Answer(query, corpus, limit);
      && Sorted(HitLeq, r)
      && (forall h :: h in r ==> h.of in corpus && Matches(query, h.of) && h == HitOf(query, h.of))
      && (forall c :: Omitted(query, corpus, r, c) ==>
            |r| == (if limit < 0 then 0 else limit) && forall h :: h in r ==> HitLeq(h, HitOf(query, c)))
  {
    var all := Sort(HitLeq, Hits(query, corpus));
    var r := Answer(query, corpus, limit);
    HitOrder();
    SortSorts(HitLeq, Hits(query, corpus));
    forall h | h in r ensures h.of in corpus && Matches(query, h.of) && h == HitOf(query, h.of) {
      assert h in all;
      AllRanked(query, corpus, h);
    }
    forall c | Omitted(query, corpus, r, c)
      ensures |r| == (if limit < 0 then 0 else limit) && forall h :: h in r ==> HitLeq(h, HitOf(query, c))
    {
      AllRanked(query, corpus, HitOf(query, c));
      TakeIsTop(limit, all, HitOf(query, c));
    }
  }

  /** A hit ranks before another when more similar, or equally similar with a smaller case id. */
  lemma RankIs(a: Hit, b: Hit)
    ensures HitLeq(a, b) <==>
            b.similarity < a.similarity
                || (a.similarity == b.similarity && (a.of.caseId == b.of.caseId || Less(a.of.caseId, b.of.caseId)))
  {
    LeqReflexive(a.of.caseId);
  }

  /** A hit is its case with the similarity and the ascending list of the shared signals. */
  lemma HitIs(query: set<string>, c: Case)
    requires Matches(query, c)
    ensures var h := HitOf(query, c);
      h.of == c && h.similarity == Similarity(query, c) && Ascending(h.matched)
          && Elements(h.matched) == query * Elements(c.signals)
    ensures Matches(query, c) <==> exists x :: x in query && x in c.signals
  {
    ListingHolds(Shared(query, c));
    var x :| x in Shared(query, c);
  }

  predicate DistinctIds(corpus: seq<Case>) {
    forall i, j :: 0 <= i < j < |corpus| ==> corpus[i].caseId != corpus[j].caseId
  }

  lemma {:induction false} HitsDistinct(query: set<string>, corpus: seq<Case>)
    requires DistinctIds(corpus)
    ensures Distinct(Hits(query, corpus))
    ensures forall x, y :: x in Hits(query, corpus) && y in Hits(query, corpus) && x.of.caseId == y.of.caseId ==> x == y
  {
    if corpus != [] {
      var n := |corpus| - 1;
      HitsDistinct(query, corpus[..n]);
      forall h | h in Hits(query, corpus[..n]) ensures h.of in corpus[..n] && h.of.caseId != corpus[n].caseId {
        HitsAre(query, corpus[..n], h);
        var i :| 0 <= i < n && corpus[..n][i] == h.of;
        assert corpus[i].caseId != corpus[n].caseId;
      }
    }
  }

  /** With distinct case ids the answer does not depend on the order of the corpus. */
  lemma CorpusOrderIrrelevant(query: set<string>, a: seq<Case>, b: seq<Case>, limit: int)
    requires DistinctIds(a) && DistinctIds(b) && forall c :: c in a <==> c in b
    ensures Answer(query, a, limit) == Answer(query, b, limit)
  {
    var ha, hb := Hits(query, a), Hits(query, b);
    HitsDistinct(query, a);
    HitsDistinct(query, b);
    forall h ensures h in ha <==> h in hb {
      HitsAre(query, a, h);
      HitsAre(query, b, h);
    }
    SameMultiset(ha, hb);
    var sa, sb := Sort(HitLeq, ha), Sort(HitLeq, hb);
    HitOrder();
    SortSorts(HitLeq, ha);
    SortSorts(HitLeq, hb);
    SameElements(ha, sa);
    forall x, y | x in sa && y in sa && HitLeq(x, y) && HitLeq(y, x) ensures x == y {
      LeqAntisymmetric(x.of.caseId, y.of.caseId);
    }
    SortedUnique(HitLeq, sa, sb);
  }
}
