/**
 A stored investigation run projected to signals twice: by the indexer, for the
 JSON corpus, and by the backfill, for the Case table.  A payload field may be
 missing, null or a value; a stored column may be null, malformed or parsed.
 */
module RunProjection {
  import opened Wrappers
  import opened Text
  import opened NullText
  import opened Signals
  import opened CaseStore

  datatype Field<+T> = Missing | Null | Present(value: T)

  datatype Column<+T> = Empty | Malformed | Parsed(value: T)

  /** A tool call's arguments; null and empty mean the same to both projections. */
  datatype Call = Call(decision: Option<string>, score: Option<real>, findings: seq<string>)

  datatype Evidence = Evidence(source: Field<string>, fact: Field<string>, significance: Field<string>) | NotAnObject

  /** The entries of a list may be null too. */
  datatype Payload = Payload(
    summary: Field<string>, keyFindings: Field<seq<Option<string>>>, actions: Field<seq<Option<string>>>,
    evidence: Field<seq<Evidence>>, riskLevel: Field<string>)

  /** A keyword that may occur in the text, and the signal it stands for. */
  datatype Keyword = Keyword(text: string, signal: string)

  datatype Run = Run(riskLevel: Option<string>, payload: Column<Payload>, calls: Column<seq<Call>>)

  const NO_PAYLOAD := Payload(Missing, Missing, Missing, Missing, Missing)

  /** What a null column, and for the backfill a malformed one, is read as. */
  function PayloadOf(run: Run): Payload {
    if run.payload.Parsed? then run.payload.value else NO_PAYLOAD
  }

  function CallsOf(run: Run): seq<Call> {
    if run.calls.Parsed? then run.calls.value else []
  }

  function OrEmpty(s: Option<string>): string {
    if s.Some? then s.value else ""
  }

  /** The run's own level, else the payload's, else MEDIUM; empty counts as absent. */
  function RiskLevel(run: Run): string {
    var own, theirs := OrEmpty(run.riskLevel), PayloadOf(run).riskLevel;
    Upper(if own != "" then own else if theirs.Present? && theirs.value != "" then theirs.value else "MEDIUM")
  }

  /** str(x) of a list entry. */
  function EntryText(entry: Option<string>): string {
    if entry.Some? then entry.value else "None"
  }

  /** A text field, with what the projection makes of a null. */
  function FieldText(f: Field<string>, null_: string): string {
    match f
    case Missing => ""
    case Null => null_
    case Present(s) => s
  }

  function ListOf<T>(f: Field<seq<T>>): seq<T> {
    if f.Present? then f.value else []
  }

  // ---- What a projection must yield ----

  function CallSignals(calls: seq<Call>): set<string> {
    if calls == [] then {}
    else
      var c := calls[|calls| - 1];
      CallSignals(calls[..|calls| - 1])
      + (DecisionSignal(c.decision) + RiskBucket(c.score) + FindingSignals(c.findings))
  }

  function EntryTexts(entries: seq<Option<string>>): seq<string> {
    if entries == [] then []
    else EntryTexts(entries[..|entries| - 1]) + [EntryText(entries[|entries| - 1])]
  }

  function EvidenceParts(evidence: seq<Evidence>, null_: string): seq<string> {
    if evidence == [] then []
    else
      var e := evidence[|evidence| - 1];
      EvidenceParts(evidence[..|evidence| - 1], null_)
      + if e.NotAnObject? then []
        else [FieldText(e.source, null_), FieldText(e.fact, null_), FieldText(e.significance, null_)]
  }

  function Parts(p: Payload, null_: string): seq<string> {
    [FieldText(p.summary, null_)] + EntryTexts(ListOf(p.keyFindings)) + EntryTexts(ListOf(p.actions))
    + EvidenceParts(ListOf(p.evidence), null_)
  }

  function Spaced(parts: seq<string>): string {
    if |parts| == 0 then "" else if |parts| == 1 then parts[0] else parts[0] + " " + Spaced(parts[1..])
  }

  function Blob(parts: seq<string>): string {
    Underscored(Lower(Spaced(parts)))
  }

  function KeywordSignals(keywords: seq<Keyword>, blob: string): set<string> {
    if keywords == [] then {}
    else
      var k := keywords[|keywords| - 1];
      KeywordSignals(keywords[..|keywords| - 1], blob) + if Occurs(k.text, blob) then {k.signal} else {}
  }

  function RunSignals(run: Run, keywords: seq<Keyword>, null_: string): set<string> {
    CallSignals(CallsOf(run)) + {"risk:" + Lower(RiskLevel(run))}
    + KeywordSignals(keywords, Blob(Parts(PayloadOf(run), null_)))
  }

  // ---- The indexer ----

  datatype Raised = JsonError | NotIterable

  /** A malformed column, or a list that is null: json.loads or the unpacking raises. */
  predicate IndexerRaises(run: Run) {
    var p := PayloadOf(run);
    run.payload.Malformed? || run.calls.Malformed? || p.keyFindings.Null? || p.actions.Null? || p.evidence.Null?
  }

  method IndexerCalls(calls: seq<Call>) returns (signals: set<string>)
    ensures signals == CallSignals(calls)
  {
    signals := {};
    for i := 0 to |calls|
      invariant signals == CallSignals(calls[..i])
    {
      assert calls[..i + 1][..i] == calls[..i];
      var c := calls[i];
      var more := AddFindings(DecisionSignal(c.decision) + RiskBucket(c.score), c.findings);
      signals := signals + more;
    }
    assert calls[..|calls|] == calls;
  }

  method IndexerParts(p: Payload) returns (r: Result<seq<string>, Raised>)
    ensures r.Err? <==> p.keyFindings.Null? || p.actions.Null? || p.evidence.Null?
    ensures r.Ok? ==> r.value == Parts(p, "None")
  {
    if p.keyFindings.Null? || p.actions.Null? {
      return Err(NotIterable);
    }
    var parts := [FieldText(p.summary, "None")] + EntryTexts(ListOf(p.keyFindings)) + EntryTexts(ListOf(p.actions));
    if p.evidence.Null? {
      return Err(NotIterable);
    }
    var evidence := ListOf(p.evidence);
    ghost var start := parts;
    for i := 0 to |evidence|
      invariant parts == start + EvidenceParts(evidence[..i], "None")
    {
      assert evidence[..i + 1][..i] == evidence[..i];
      var e := evidence[i];
      if e.Evidence? {
        parts := parts + [FieldText(e.source, "None"), FieldText(e.fact, "None"), FieldText(e.significance, "None")];
      }
    }
    assert evidence[..|evidence|] == evidence;
    return Ok(parts);
  }

  method AddKeywords(start: set<string>, keywords: seq<Keyword>, blob: string) returns (signals: set<string>)
    ensures signals == start + KeywordSignals(keywords, blob)
  {
    signals := start;
    for i := 0 to |keywords|
      invariant signals == start + KeywordSignals(keywords[..i], blob)
    {
      assert keywords[..i + 1][..i] == keywords[..i];
      if Occurs(keywords[i].text, blob) {
        signals := signals + {keywords[i].signal};
      }
    }
    assert keywords[..|keywords|] == keywords;
  }

  ghost predicate Indexed(run: Run, keywords: seq<Keyword>, signals: seq<string>) {
    Ascending(signals) && Elements(signals) == RunSignals(run, keywords, "None")
  }

  /** build_case_from_run: the signals sorted as they are. */
  method IndexerSignals(run: Run, keywords: seq<Keyword>) returns (r: Result<seq<string>, Raised>)
    ensures r.Err? <==> IndexerRaises(run)
    ensures r.Ok? ==> Indexed(run, keywords, r.value)
  {
    if run.payload.Malformed? || run.calls.Malformed? {
      return Err(JsonError);
    }
    var signals := IndexerCalls(CallsOf(run));
    signals := signals + {"risk:" + Lower(RiskLevel(run))};
    var parts := IndexerParts(PayloadOf(run));
    if parts.Err? {
      return Err(parts.error);
    }
    signals := AddKeywords(signals, keywords, Blob(parts.value));
    var listed := Listed(signals);
    ListingHolds(signals);
    return Ok(listed);
  }

  // ---- The backfill ----

  method BackfillFindings(start: set<string>, findings: seq<string>) returns (signals: set<string>)
    ensures signals == start + FindingSignals(findings)
  {
    signals := start;
    for j := 0 to |findings|
      invariant signals == start + FindingSignals(findings[..j])
    {
      assert findings[..j + 1][..j] == findings[..j];
      signals := signals + FindingSignal(findings[j]);
    }
    assert findings[..|findings|] == findings;
  }

  lemma UnionsRegroup(start: set<string>, a: set<string>, b: set<string>, c: set<string>)
    ensures start + a + b + c == start + (a + b + c)
  {
  }

  method BackfillCall(start: set<string>, c: Call) returns (signals: set<string>)
    ensures signals == start + (DecisionSignal(c.decision) + RiskBucket(c.score) + FindingSignals(c.findings))
  {
    var decision, risk := DecisionSignal(c.decision), RiskBucket(c.score);
    signals := BackfillFindings(start + decision + risk, c.findings);
    UnionsRegroup(start, decision, risk, FindingSignals(c.findings));
  }

  /** One set filled in place, call after call and finding after finding. */
  method BackfillCalls(calls: seq<Call>) returns (signals: set<string>)
    ensures signals == CallSignals(calls)
  {
    signals := {};
    for i := 0 to |calls|
      invariant signals == CallSignals(calls[..i])
    {
      assert calls[..i + 1][..i] == calls[..i];
      signals := BackfillCall(signals, calls[i]);
    }
    assert calls[..|calls|] == calls;
  }

  method AddEntries(start: seq<string>, entries: seq<Option<string>>) returns (parts: seq<string>)
    ensures parts == start + EntryTexts(entries)
  {
    parts := start;
    for i := 0 to |entries|
      invariant parts == start + EntryTexts(entries[..i])
    {
      assert entries[..i + 1][..i] == entries[..i];
      parts := parts + [EntryText(entries[i])];
    }
    assert entries[..|entries|] == entries;
  }

  /** Every missing or null field or list is empty here. */
  method BackfillParts(p: Payload) returns (parts: seq<string>)
    ensures parts == Parts(p, "")
  {
    parts := [FieldText(p.summary, "")];
    parts := AddEntries(parts, ListOf(p.keyFindings));
    parts := AddEntries(parts, ListOf(p.actions));
    var evidence := ListOf(p.evidence);
    ghost var start := parts;
    for i := 0 to |evidence|
      invariant parts == start + EvidenceParts(evidence[..i], "")
    {
      assert evidence[..i + 1][..i] == evidence[..i];
      var e := evidence[i];
      if e.Evidence? {
        parts := parts + [FieldText(e.source, ""), FieldText(e.fact, ""), FieldText(e.significance, "")];
      }
    }
    assert evidence[..|evidence|] == evidence;
  }

  /** list(signals): the elements in whatever order the set yields them. */
  method AnyOrder(signals: set<string>) returns (xs: seq<string>)
    ensures Elements(xs) == signals
  {
    xs := [];
    var rest := signals;
    while rest != {}
      invariant rest <= signals && Elements(xs) == signals - rest
      decreases rest
    {
      var x :| x in rest;
      AddElement(xs, xs, x);
      xs := xs + [x];
      rest := rest - {x};
    }
  }

  ghost predicate Backfilled(run: Run, keywords: seq<Keyword>, signals: seq<string>) {
    exists xs :: Elements(xs) == RunSignals(run, keywords, "") && signals == Normalized(Somes(xs))
  }

  /** _run_to_row and _signals_from_run: never raises; the signals go through normalize_signals in set order. */
  method BackfillSignals(run: Run, keywords: seq<Keyword>) returns (signals: seq<string>)
    ensures Backfilled(run, keywords, signals)
  {
    var found := BackfillCalls(CallsOf(run));
    found := found + {"risk:" + Lower(RiskLevel(run))};
    var parts := BackfillParts(PayloadOf(run));
    found := AddKeywords(found, keywords, Blob(parts));
    var xs := AnyOrder(found);
    signals := NormalizeSignals(Somes(xs));
  }

  // ---- Agreement ----

  /** A part as it appears in the searched text. */
  function Folded(part: string): string {
    Underscored(Lower(part))
  }

  function FoldedAll(parts: seq<string>): (r: seq<string>)
    ensures |r| == |parts| && forall i :: 0 <= i < |parts| ==> r[i] == Folded(parts[i])
  {
    seq(|parts|, i requires 0 <= i < |parts| => Folded(parts[i]))
  }

  lemma FoldedConcat(a: string, b: string)
    ensures Folded(a + b) == Folded(a) + Folded(b)
  {
  }

  lemma FoldedSpace()
    ensures Folded(" ") == "_"
  {
  }

  /** The searched text is the folded parts joined by underscores. */
  lemma {:induction false} BlobIsJoined(parts: seq<string>)
    ensures Blob(parts) == Joined(FoldedAll(parts))
  {
    if |parts| >= 2 {
      BlobIsJoined(parts[1..]);
      FoldedConcat(parts[0] + " ", Spaced(parts[1..]));
      FoldedConcat(parts[0], " ");
      FoldedSpace();
      assert FoldedAll(parts)[1..] == FoldedAll(parts[1..]);
    } else if parts == [] {
      assert Folded("") == "";
    }
  }

  /** The two lists of parts differ in nulls only. */
  predicate PartsApart(ps: seq<string>, qs: seq<string>) {
    |ps| == |qs| && forall i :: 0 <= i < |ps| ==> ps[i] == qs[i] || (ps[i] == "None" && qs[i] == "")
  }

  lemma {:induction false} EvidenceApart(evidence: seq<Evidence>)
    ensures PartsApart(EvidenceParts(evidence, "None"), EvidenceParts(evidence, ""))
  {
    if evidence != [] {
      EvidenceApart(evidence[..|evidence| - 1]);
    }
  }

  lemma PartsOfRun(p: Payload)
    ensures PartsApart(Parts(p, "None"), Parts(p, ""))
  {
    EvidenceApart(ListOf(p.evidence));
  }

  lemma FoldedNone()
    ensures Folded("None") == NONE() && Folded("") == ""
  {
  }

  /** A keyword that null text cannot spell is found by both projections or by neither. */
  lemma SameKeyword(p: Payload, word: string)
    requires NullProof(word)
    ensures Occurs(word, Blob(Parts(p, "None"))) <==> Occurs(word, Blob(Parts(p, "")))
  {
    var ps, qs := Parts(p, "None"), Parts(p, "");
    PartsOfRun(p);
    FoldedNone();
    BlobIsJoined(ps);
    BlobIsJoined(qs);
    assert NullsApart(FoldedAll(ps), FoldedAll(qs));
    NullsDoNotMatter(word, [], FoldedAll(ps), FoldedAll(qs));
    assert [] + FoldedAll(ps) == FoldedAll(ps) && [] + FoldedAll(qs) == FoldedAll(qs);
  }

  predicate AllNullProof(keywords: seq<Keyword>) {
    forall i :: 0 <= i < |keywords| ==> NullProof(keywords[i].text)
  }

  lemma {:induction false} SameKeywords(keywords: seq<Keyword>, p: Payload)
    requires AllNullProof(keywords)
    ensures KeywordSignals(keywords, Blob(Parts(p, "None"))) == KeywordSignals(keywords, Blob(Parts(p, "")))
  {
    if keywords != [] {
      var n := |keywords| - 1;
      SameKeywords(keywords[..n], p);
      SameKeyword(p, keywords[n].text);
    }
  }

  lemma SomesHold(a: seq<string>, s: string)
    ensures Some(s) in Somes(a) <==> s in Elements(a)
  {
    if s in a {
      var i :| 0 <= i < |a| && a[i] == s;
      assert Somes(a)[i] == Some(s);
    }
  }

  lemma SameNormalized(a: seq<string>, b: seq<string>)
    requires Elements(a) == Elements(b)
    ensures Normalized(Somes(a)) == Normalized(Somes(b))
  {
    forall s ensures Some(s) in Somes(a) <==> Some(s) in Somes(b) {
      SomesHold(a, s);
      SomesHold(b, s);
    }
    NormalizedIff(Somes(a), Somes(b));
  }

  /**
   Where the indexer yields signals at all, normalizing them gives the backfill's,
   nulls included and whatever order the backfill's set is read in.
   */
  lemma ProjectionsAgree(run: Run, keywords: seq<Keyword>, indexed: seq<string>, backfilled: seq<string>)
    requires AllNullProof(keywords)
    requires Indexed(run, keywords, indexed) && Backfilled(run, keywords, backfilled)
    ensures Normalized(Somes(indexed)) == backfilled
  {
    SameKeywords(keywords, PayloadOf(run));
    var xs :| Elements(xs) == RunSignals(run, keywords, "") && backfilled == Normalized(Somes(xs));
    SameNormalized(indexed, xs);
  }

  // ---- What the signals are ----

  /** A call yields its decision in upper case, the bucket of its score, and what its findings stand for. */
  predicate YieldedBy(c: Call, x: string) {
    || (c.decision.Some? && c.decision.value != "" && x == "decision:" + Upper(Strip(c.decision.value)))
    || (c.score.Some? && x in RiskBucket(c.score))
    || exists i :: 0 <= i < |c.findings| && StandsFor(c.findings[i], x)
  }

  lemma CallYields(c: Call, x: string)
    ensures x in DecisionSignal(c.decision) + RiskBucket(c.score) + FindingSignals(c.findings) <==> YieldedBy(c, x)
  {
    QuerySignalsAre(Query(c.decision, c.score, c.findings, 0), x);
  }

  lemma {:induction false} CallSignalsAre(calls: seq<Call>, x: string)
    ensures x in CallSignals(calls) <==> exists i :: 0 <= i < |calls| && YieldedBy(calls[i], x)
  {
    if calls != [] {
      var n := |calls| - 1;
      CallSignalsAre(calls[..n], x);
      CallYields(calls[n], x);
      LastOrFrontCall(calls, x);
    }
  }

  lemma LastOrFrontCall(calls: seq<Call>, x: string)
    requires calls != []
    ensures var n := |calls| - 1;
      (exists i :: 0 <= i < |calls| && YieldedBy(calls[i], x)) <==>
      YieldedBy(calls[n], x) || exists i :: 0 <= i < n && YieldedBy(calls[..n][i], x)
  {
    var n := |calls| - 1;
    if i :| 0 <= i < |calls| && YieldedBy(calls[i], x) {
      assert i == n || calls[..n][i] == calls[i];
    }
    if i :| 0 <= i < n && YieldedBy(calls[..n][i], x) {
      assert calls[..n][i] == calls[i];
    }
  }

  lemma {:induction false} KeywordSignalsAre(keywords: seq<Keyword>, blob: string, x: string)
    ensures x in KeywordSignals(keywords, blob) <==>
            exists k :: k in keywords && x == k.signal && Occurs(k.text, blob)
  {
    if keywords != [] {
      var n := |keywords| - 1;
      KeywordSignalsAre(keywords[..n], blob, x);
      assert forall k :: k in keywords <==> k in keywords[..n] || k == keywords[n] by {
        assert keywords == keywords[..n] + [keywords[n]];
      }
    }
  }

  /** The text of a field: its value, nothing when missing, and the given text when null. */
  predicate IsFieldText(f: Field<string>, null_: string, x: string) {
    (f == Present(x)) || (f == Missing && x == "") || (f == Null && x == null_)
  }

  predicate IsEvidenceText(e: Evidence, null_: string, x: string) {
    e.Evidence? &&
    (IsFieldText(e.source, null_, x) || IsFieldText(e.fact, null_, x) || IsFieldText(e.significance, null_, x))
  }

  /** A null entry reads "None". */
  predicate IsEntryText(e: Option<string>, x: string) {
    e == Some(x) || (e == None && x == "None")
  }

  /** The text of a part of the payload that is searched for keywords. */
  predicate IsPart(p: Payload, null_: string, x: string) {
    || IsFieldText(p.summary, null_, x)
    || (p.keyFindings.Present? && exists e :: e in p.keyFindings.value && IsEntryText(e, x))
    || (p.actions.Present? && exists e :: e in p.actions.value && IsEntryText(e, x))
    || (p.evidence.Present? && exists e :: e in p.evidence.value && IsEvidenceText(e, null_, x))
  }

  lemma {:induction false} EntryTextsAre(entries: seq<Option<string>>, x: string)
    ensures x in EntryTexts(entries) <==> exists e :: e in entries && IsEntryText(e, x)
  {
    if entries != [] {
      var n := |entries| - 1;
      var e := entries[n];
      EntryTextsAre(entries[..n], x);
      assert forall y :: y in entries <==> y in entries[..n] || y == e by {
        assert entries == entries[..n] + [e];
      }
      LastEntry(entries, x);
    }
  }

  lemma LastEntry(entries: seq<Option<string>>, x: string)
    requires entries != []
    ensures var n := |entries| - 1; x in EntryTexts(entries) <==>
        x in EntryTexts(entries[..n]) || IsEntryText(entries[n], x)
  {
  }

  lemma {:induction false} EvidencePartsAre(evidence: seq<Evidence>, null_: string, x: string)
    ensures x in EvidenceParts(evidence, null_) <==> exists e :: e in evidence && IsEvidenceText(e, null_, x)
  {
    if evidence != [] {
      var n := |evidence| - 1;
      EvidencePartsAre(evidence[..n], null_, x);
      var e := evidence[n];
      assert forall y :: y in evidence <==> y in evidence[..n] || y == e by {
        assert evidence == evidence[..n] + [e];
      }
      LastEvidence(evidence, null_, x);
    }
  }

  lemma LastEvidence(evidence: seq<Evidence>, null_: string, x: string)
    requires evidence != []
    ensures var n := |evidence| - 1;
      x in EvidenceParts(evidence, null_) <==>
      x in EvidenceParts(evidence[..n], null_) || IsEvidenceText(evidence[n], null_, x)
  {
  }

  /**
   Summary, findings, recommended actions and the three texts of every piece of
   evidence: all of them, and no others.
   */
  lemma PartsAre(p: Payload, null_: string, x: string)
    ensures x in Parts(p, null_) <==> IsPart(p, null_, x)
  {
    EntryTextsAre(ListOf(p.keyFindings), x);
    EntryTextsAre(ListOf(p.actions), x);
    EvidencePartsAre(ListOf(p.evidence), null_, x);
  }

  /** The run's own level in upper case; the payload's when it has none, and MEDIUM when neither does. */
  lemma RiskLevelIs(run: Run)
    ensures run.riskLevel.Some? && run.riskLevel.value != "" ==> RiskLevel(run) == Upper(run.riskLevel.value)
    ensures (run.riskLevel.None? || run.riskLevel.value == "") && run.payload.Parsed?
            && run.payload.value.riskLevel.Present? && run.payload.value.riskLevel.value != "" ==>
              RiskLevel(run) == Upper(run.payload.value.riskLevel.value)
    ensures (run.riskLevel.None? || run.riskLevel.value == "") && !run.payload.Parsed? ==>
              RiskLevel(run) == Upper("MEDIUM")
  {
  }

  /** A run's signals: what its calls yield, its risk level, and the keywords found in the folded text of its parts. */
  lemma RunSignalsAre(run: Run, keywords: seq<Keyword>, null_: string, x: string)
    ensures x in RunSignals(run, keywords, null_) <==>
      || (run.calls.Parsed? && exists i :: 0 <= i < |run.calls.value| && YieldedBy(run.calls.value[i], x))
      || x == "risk:" + Lower(RiskLevel(run))
      || exists k :: k in keywords && x == k.signal
                     && Occurs(k.text, Joined(FoldedAll(Parts(PayloadOf(run), null_))))
  {
    CallSignalsAre(CallsOf(run), x);
    BlobIsJoined(Parts(PayloadOf(run), null_));
    KeywordSignalsAre(keywords, Blob(Parts(PayloadOf(run), null_)), x);
  }

  // ---- The repository's keywords ----

  function Texts(): seq<string> {
    RuleTexts() + LedgerTexts()
  }

  function RuleTexts(): seq<string> {
    ["amount_threshold", "velocity", "failed_history", "new_account", "dispute_rate"]
  }

  function LedgerTexts(): seq<string> {
    ["active_dispute", "ledger_imbalanced", "ledger_inconsistency", "insufficient_escrow", "seller_blocked"]
  }

  lemma RuleTextsAreNullProof()
    ensures forall i :: 0 <= i < |RuleTexts()| ==> NullProof(RuleTexts()[i])
  {
    assert NullProof("amount_threshold");
    assert NullProof("velocity");
    assert NullProof("failed_history");
    assert NullProof("new_account");
    assert NullProof("dispute_rate");
  }

  lemma LedgerTextsAreNullProof()
    ensures forall i :: 0 <= i < |LedgerTexts()| ==> NullProof(LedgerTexts()[i])
  {
    assert NullProof("active_dispute");
    assert NullProof("ledger_imbalanced");
    assert NullProof("ledger_inconsistency");
    assert NullProof("insufficient_escrow");
    assert NullProof("seller_blocked");
  }

  lemma BothHalves(a: seq<string>, b: seq<string>)
    requires forall i :: 0 <= i < |a| ==> NullProof(a[i])
    requires forall i :: 0 <= i < |b| ==> NullProof(b[i])
    ensures forall i :: 0 <= i < |a + b| ==> NullProof((a + b)[i])
  {
  }

  /** Every keyword both scripts look for is one that null text cannot spell. */
  lemma KeywordsAreNullProof()
    ensures forall i :: 0 <= i < |Texts()| ==> NullProof(Texts()[i])
  {
    RuleTextsAreNullProof();
    LedgerTextsAreNullProof();
    BothHalves(RuleTexts(), LedgerTexts());
  }
}
