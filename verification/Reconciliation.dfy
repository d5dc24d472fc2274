/** The payout audit: three queries, three loops, one report. */
module Reconciliation {
  import opened Wrappers
  import opened PayoutMachine
  import opened PayoutSafety
  import opened PayoutLink

  datatype Audited = Audited(id: nat, row: Row, sellerAmount: int)

  datatype Finding = Fine | Mismatch | Error

  datatype Line = Line(id: nat, finding: Finding)

  /** What retrieving a transfer from Stripe yields. */
  datatype Answer = Retrieved(amount: int, reversed: bool) | Threw

  datatype Summary = Summary(total: nat, ok: nat, mismatches: nat, errors: nat, orphaned: nat)

  /** The where clauses of the three queries. */
  datatype Query = PaidWithTransfer | FailedWithTransfer | PaidWithout

  predicate Matches(q: Query, r: Row) {
    match q
    case PaidWithTransfer => r.status.Paid? && r.transferId.Some?
    case FailedWithTransfer => r.status.Failed? && r.transferId.Some?
    case PaidWithout => r.status.Paid? && r.transferId.None?
  }

  function Where(q: Query, ps: seq<Audited>): (r: seq<Audited>)
    ensures forall i :: 0 <= i < |r| ==> Matches(q, r[i].row)
  {
    if ps == [] then []
    else (if Matches(q, ps[0].row) then [ps[0]] else []) + Where(q, ps[1..])
  }

  function Judge(q: Query, p: Audited, stripe: nat -> Answer): Finding
    requires Matches(q, p.row)
  {
    if q.PaidWithTransfer? then
      match stripe(p.row.transferId.value)
      case Threw => Error
      case Retrieved(amount, reversed) => if reversed || amount != p.sellerAmount then Mismatch else Fine
    else Mismatch
  }

  /**
   A PAID payout is an error when Stripe cannot be asked, and a mismatch when the
   transfer was reversed or differs.
   */
  lemma JudgementIs(q: Query, p: Audited, stripe: nat -> Answer)
    requires Matches(q, p.row)
    ensures q.PaidWithTransfer? ==> var a := stripe(p.row.transferId.value);
      && (Judge(q, p, stripe) == Error <==> a == Threw)
      && (Judge(q, p, stripe) == Fine <==> a == Retrieved(p.sellerAmount, false))
      && (Judge(q, p, stripe) == Mismatch <==> a.Retrieved? && (a.reversed || a.amount != p.sellerAmount))
    ensures !q.PaidWithTransfer? ==> Judge(q, p, stripe) == Mismatch
  {
  }

  function Lines(q: Query, ps: seq<Audited>, stripe: nat -> Answer): seq<Line>
    requires forall i :: 0 <= i < |ps| ==> Matches(q, ps[i].row)
  {
    if ps == [] then [] else [Line(ps[0].id, Judge(q, ps[0], stripe))] + Lines(q, ps[1..], stripe)
  }

  /** `t1`, `t2` and `t3` are the payout table as each query sees it; rows may change in between. */
  function Report(t1: seq<Audited>, t2: seq<Audited>, t3: seq<Audited>, stripe: nat -> Answer): seq<Line> {
    Lines(PaidWithTransfer, Where(PaidWithTransfer, t1), stripe)
    + Lines(FailedWithTransfer, Where(FailedWithTransfer, t2), stripe)
    + Lines(PaidWithout, Where(PaidWithout, t3), stripe)
  }

  function Count(f: Finding, lines: seq<Line>): nat {
    if lines == [] then 0 else (if lines[0].finding == f then 1 else 0) + Count(f, lines[1..])
  }

  /** How many lines name a payout. */
  function Hits(id: nat, lines: seq<Line>): nat {
    if lines == [] then 0 else (if lines[0].id == id then 1 else 0) + Hits(id, lines[1..])
  }

  lemma LinesNext(q: Query, ps: seq<Audited>, i: nat, results: seq<Line>, line: Line, stripe: nat -> Answer)
    requires i < |ps| && (forall k :: 0 <= k < |ps| ==> Matches(q, ps[k].row))
        && line == Line(ps[i].id, Judge(q, ps[i], stripe))
    ensures results + [line] + Lines(q, ps[i + 1..], stripe) == results + Lines(q, ps[i..], stripe)
  {
    assert ps[i..][1..] == ps[i + 1..];
    var rest := Lines(q, ps[i + 1..], stripe);
    assert results + ([line] + rest) == results + [line] + rest;
  }

  lemma {:induction false} LinesAre(q: Query, ps: seq<Audited>, stripe: nat -> Answer)
    requires forall i :: 0 <= i < |ps| ==> Matches(q, ps[i].row)
    ensures |Lines(q, ps, stripe)| == |ps|
    ensures forall i :: 0 <= i < |ps| ==> Lines(q, ps, stripe)[i] == Line(ps[i].id, Judge(q, ps[i], stripe))
  {
    if ps != [] {
      LinesAre(q, ps[1..], stripe);
      assert forall i :: 0 < i < |ps| ==> ps[i] == ps[1..][i - 1];
    }
  }

  /** The first loop: every PAID payout against its Stripe transfer. */
  method AuditPaid(paid: seq<Audited>, stripe: nat -> Answer) returns (results: seq<Line>)
    requires forall i :: 0 <= i < |paid| ==> Matches(PaidWithTransfer, paid[i].row)
    ensures |results| == |paid| && forall i :: 0 <= i < |paid| ==>
        results[i] == Line(paid[i].id, Judge(PaidWithTransfer, paid[i], stripe))
    ensures results == Lines(PaidWithTransfer, paid, stripe)
  {
    results := [];
    for i := 0 to |paid|
      invariant results + Lines(PaidWithTransfer, paid[i..], stripe) == Lines(PaidWithTransfer, paid, stripe)
    {
      var line;
      match stripe(paid[i].row.transferId.value) {
        case Threw =>
          line := Line(paid[i].id, Error);
        case Retrieved(amount, reversed) =>
          if reversed {
            line := Line(paid[i].id, Mismatch);
          } else if amount != paid[i].sellerAmount {
            line := Line(paid[i].id, Mismatch);
          } else {
            line := Line(paid[i].id, Fine);
          }
      }
      LinesNext(PaidWithTransfer, paid, i, results, line, stripe);
      results := results + [line];
    }
    LinesAre(PaidWithTransfer, paid, stripe);
  }

  /** The second and third loops: every payout found is a mismatch by itself. */
  method AuditListed(q: Query, found: seq<Audited>, before: seq<Line>, ghost stripe: nat -> Answer)
      returns (results: seq<Line>)
    requires !q.PaidWithTransfer? && forall i :: 0 <= i < |found| ==> Matches(q, found[i].row)
    ensures results == before + Lines(q, found, stripe)
  {
    results := before;
    for i := 0 to |found|
      invariant results + Lines(q, found[i..], stripe) == before + Lines(q, found, stripe)
    {
      var line := Line(found[i].id, Mismatch);
      LinesNext(q, found, i, results, line, stripe);
      results := results + [line];
    }
  }

  method ReconcilePayouts(t1: seq<Audited>, t2: seq<Audited>, t3: seq<Audited>, stripe: nat -> Answer)
    returns (results: seq<Line>, summary: Summary)
    ensures results == Report(t1, t2, t3, stripe)
    ensures summary.total == summary.ok + summary.mismatches + summary.errors
    ensures summary.ok == Count(Fine, results) && summary.mismatches == Count(Mismatch, results)
    ensures summary.errors == Count(Error, results)
    ensures summary.total == |results| && summary.orphaned == |Where(PaidWithout, t3)|
  {
    results := AuditPaid(Where(PaidWithTransfer, t1), stripe);
    results := AuditListed(FailedWithTransfer, Where(FailedWithTransfer, t2), results, stripe);
    var orphaned := Where(PaidWithout, t3);
    results := AuditListed(PaidWithout, orphaned, results, stripe);
    FindingsPartition(results);
    summary := Summary(|results|, Count(Fine, results), Count(Mismatch, results), Count(Error, results), |orphaned|);
  }

  lemma {:induction false} FindingsPartition(lines: seq<Line>)
    ensures |lines| == Count(Fine, lines) + Count(Mismatch, lines) + Count(Error, lines)
  {
    if lines != [] {
      FindingsPartition(lines[1..]);
    }
  }

  // ---- Who is reported ----

  predicate Distinct(ps: seq<Audited>) {
    forall i, j :: 0 <= i < j < |ps| ==> ps[i].id != ps[j].id
  }

  predicate Listed(q: Query, ps: seq<Audited>, id: nat) {
    exists i :: 0 <= i < |ps| && ps[i].id == id && Matches(q, ps[i].row)
  }

  lemma {:induction false} HitsAppend(id: nat, l1: seq<Line>, l2: seq<Line>)
    ensures Hits(id, l1 + l2) == Hits(id, l1) + Hits(id, l2)
  {
    if l1 == [] {
      assert l1 + l2 == l2;
    } else {
      assert (l1 + l2)[1..] == l1[1..] + l2;
      HitsAppend(id, l1[1..], l2);
    }
  }

  lemma ListedTail(q: Query, ps: seq<Audited>, id: nat)
    requires ps != []
    ensures Listed(q, ps, id) <==> (ps[0].id == id && Matches(q, ps[0].row)) || Listed(q, ps[1..], id)
  {
    if Listed(q, ps[1..], id) {
      var i :| 0 <= i < |ps[1..]| && ps[1..][i].id == id && Matches(q, ps[1..][i].row);
      assert ps[i + 1] == ps[1..][i];
    }
    if Listed(q, ps, id) && !(ps[0].id == id && Matches(q, ps[0].row)) {
      var i :| 0 <= i < |ps| && ps[i].id == id && Matches(q, ps[i].row);
      assert ps[1..][i - 1] == ps[i];
    }
  }

  lemma LinesCons(q: Query, p: Audited, ps: seq<Audited>, stripe: nat -> Answer)
    requires Matches(q, p.row) && forall i :: 0 <= i < |ps| ==> Matches(q, ps[i].row)
    ensures Lines(q, [p] + ps, stripe) == [Line(p.id, Judge(q, p, stripe))] + Lines(q, ps, stripe)
  {
    assert ([p] + ps)[1..] == ps;
  }

  lemma {:induction false} HitsOfQuery(q: Query, ps: seq<Audited>, id: nat, stripe: nat -> Answer)
    requires Distinct(ps)
    ensures Hits(id, Lines(q, Where(q, ps), stripe)) == if Listed(q, ps, id) then 1 else 0
  {
    if ps != [] {
      assert forall i :: 0 <= i < |ps[1..]| ==> ps[1..][i] == ps[i + 1];
      HitsOfQuery(q, ps[1..], id, stripe);
      ListedTail(q, ps, id);
      if Matches(q, ps[0].row) {
        LinesCons(q, ps[0], Where(q, ps[1..]), stripe);
        HitsAppend(id, [Line(ps[0].id, Judge(q, ps[0], stripe))], Lines(q, Where(q, ps[1..]), stripe));
      } else {
        assert Where(q, ps) == Where(q, ps[1..]);
      }
    }
  }

  /** Rows seen by a later query have only moved on. */
  predicate MovedOn(before: seq<Audited>, after: seq<Audited>) {
    forall i, j :: 0 <= i < |before| && 0 <= j < |after| && before[i].id == after[j].id ==>
        Evolves(before[i].row, after[j].row)
  }

  lemma HitsInReport(t1: seq<Audited>, t2: seq<Audited>, t3: seq<Audited>, id: nat, stripe: nat -> Answer)
    requires Distinct(t1) && Distinct(t2) && Distinct(t3)
    ensures Hits(id, Report(t1, t2, t3, stripe)) ==
      (if Listed(PaidWithTransfer, t1, id) then 1 else 0)
      + (if Listed(FailedWithTransfer, t2, id) then 1 else 0)
      + (if Listed(PaidWithout, t3, id) then 1 else 0)
  {
    HitsOfQuery(PaidWithTransfer, t1, id, stripe);
    HitsOfQuery(FailedWithTransfer, t2, id, stripe);
    HitsOfQuery(PaidWithout, t3, id, stripe);
    var l1 := Lines(PaidWithTransfer, Where(PaidWithTransfer, t1), stripe);
    var l2 := Lines(FailedWithTransfer, Where(FailedWithTransfer, t2), stripe);
    HitsAppend(id, l1, l2);
    HitsAppend(id, l1 + l2, Lines(PaidWithout, Where(PaidWithout, t3), stripe));
  }

  /** No payout is reported twice, although rows may change between the queries. */
  lemma NobodyTwice(t1: seq<Audited>, t2: seq<Audited>, t3: seq<Audited>, id: nat, stripe: nat -> Answer)
    requires Distinct(t1) && Distinct(t2) && Distinct(t3)
    requires MovedOn(t1, t2) && MovedOn(t1, t3) && MovedOn(t2, t3)
    ensures Hits(id, Report(t1, t2, t3, stripe)) <= 1
  {
    HitsInReport(t1, t2, t3, id, stripe);
  }

  // ---- Against the history of each payout ----

  /** Money left for the seller that the ledger does not show. */
  predicate Unbooked(s: State) {
    s.transfers != map[] && s.released == 0
  }

  predicate Flagged(id: nat, lines: seq<Line>) {
    Line(id, Mismatch) in lines
  }

  /**
   For a payout that nobody is working on and whose money moved without a ledger
   release: the audit flags it exactly when its status is FAILED.  The others
   are the PROCESSING ones left behind by a crash, which no query looks at.
   */
  lemma UnbookedFlaggedIff(ps: seq<Audited>, k: nat, n: nat, acts: seq<Action>, stripe: nat -> Answer)
    requires Distinct(ps) && k < |ps|
    requires Feasible(Created(n), acts) && ps[k].row == Exec(Created(n), acts).row
    requires Idle(Exec(Created(n), acts)) && Unbooked(Exec(Created(n), acts))
    ensures Flagged(ps[k].id, Report(ps, ps, ps, stripe)) <==> ps[k].row.status.Failed?
    ensures !ps[k].row.status.Failed? ==>
        ps[k].row.status.Processing? && Hits(ps[k].id, Report(ps, ps, ps, stripe)) == 0
  {
    var s := Exec(Created(n), acts);
    KeepAll(Created(n), acts);
    if s.row.status.Failed? {
      assert Matches(FailedWithTransfer, ps[k].row);
      LineOf(FailedWithTransfer, ps, k, stripe);
    } else {
      HitsInReport(ps, ps, ps, ps[k].id, stripe);
      assert forall i :: 0 <= i < |ps| && ps[i].id == ps[k].id ==> i == k;
      LineIsHit(Line(ps[k].id, Mismatch), Report(ps, ps, ps, stripe));
    }
  }

  // ---- What a PAID payout is judged by ----

  lemma {:induction false} LineOf(q: Query, ps: seq<Audited>, k: nat, stripe: nat -> Answer)
    requires k < |ps| && Matches(q, ps[k].row)
    ensures Line(ps[k].id, Judge(q, ps[k], stripe)) in Lines(q, Where(q, ps), stripe)
  {
    if Matches(q, ps[0].row) {
      LinesCons(q, ps[0], Where(q, ps[1..]), stripe);
    } else {
      assert Where(q, ps) == Where(q, ps[1..]);
    }
    if k > 0 {
      assert ps[1..][k - 1] == ps[k];
      LineOf(q, ps[1..], k - 1, stripe);
    }
  }

  lemma {:induction false} OnlyLine(a: Line, b: Line, lines: seq<Line>)
    requires a in lines && b in lines && a.id == b.id && Hits(a.id, lines) <= 1
    ensures a == b
  {
    if lines[0].id == a.id {
      LineIsHit(a, lines[1..]);
      LineIsHit(b, lines[1..]);
    } else {
      OnlyLine(a, b, lines[1..]);
    }
  }

  lemma {:induction false} LineIsHit(a: Line, lines: seq<Line>)
    ensures a in lines ==> Hits(a.id, lines) >= 1
  {
    if lines != [] {
      LineIsHit(a, lines[1..]);
    }
  }

  /**
   A PAID payout is reported fine exactly when Stripe shows the transfer on its
   row unreversed and with its amount.  How many transfers were made for it
   plays no part.
   */
  lemma PaidIsFineIff(ps: seq<Audited>, k: nat, n: nat, acts: seq<Action>, stripe: nat -> Answer)
    requires Distinct(ps) && k < |ps|
    requires Feasible(Created(n), acts) && ps[k].row == Exec(Created(n), acts).row && ps[k].row.status.Paid?
    ensures ps[k].row.transferId.Some?
    ensures Line(ps[k].id, Fine) in Report(ps, ps, ps, stripe) <==>
            stripe(ps[k].row.transferId.value) == Retrieved(ps[k].sellerAmount, false)
  {
    KeepAll(Created(n), acts);
    var lines := Report(ps, ps, ps, stripe);
    var line := Line(ps[k].id, Judge(PaidWithTransfer, ps[k], stripe));
    LineOf(PaidWithTransfer, ps, k, stripe);
    assert line in lines;
    HitsInReport(ps, ps, ps, ps[k].id, stripe);
    assert forall i :: 0 <= i < |ps| && ps[i].id == ps[k].id ==> i == k;
    if Line(ps[k].id, Fine) in lines {
      OnlyLine(line, Line(ps[k].id, Fine), lines);
    }
  }

  /**
   Every FAILED payout that carries a transfer id, reached without forceRetry, can
   be retried into a PAID one with a second transfer, of which the audit sees one.
   */
  lemma PaidTwiceUnseen(n: nat, before: seq<Action>) returns (acts: seq<Action>)
    requires Feasible(Created(n), before) && NoForce(before)
    requires var s := Exec(Created(n), before); s.row.status.Failed? && s.row.transferId.Some?
    ensures Feasible(Created(n), acts)
    ensures var s, z := Exec(Created(n), before), Exec(Created(n), acts);
      && z.row.status.Paid? && |z.transfers| == |s.transfers| + 1 >= 2
      && z.row.transferId.Some? && z.row.transferId != s.row.transferId
  {
    var s := Exec(Created(n), before);
    KeepAll(Created(n), before);
    KeepKeysAll(Created(n), before);
    var more, z := RunsToEnd(s, Answers(true, true, true, true, true));
    Chain(Created(n), before, more);
    acts := before + more;
    IdsBelow(n, before);
    assert s.row.transferId.value in s.transfers.Values;
    assert s.row.attempts + 1 !in s.transfers;
  }

  ghost predicate Numbered(s: State) {
    forall x :: x in s.transfers.Values ==> x < s.nextTransfer
  }

  lemma {:induction false} KeepNumbered(s: State, acts: seq<Action>)
    requires Numbered(s) && Feasible(s, acts)
    ensures Numbered(Exec(s, acts))
    decreases |acts|
  {
    if acts != [] {
      var s' := Step(s, acts[0]);
      forall x | x in s'.transfers.Values ensures x < s'.nextTransfer {
        assert x in s.transfers.Values || x == s.nextTransfer;
      }
      KeepNumbered(s', acts[1..]);
    }
  }

  /** Stripe numbers its transfers afresh. */
  lemma IdsBelow(n: nat, acts: seq<Action>)
    requires Feasible(Created(n), acts)
    ensures Numbered(Exec(Created(n), acts))
  {
    KeepNumbered(Created(n), acts);
  }

  /**
   Who is on the report when nothing changes between the queries: every PAID
   payout, with or without a transfer id, and every FAILED one with an id, once
   each; and nobody else.
   */
  lemma ReportedIff(ps: seq<Audited>, k: nat, stripe: nat -> Answer)
    requires Distinct(ps) && k < |ps|
    ensures var r := ps[k].row;
      Hits(ps[k].id, Report(ps, ps, ps, stripe)) ==
        if r.status.Paid? || (r.status.Failed? && r.transferId.Some?) then 1 else 0
    ensures ps[k].row.status.Paid? && ps[k].row.transferId.None? ==>
        Line(ps[k].id, Mismatch) in Report(ps, ps, ps, stripe)
  {
    HitsInReport(ps, ps, ps, ps[k].id, stripe);
    assert forall i :: 0 <= i < |ps| && ps[i].id == ps[k].id ==> i == k;
    if Matches(PaidWithout, ps[k].row) {
      LineOf(PaidWithout, ps, k, stripe);
    }
  }
}
