/**
 The batch backfill of the Case table. Rows are keyed by case id; a batch is
 one database transaction; the process may die between two batches.
 */
module Backfill {
  import opened Wrappers

  datatype Source = Seed | Synthetic | FromRun

  datatype Row = Row(caseId: string, source: Source, text: string)

  type Table = map<string, Row>

  datatype Report = Report(seed: nat, synthetic: nat, run: nat, skippedExisting: nat, totalInTable: nat)

  datatype Failure = ZeroBatchSize | DuplicateKey | Died

  // ---- What a run works on ----

  /** The rows whose case id the table does not have yet, in order. */
  function Fresh(table: Table, rows: seq<Row>): seq<Row> {
    if rows == [] then []
    else
      var last := rows[|rows| - 1];
      Fresh(table, rows[..|rows| - 1]) + if last.caseId in table then [] else [last]
  }

  function InsertAll(table: Table, rows: seq<Row>): Table {
    if rows == [] then table
    else
      var last := rows[|rows| - 1];
      InsertAll(table, rows[..|rows| - 1])[last.caseId := last]
  }

  predicate DistinctRows(rows: seq<Row>) {
    forall i, j :: 0 <= i < j < |rows| ==> rows[i].caseId != rows[j].caseId
  }

  function CountOf(source: Source, rows: seq<Row>): nat {
    if rows == [] then 0
    else CountOf(source, rows[..|rows| - 1]) + if rows[|rows| - 1].source == source then 1 else 0
  }

  lemma {:induction false} InsertKeys(table: Table, rows: seq<Row>)
    ensures forall id :: id in InsertAll(table, rows) <==>
        id in table || exists i :: 0 <= i < |rows| && rows[i].caseId == id
  {
    if rows != [] {
      var n := |rows| - 1;
      InsertKeys(table, rows[..n]);
      assert forall i :: 0 <= i < n ==> rows[..n][i] == rows[i];
    }
  }

  lemma {:induction false} InsertConcat(table: Table, a: seq<Row>, b: seq<Row>)
    ensures InsertAll(InsertAll(table, a), b) == InsertAll(table, a + b)
  {
    if b == [] {
      assert a + b == a;
    } else {
      var n := |b| - 1;
      InsertConcat(table, a, b[..n]);
      assert (a + b)[..|a + b| - 1] == a + b[..n];
    }
  }

  lemma {:induction false} FreshConcat(table: Table, a: seq<Row>, b: seq<Row>)
    ensures Fresh(table, a + b) == Fresh(table, a) + Fresh(table, b)
  {
    if b == [] {
      assert a + b == a;
    } else {
      var n := |b| - 1;
      FreshConcat(table, a, b[..n]);
      assert (a + b)[..|a + b| - 1] == a + b[..n];
    }
  }

  lemma {:induction false} FreshIsFresh(table: Table, rows: seq<Row>)
    ensures forall i :: 0 <= i < |Fresh(table, rows)| ==> Fresh(table, rows)[i].caseId !in table
  {
    if rows != [] {
      FreshIsFresh(table, rows[..|rows| - 1]);
    }
  }

  lemma {:induction false} CountsAddUp(rows: seq<Row>)
    ensures CountOf(Seed, rows) + CountOf(Synthetic, rows) + CountOf(FromRun, rows) == |rows|
  {
    if rows != [] {
      CountsAddUp(rows[..|rows| - 1]);
    }
  }

  /** New distinct rows each add one entry. */
  lemma {:induction false} InsertSize(table: Table, rows: seq<Row>)
    requires DistinctRows(rows) && forall i :: 0 <= i < |rows| ==> rows[i].caseId !in table
    ensures |InsertAll(table, rows)| == |table| + |rows|
  {
    if rows != [] {
      var n := |rows| - 1;
      InsertSize(table, rows[..n]);
      InsertKeys(table, rows[..n]);
      var before := InsertAll(table, rows[..n]);
      assert rows[n].caseId !in before;
      assert before[rows[n].caseId := rows[n]].Keys == before.Keys + {rows[n].caseId};
    }
  }

  // ---- Resuming ----

  /** Filtering against a larger table is filtering what was left. */
  lemma {:induction false} FreshTwice(small: Table, large: Table, rows: seq<Row>)
    requires small.Keys <= large.Keys
    ensures Fresh(large, rows) == Fresh(large, Fresh(small, rows))
  {
    if rows != [] {
      var n := |rows| - 1;
      var last := rows[n];
      FreshTwice(small, large, rows[..n]);
      var f := Fresh(small, rows[..n]);
      if last.caseId !in small {
        assert (f + [last])[..|f|] == f;
      } else {
        assert f + [] == f;
      }
    }
  }

  lemma {:induction false} FreshAll(table: Table, rows: seq<Row>)
    requires forall i :: 0 <= i < |rows| ==> rows[i].caseId !in table
    ensures Fresh(table, rows) == rows
  {
    if rows != [] {
      FreshAll(table, rows[..|rows| - 1]);
    }
  }

  lemma {:induction false} FreshNone(table: Table, rows: seq<Row>)
    requires forall i :: 0 <= i < |rows| ==> rows[i].caseId in table
    ensures Fresh(table, rows) == []
  {
    if rows != [] {
      FreshNone(table, rows[..|rows| - 1]);
    }
  }

  lemma PrefixIsIn(table: Table, c: seq<Row>, k: nat, i: nat)
    requires i < k <= |c|
    ensures c[i].caseId in InsertAll(table, c[..k])
  {
    InsertKeys(table, c[..k]);
    assert c[..k][i] == c[i];
  }

  lemma SuffixIsOut(table: Table, c: seq<Row>, k: nat, i: nat)
    requires k <= i < |c| && DistinctRows(c) && c[i].caseId !in table
    ensures c[i].caseId !in InsertAll(table, c[..k])
  {
    InsertKeys(table, c[..k]);
    assert forall j :: 0 <= j < k ==> c[..k][j] == c[j];
  }

  /** After any prefix of the candidates is in, the candidates are exactly the rest. */
  lemma RestIsFresh(table: Table, rows: seq<Row>, k: nat)
    requires k <= |Fresh(table, rows)| && DistinctRows(Fresh(table, rows))
    ensures Fresh(InsertAll(table, Fresh(table, rows)[..k]), rows) == Fresh(table, rows)[k..]
  {
    var c := Fresh(table, rows);
    var t := InsertAll(table, c[..k]);
    FreshIsFresh(table, rows);
    forall i | 0 <= i < |c[..k]| ensures c[..k][i].caseId in t {
      PrefixIsIn(table, c, k, i);
    }
    forall i | 0 <= i < |c[k..]| ensures c[k..][i].caseId !in t {
      SuffixIsOut(table, c, k, k + i);
    }
    InsertKeys(table, c[..k]);
    FreshTwice(table, t, rows);
    FreshSplit(t, c, k);
  }

  lemma FreshSplit(t: Table, c: seq<Row>, k: nat)
    requires k <= |c|
    requires forall i :: 0 <= i < |c[..k]| ==> c[..k][i].caseId in t
    requires forall i :: 0 <= i < |c[k..]| ==> c[k..][i].caseId !in t
    ensures Fresh(t, c) == c[k..]
  {
    assert c == c[..k] + c[k..];
    FreshConcat(t, c[..k], c[k..]);
    FreshNone(t, c[..k]);
    FreshAll(t, c[k..]);
  }

  /** From `table` to `later` the rows `inserted` went in; what remains leads to the same end. */
  predicate Resumes(table: Table, later: Table, rows: seq<Row>, inserted: seq<Row>) {
    && inserted + Fresh(later, rows) == Fresh(table, rows)
    && DistinctRows(Fresh(later, rows))
    && InsertAll(later, Fresh(later, rows)) == InsertAll(table, Fresh(table, rows))
  }

  lemma ResumesTrans(t0: Table, t1: Table, t2: Table, rows: seq<Row>, a: seq<Row>, b: seq<Row>)
    requires Resumes(t0, t1, rows, a) && Resumes(t1, t2, rows, b)
    ensures Resumes(t0, t2, rows, a + b)
  {
    Regroup(a, b, Fresh(t0, rows), Fresh(t1, rows), Fresh(t2, rows));
  }

  lemma Regroup(a: seq<Row>, b: seq<Row>, x: seq<Row>, y: seq<Row>, z: seq<Row>)
    requires a + y == x && b + z == y
    ensures a + b + z == x
  {
  }

  lemma OneStop(table: Table, rows: seq<Row>, stop: nat)
    requires DistinctRows(Fresh(table, rows))
    ensures var now := Committed(table, rows, stop);
      Resumes(table, InsertAll(table, now), rows, now)
  {
    var c := Fresh(table, rows);
    var k := if stop < |c| then stop else |c|;
    CommittedIs(table, rows, stop);
    RestIsFresh(table, rows, k);
    Halves(table, c, k);
  }

  lemma CommittedIs(table: Table, rows: seq<Row>, stop: nat)
    ensures var c := Fresh(table, rows);
      Committed(table, rows, stop) == c[..if stop < |c| then stop else |c|]
  {
  }

  lemma Halves(table: Table, c: seq<Row>, k: nat)
    requires k <= |c| && DistinctRows(c)
    ensures c[..k] + c[k..] == c && DistinctRows(c[k..])
    ensures InsertAll(InsertAll(table, c[..k]), c[k..]) == InsertAll(table, c)
  {
    assert c == c[..k] + c[k..];
    InsertConcat(table, c[..k], c[k..]);
  }

  lemma NothingLeft(table: Table, rows: seq<Row>)
    requires DistinctRows(Fresh(table, rows))
    ensures Fresh(InsertAll(table, Fresh(table, rows)), rows) == []
  {
    var c := Fresh(table, rows);
    assert c[..|c|] == c;
    RestIsFresh(table, rows, |c|);
  }

  /** What a run commits of its candidates when it stops after `stop` rows at the latest. */
  function Committed(table: Table, rows: seq<Row>, stop: nat): seq<Row> {
    var c := Fresh(table, rows);
    if stop < |c| then c[..stop] else c[..|c|]
  }

  /** The table after interrupted runs that commit the given numbers of rows. */
  function Interrupted(table: Table, rows: seq<Row>, stops: seq<nat>): Table
    decreases |stops|
  {
    if stops == [] then table
    else Interrupted(InsertAll(table, Committed(table, rows, stops[0])), rows, stops[1..])
  }

  /** The rows all the interrupted runs insert together. */
  function InsertedBy(table: Table, rows: seq<Row>, stops: seq<nat>): seq<Row>
    decreases |stops|
  {
    if stops == [] then []
    else
      var now := Committed(table, rows, stops[0]);
      now + InsertedBy(InsertAll(table, now), rows, stops[1..])
  }

  /**
   However often the backfill is stopped and started again, with whatever batch
   sizes, the runs together insert a prefix of the first run's candidates in
   order, each once; a complete run then gives the table of one uninterrupted
   run, and one after that has nothing to do.
   */
  lemma {:induction false} ResumesExactly(table: Table, rows: seq<Row>, stops: seq<nat>)
    requires DistinctRows(Fresh(table, rows))
    ensures var t := Interrupted(table, rows, stops);
      && Resumes(table, t, rows, InsertedBy(table, rows, stops))
      && Fresh(InsertAll(t, Fresh(t, rows)), rows) == []
    decreases |stops|
  {
    if stops == [] {
      NothingLeft(table, rows);
      assert [] + Fresh(table, rows) == Fresh(table, rows);
    } else {
      var now := Committed(table, rows, stops[0]);
      var t := InsertAll(table, now);
      OneStop(table, rows, stops[0]);
      ResumesExactly(t, rows, stops[1..]);
      ResumesTrans(table, t, Interrupted(t, rows, stops[1..]), rows, now, InsertedBy(t, rows, stops[1..]));
    }
  }

  // ---- The script ----

  lemma OneRow(table: Table, batch: seq<Row>, i: nat)
    requires i < |batch|
    ensures InsertAll(table, batch[..i + 1]) == InsertAll(table, batch[..i])[batch[i].caseId := batch[i]]
    ensures batch[i].caseId in InsertAll(table, batch[..i]) <==>
        batch[i].caseId in table || exists j :: 0 <= j < i && batch[j].caseId == batch[i].caseId
    ensures forall s :: CountOf(s, batch[..i + 1]) == CountOf(s, batch[..i]) + if batch[i].source == s then 1 else 0
  {
    assert batch[..i + 1][..i] == batch[..i];
    InsertKeys(table, batch[..i]);
    assert forall j :: 0 <= j < i ==> batch[..i][j] == batch[j];
  }

  function Least(a: int, b: int): int {
    if a < b then a else b
  }

  class CaseTable {
    var rows: Table

    constructor ()
      ensures rows == map[]
    {
      rows := map[];
    }

    /** One transaction: all the rows, or none when a case id is taken. The counts are of the rows by source. */
    method InsertBatch(batch: seq<Row>) returns (ok: bool, seed: nat, synthetic: nat, run: nat)
      modifies this
      ensures ok <==> DistinctRows(batch) && forall i :: 0 <= i < |batch| ==> batch[i].caseId !in old(rows)
      ensures rows == if ok then InsertAll(old(rows), batch) else old(rows)
      ensures ok ==>
          seed == CountOf(Seed, batch) && synthetic == CountOf(Synthetic, batch) && run == CountOf(FromRun, batch)
    {
      var pending := rows;
      seed, synthetic, run := 0, 0, 0;
      for i := 0 to |batch|
        invariant rows == old(rows) && pending == InsertAll(rows, batch[..i])
        invariant DistinctRows(batch[..i]) && forall j :: 0 <= j < i ==> batch[j].caseId !in rows
        invariant seed == CountOf(Seed, batch[..i]) && synthetic == CountOf(Synthetic, batch[..i])
            && run == CountOf(FromRun, batch[..i])
      {
        OneRow(rows, batch, i);
        if batch[i].caseId in pending {
          ok := false;
          return;
        }
        pending := pending[batch[i].caseId := batch[i]];
        match batch[i].source {
          case Seed => seed := seed + 1;
          case Synthetic => synthetic := synthetic + 1;
          case FromRun => run := run + 1;
        }
      }
      assert batch[..|batch|] == batch;
      rows := pending;
      ok := true;
    }

    method Candidates(all: seq<Row>) returns (c: seq<Row>)
      ensures c == Fresh(rows, all)
    {
      c := [];
      for i := 0 to |all|
        invariant c == Fresh(rows, all[..i])
      {
        assert all[..i + 1][..i] == all[..i];
        if all[i].caseId !in rows {
          c := c + [all[i]];
        }
      }
      assert all[..|all|] == all;
    }

    method RunBatches(c: seq<Row>, batchSize: int, dies: Option<nat>) returns (r: Result<Report, Failure>, done: nat)
      requires c != [] && batchSize != 0 && forall i :: 0 <= i < |c| ==> c[i].caseId !in rows
      modifies this
      ensures done <= |c| && DistinctRows(c[..done]) && rows == InsertAll(old(rows), c[..done])
      ensures Ends(c, |old(rows)|, batchSize, dies, r, done)
    {
      var existing := |rows|;
      done := 0;
      var seed: nat, synthetic: nat, run: nat, batches: nat := 0, 0, 0, 0;
      while batchSize > 0 && done < |c|
        invariant done <= |c| && (batchSize < 0 ==> done == 0)
            && (batchSize > 0 ==> done == Least(batches * batchSize, |c|))
        invariant rows == InsertAll(old(rows), c[..done]) && DistinctRows(c[..done])
        invariant Counted(c[..done], seed, synthetic, run)
        decreases |c| - done
      {
        if dies == Some(batches) {
          return Err(Died), done;
        }
        var next := Least(done + batchSize, |c|);
        var ok, a, b, d := InsertBatch(c[done..next]);
        BatchStep(old(rows), c, done, next);
        if !ok {
          return Err(DuplicateKey), done;
        }
        CountedStep(c, done, next, seed, synthetic, run);
        seed, synthetic, run := seed + a, synthetic + b, run + d;
        NextBatch(batches, batchSize);
        done, batches := next, batches + 1;
      }
      CountsAddUp(c[..done]);
      r := Ok(Report(seed, synthetic, run, existing, existing + seed + synthetic + run));
    }

    /**
     `dies` is the number of committed batches after which the process is
     killed, if it is. `done` is the number of candidates committed.
     */
    method Run(all: seq<Row>, batchSize: int, dies: Option<nat>) returns (r: Result<Report, Failure>, done: nat)
      modifies this
      ensures done <= |Fresh(old(rows), all)| && DistinctRows(Fresh(old(rows), all)[..done])
      ensures rows == InsertAll(old(rows), Fresh(old(rows), all)[..done]) && |rows| == |old(rows)| + done
      ensures Ends(Fresh(old(rows), all), |old(rows)|, batchSize, dies, r, done)
    {
      var existing := |rows|;
      var c := Candidates(all);
      if c == [] {
        return Ok(Report(0, 0, 0, existing, existing)), 0;
      }
      if batchSize == 0 {
        return Err(ZeroBatchSize), 0;
      }
      FreshIsFresh(rows, all);
      r, done := RunBatches(c, batchSize, dies);
      PrefixSize(old(rows), c, done);
    }
  }

  /** How a run over the candidates `c` of a table of `existing` rows ends. */
  predicate Ends(c: seq<Row>, existing: nat, batchSize: int, dies: Option<nat>, r: Result<Report, Failure>, done: nat)
    requires done <= |c|
  {
    && (batchSize <= 0 ==> done == 0)
    && (r == Err(ZeroBatchSize) <==> c != [] && batchSize == 0)
    && (r.Ok? ==> (done == |c| || batchSize < 0) && Reports(r.value, c[..done], existing))
    && (r == Err(DuplicateKey) ==> batchSize > 0 && !DistinctRows(c[..Least(done + batchSize, |c|)]))
    && (r == Err(Died) ==> batchSize > 0 && done < |c| && dies.Some? && done == dies.value * batchSize)
  }

  /** The report counts the inserted rows by source, and the table before and after. */
  predicate Reports(r: Report, rows: seq<Row>, existing: nat) {
    && r.seed == CountOf(Seed, rows) && r.synthetic == CountOf(Synthetic, rows) && r.run == CountOf(FromRun, rows)
    && r.skippedExisting == existing && r.totalInTable == existing + |rows|
  }

  /** An undisturbed run with a positive batch size completes exactly when no two candidates share a case id. */
  lemma CompletesIff(c: seq<Row>, existing: nat, batchSize: int, r: Result<Report, Failure>, done: nat)
    requires batchSize > 0 && done <= |c| && DistinctRows(c[..done]) && Ends(c, existing, batchSize, None, r, done)
    ensures r.Ok? <==> DistinctRows(c)
    ensures r.Ok? ==> Reports(r.value, c, existing)
  {
    if r.Ok? {
      assert c[..done] == c;
    } else {
      match r.error {
        case ZeroBatchSize => assert false;
        case DuplicateKey =>
          var k := Least(done + batchSize, |c|);
          assert forall i :: 0 <= i < k ==> c[..k][i] == c[i];
        case Died => assert false;
      }
    }
  }

  lemma NextBatch(batches: nat, batchSize: int)
    ensures (batches + 1) * batchSize == batches * batchSize + batchSize
    ensures batchSize > 0 ==> batches * batchSize >= 0
  {
    if batchSize > 0 {
      assert batches * batchSize >= 0;
    }
  }

  lemma PrefixSize(table: Table, c: seq<Row>, k: nat)
    requires k <= |c| && DistinctRows(c[..k]) && forall i :: 0 <= i < |c| ==> c[i].caseId !in table
    ensures |InsertAll(table, c[..k])| == |table| + k
  {
    InsertSize(table, c[..k]);
  }

  lemma {:induction false} CountConcat(source: Source, a: seq<Row>, b: seq<Row>)
    ensures CountOf(source, a + b) == CountOf(source, a) + CountOf(source, b)
  {
    if b == [] {
      assert a + b == a;
    } else {
      CountConcat(source, a, b[..|b| - 1]);
      assert (a + b)[..|a + b| - 1] == a + b[..|b| - 1];
    }
  }

  /** The three counters say how many of the rows came from each source. */
  predicate Counted(rows: seq<Row>, seed: nat, synthetic: nat, run: nat) {
    seed == CountOf(Seed, rows) && synthetic == CountOf(Synthetic, rows) && run == CountOf(FromRun, rows)
  }

  lemma CountedStep(c: seq<Row>, done: nat, next: nat, seed: nat, synthetic: nat, run: nat)
    requires done <= next <= |c| && Counted(c[..done], seed, synthetic, run)
    ensures var batch := c[done..next];
      Counted(c[..next],
        seed + CountOf(Seed, batch), synthetic + CountOf(Synthetic, batch), run + CountOf(FromRun, batch))
  {
    assert c[..next] == c[..done] + c[done..next];
    CountConcat(Seed, c[..done], c[done..next]);
    CountConcat(Synthetic, c[..done], c[done..next]);
    CountConcat(FromRun, c[..done], c[done..next]);
  }

  /** A batch goes in exactly when the candidates up to its end are distinct. */
  lemma BatchStep(table: Table, c: seq<Row>, done: nat, next: nat)
    requires done <= next <= |c| && DistinctRows(c[..done]) && forall i :: 0 <= i < |c| ==> c[i].caseId !in table
    ensures var batch := c[done..next]; var t := InsertAll(table, c[..done]);
      && InsertAll(t, batch) == InsertAll(table, c[..next])
      && (DistinctRows(c[..next]) <==> DistinctRows(batch) && forall i :: 0 <= i < |batch| ==> batch[i].caseId !in t)
  {
    var batch := c[done..next];
    var t := InsertAll(table, c[..done]);
    assert c[..next] == c[..done] + batch;
    InsertConcat(table, c[..done], batch);
    InsertKeys(table, c[..done]);
    DistinctSplit(table, c, done, next, t);
  }

  lemma DistinctSplit(table: Table, c: seq<Row>, done: nat, next: nat, t: Table)
    requires done <= next <= |c| && DistinctRows(c[..done]) && forall i :: 0 <= i < |c| ==> c[i].caseId !in table
    requires forall id :: id in t <==> id in table || exists i :: 0 <= i < |c[..done]| && c[..done][i].caseId == id
    ensures DistinctRows(c[..next]) <==>
            DistinctRows(c[done..next]) && forall i :: 0 <= i < |c[done..next]| ==> c[done..next][i].caseId !in t
  {
    var batch := c[done..next];
    if DistinctRows(c[..next]) {
      forall i | 0 <= i < |batch| ensures batch[i].caseId !in t {
        assert batch[i] == c[..next][done + i];
        assert forall j :: 0 <= j < done ==> c[..done][j] == c[..next][j];
      }
      assert forall i :: 0 <= i < |batch| ==> batch[i] == c[..next][done + i];
    }
    if DistinctRows(batch) && forall i :: 0 <= i < |batch| ==> batch[i].caseId !in t {
      forall i, j | 0 <= i < j < next ensures c[i].caseId != c[j].caseId {
        if i >= done {
          assert batch[i - done] == c[i] && batch[j - done] == c[j];
        } else if j >= done {
          assert batch[j - done] == c[j] && c[..done][i] == c[i];
        } else {
          assert c[..done][i] == c[i] && c[..done][j] == c[j];
        }
      }
    }
  }
}
