/** The integrity report, and what its three checks say about one another. */
module Integrity {
  import opened Ledger
  import opened LedgerProtocol
  import opened LedgerSafety

  function SideTotal(side: Side, sc: Scope, rows: seq<Posted>): int {
    if rows == [] then 0
    else
      var first := if InScope(sc, rows[0]) && rows[0].entry.side == side then rows[0].entry.amount else 0;
      first + SideTotal(side, sc, rows[1..])
  }

  datatype Report = Report(
    balanced: bool, globalDebits: int, globalCredits: int, globalDiff: nat, unbalanced: set<nat>, orphaned: set<nat>)

  function VerifyIntegrity(l: Tables): Report {
    var debits, credits := SideTotal(Debit, Everything, l.rows), SideTotal(Credit, Everything, l.rows);
    var diff := if debits >= credits then debits - credits else credits - debits;
    var touched := set i | 0 <= i < |l.rows| :: l.rows[i].tx;
    var unbalanced := set t | t in touched && SideTotal(Credit, OfTx(t), l.rows) != SideTotal(Debit, OfTx(t), l.rows);
    var orphaned := set i | 0 <= i < |l.rows| && l.rows[i].tx !in l.txs;
    Report(diff == 0 && unbalanced == {}, debits, credits, diff, unbalanced, orphaned)
  }

  lemma {:induction false} SidesMakeTotal(sc: Scope, rows: seq<Posted>)
    ensures Total(sc, rows) == SideTotal(Credit, sc, rows) - SideTotal(Debit, sc, rows)
  {
    if rows != [] {
      SidesMakeTotal(sc, rows[1..]);
    }
  }

  /** The report never raises a false alarm: every reachable ledger passes all three checks. */
  lemma ReachableIsClean(s: State, acts: seq<Action>)
    requires Initial(s) && Feasible(s, acts)
    ensures var r := VerifyIntegrity(Exec(s, acts).ledger);
            r.balanced && r.globalDiff == 0 && r.unbalanced == {} && r.orphaned == {}
  {
    KeepAll(s, acts);
    var rows := Exec(s, acts).ledger.rows;
    SidesMakeTotal(Everything, rows);
    forall t ensures SideTotal(Credit, OfTx(t), rows) == SideTotal(Debit, OfTx(t), rows) {
      SidesMakeTotal(OfTx(t), rows);
    }
  }

  // ---- What the report says of any table whatsoever ----

  /** The entries of the rows, in order. */
  function EntriesOf(rows: seq<Posted>): seq<Entry> {
    if rows == [] then [] else [rows[0].entry] + EntriesOf(rows[1..])
  }

  lemma {:induction false} SidesAreSums(side: Side, rows: seq<Posted>)
    ensures SideTotal(side, Everything, rows) == SideSum(side, EntriesOf(rows))
  {
    if rows != [] {
      assert EntriesOf(rows)[1..] == EntriesOf(rows[1..]);
      SidesAreSums(side, rows[1..]);
    }
  }

  /**
   For any table: the two global sums are those of its entries, the difference is
   the distance of the ledger from zero, a transaction is listed exactly when it
   does not net to zero, a row exactly when its transaction is missing, and the
   table is balanced exactly when every transaction nets to zero.
   */
  lemma ReportIs(l: Tables)
    ensures var r := VerifyIntegrity(l);
      && r.globalDebits == SideSum(Debit, EntriesOf(l.rows)) && r.globalCredits == SideSum(Credit, EntriesOf(l.rows))
      && r.globalCredits - r.globalDebits == Total(Everything, l.rows)
      && r.globalDiff ==
          (if Total(Everything, l.rows) < 0 then -Total(Everything, l.rows) else Total(Everything, l.rows))
      && (forall t :: t in r.unbalanced <==> Total(OfTx(t), l.rows) != 0)
      && (forall i :: i in r.orphaned <==> 0 <= i < |l.rows| && l.rows[i].tx !in l.txs)
      && (r.balanced <==> forall t :: Total(OfTx(t), l.rows) == 0)
  {
    var r := VerifyIntegrity(l);
    SidesAreSums(Debit, l.rows);
    SidesAreSums(Credit, l.rows);
    SidesMakeTotal(Everything, l.rows);
    forall t ensures t in r.unbalanced <==> Total(OfTx(t), l.rows) != 0 {
      SidesMakeTotal(OfTx(t), l.rows);
      if forall i :: 0 <= i < |l.rows| ==> l.rows[i].tx != t {
        UntouchedTx(t, l.rows);
      }
    }
    BalancedIffNoUnbalanced(l);
  }

  // ---- The global check follows from the per-transaction check ----

  function Without(t: nat, rows: seq<Posted>): (r: seq<Posted>)
    ensures |r| <= |rows|
    ensures rows != [] && rows[0].tx == t ==> |r| < |rows|
  {
    if rows == [] then []
    else (if rows[0].tx == t then [] else [rows[0]]) + Without(t, rows[1..])
  }

  lemma {:induction false} WithoutTotals(t: nat, rows: seq<Posted>, u: nat)
    ensures Total(Everything, rows) == Total(OfTx(t), rows) + Total(Everything, Without(t, rows))
    ensures Total(OfTx(u), Without(t, rows)) == if u == t then 0 else Total(OfTx(u), rows)
  {
    if rows != [] {
      WithoutTotals(t, rows[1..], u);
      if rows[0].tx == t {
        assert Without(t, rows) == Without(t, rows[1..]);
      } else {
        assert Without(t, rows)[1..] == Without(t, rows[1..]);
      }
    }
  }

  /** If every transaction balances, so does the whole ledger. */
  lemma {:induction false} PerTxImpliesGlobal(rows: seq<Posted>)
    requires forall t :: Total(OfTx(t), rows) == 0
    ensures Total(Everything, rows) == 0
    decreases |rows|
  {
    if rows != [] {
      var t := rows[0].tx;
      forall u ensures Total(OfTx(u), Without(t, rows)) == 0 {
        WithoutTotals(t, rows, u);
      }
      WithoutTotals(t, rows, t);
      PerTxImpliesGlobal(Without(t, rows));
    }
  }

  lemma {:induction false} UntouchedTx(t: nat, rows: seq<Posted>)
    requires forall i :: 0 <= i < |rows| ==> rows[i].tx != t
    ensures Total(OfTx(t), rows) == 0
  {
    if rows != [] {
      assert forall i :: 0 <= i < |rows[1..]| ==> rows[1..][i] == rows[i + 1];
      UntouchedTx(t, rows[1..]);
    }
  }

  /** For any table whatsoever: the report says balanced exactly when its list of unbalanced transactions is empty. */
  lemma BalancedIffNoUnbalanced(l: Tables)
    ensures VerifyIntegrity(l).balanced <==> VerifyIntegrity(l).unbalanced == {}
  {
    var r := VerifyIntegrity(l);
    if r.unbalanced == {} {
      forall t ensures Total(OfTx(t), l.rows) == 0 {
        SidesMakeTotal(OfTx(t), l.rows);
        if i :| 0 <= i < |l.rows| && l.rows[i].tx == t {
          assert t !in r.unbalanced;
        } else {
          UntouchedTx(t, l.rows);
        }
      }
      PerTxImpliesGlobal(l.rows);
      SidesMakeTotal(Everything, l.rows);
    }
  }

  // ---- All account balances sum to zero ----

  function SumBalances(ids: seq<int>, rows: seq<Posted>): int {
    if ids == [] then 0 else Balance(rows, ids[0]) + SumBalances(ids[1..], rows)
  }

  lemma {:induction false} SumOneRow(ids: seq<int>, p: Posted, rows: seq<Posted>)
    requires forall i, j :: 0 <= i < j < |ids| ==> ids[i] != ids[j]
    ensures SumBalances(ids, [p] + rows) == SumBalances(ids, rows)
        + (if p.entry.account in ids then Signed(p.entry) else 0)
  {
    if ids != [] {
      assert ([p] + rows)[1..] == rows;
      assert p.entry.account in ids <==> p.entry.account == ids[0] || p.entry.account in ids[1..];
      assert ids[0] !in ids[1..];
      SumOneRow(ids[1..], p, rows);
    }
  }

  lemma {:induction false} SumAllRows(ids: seq<int>, rows: seq<Posted>)
    requires forall i, j :: 0 <= i < j < |ids| ==> ids[i] != ids[j]
    requires forall i :: 0 <= i < |rows| ==> rows[i].entry.account in ids
    ensures SumBalances(ids, rows) == Total(Everything, rows)
  {
    if rows == [] {
      SumNoRows(ids);
    } else {
      assert forall i :: 0 <= i < |rows[1..]| ==> rows[1..][i] == rows[i + 1];
      assert rows[0].entry.account in ids;
      SumAllRows(ids, rows[1..]);
      assert rows == [rows[0]] + rows[1..];
      SumOneRow(ids, rows[0], rows[1..]);
    }
  }

  lemma {:induction false} SumNoRows(ids: seq<int>)
    ensures SumBalances(ids, []) == 0
  {
    if ids != [] {
      SumNoRows(ids[1..]);
    }
  }

  /** In every reachable state the balances of all accounts, listed once each, sum to zero. */
  lemma BalancesSumToZero(s: State, acts: seq<Action>, ids: seq<int>)
    requires Initial(s) && Feasible(s, acts)
    requires forall i, j :: 0 <= i < j < |ids| ==> ids[i] != ids[j]
    requires forall a :: a in Exec(s, acts).ledger.accounts ==> a in ids
    ensures SumBalances(ids, Exec(s, acts).ledger.rows) == 0
  {
    KeepAll(s, acts);
    SumAllRows(ids, Exec(s, acts).ledger.rows);
  }
}
