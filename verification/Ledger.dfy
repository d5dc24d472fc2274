/**
 The double-entry ledger as values: the tables it keeps (accounts, transactions,
 entries), the sums the code takes over them, and each ledger call executed
 atomically.  `LedgerService` implements these calls with loops over fields;
 `LedgerProtocol` executes them as interleaved database steps.
 */
module Ledger {
  import opened Wrappers

  datatype Side = Debit | Credit

  datatype Entry = Entry(account: int, amount: int, side: Side)

  datatype TxStatus = Pending | Completed | Failed

  datatype TxRow = TxRow(status: TxStatus, intent: Option<string>)

  /** One committed row of the Entry table. */
  datatype Posted = Posted(tx: nat, entry: Entry)

  /** `accounts` maps an account id to its allowNegative flag. */
  datatype Tables = Tables(accounts: map<int, bool>, txs: map<nat, TxRow>, rows: seq<Posted>)

  datatype LedgerError =
    | TooFewEntries
    | BadAmount(account: int)
    | Unbalanced
    | TxNotFound
    | NotPending(status: TxStatus)
    | AlreadyHasEntries
    | AccountNotFound(account: int)
    | InsufficientFunds(account: int, balance: int, required: int)
    | DuplicateIntent(intent: string)
    | ForeignKey
    | BadTerms
    | SplitMismatch

  // ---- Sums over entries ----

  function Signed(e: Entry): int {
    if e.side.Credit? then e.amount else -e.amount
  }

  /** Which committed rows a sum ranges over. */
  datatype Scope = Everything | OfAccount(account: int) | OfTx(tx: nat)

  predicate InScope(sc: Scope, p: Posted) {
    match sc
    case Everything => true
    case OfAccount(a) => p.entry.account == a
    case OfTx(t) => p.tx == t
  }

  /** SUM(CASE WHEN type = 'CREDIT' THEN amount ELSE -amount END) over a scope. */
  function Total(sc: Scope, rows: seq<Posted>): int {
    if rows == [] then 0
    else (if InScope(sc, rows[0]) then Signed(rows[0].entry) else 0) + Total(sc, rows[1..])
  }

  function Balance(rows: seq<Posted>, a: int): int {
    Total(OfAccount(a), rows)
  }

  function SideSum(side: Side, es: seq<Entry>): int {
    if es == [] then 0
    else (if es[0].side == side then es[0].amount else 0) + SideSum(side, es[1..])
  }

  /** What a batch takes out of one account, before its own credits. */
  function DebitTotal(es: seq<Entry>, a: int): int {
    if es == [] then 0
    else (if es[0].side.Debit? && es[0].account == a then es[0].amount else 0) + DebitTotal(es[1..], a)
  }

  function Post(tx: nat, es: seq<Entry>): seq<Posted> {
    seq(|es|, i requires 0 <= i < |es| => Posted(tx, es[i]))
  }

  predicate HasEntries(rows: seq<Posted>, t: nat) {
    exists i :: 0 <= i < |rows| && rows[i].tx == t
  }

  predicate IntentTaken(txs: map<nat, TxRow>, k: string) {
    exists t :: t in txs && txs[t].intent == Some(k)
  }

  // ---- Validation before the database transaction ----

  function FirstBad(es: seq<Entry>): Option<int> {
    if es == [] then None
    else if es[0].amount < 0 then Some(es[0].account)
    else FirstBad(es[1..])
  }

  function Validate(es: seq<Entry>): Option<LedgerError> {
    if |es| < 2 then Some(TooFewEntries)
    else if FirstBad(es).Some? then Some(BadAmount(FirstBad(es).value))
    else if SideSum(Debit, es) != SideSum(Credit, es) then Some(Unbalanced)
    else None
  }

  // ---- The debited accounts, ascending ----

  ghost predicate AscendingIds(s: seq<int>) {
    forall i, j :: 0 <= i < j < |s| ==> s[i] < s[j]
  }

  lemma Cons(a: int, s: seq<int>)
    requires AscendingIds(s) && forall x :: x in s ==> a < x
    ensures AscendingIds([a] + s)
    ensures forall x :: x in [a] + s <==> x == a || x in s
  {
    forall i, j | 0 <= i < j < |[a] + s| ensures ([a] + s)[i] < ([a] + s)[j] {
      assert ([a] + s)[j] == s[j - 1] && s[j - 1] in s;
    }
  }

  lemma HeadBelow(s: seq<int>)
    requires AscendingIds(s) && s != []
    ensures AscendingIds(s[1..])
    ensures forall x :: x in s[1..] ==> s[0] < x
    ensures forall x :: x in s <==> x == s[0] || x in s[1..]
  {
    assert s == [s[0]] + s[1..];
  }

  function InsertId(a: int, s: seq<int>): (r: seq<int>)
    requires AscendingIds(s)
    ensures AscendingIds(r)
    ensures forall x :: x in r <==> x == a || x in s
  {
    if s == [] then [a]
    else
      HeadBelow(s);
      if a < s[0] then
        Cons(a, s);
        [a] + s
      else if a == s[0] then s
      else
        var rest := InsertId(a, s[1..]);
        Cons(s[0], rest);
        [s[0]] + rest
  }

  predicate Debits(es: seq<Entry>, a: int) {
    exists i :: 0 <= i < |es| && es[i].side.Debit? && es[i].account == a
  }

  /** The set of debited account ids in ascending order. */
  function DebitIds(es: seq<Entry>): (ids: seq<int>)
    ensures AscendingIds(ids)
    ensures forall a :: a in ids <==> Debits(es, a)
  {
    if es == [] then []
    else
      var rest := DebitIds(es[1..]);
      assert forall a :: Debits(es, a) <==> (es[0].side.Debit? && es[0].account == a) || Debits(es[1..], a) by {
        forall a ensures Debits(es, a) <==> (es[0].side.Debit? && es[0].account == a) || Debits(es[1..], a) {
          if Debits(es, a) {
            var i :| 0 <= i < |es| && es[i].side.Debit? && es[i].account == a;
            if i > 0 { assert es[1..][i - 1] == es[i]; }
          }
          if Debits(es[1..], a) {
            var i :| 0 <= i < |es[1..]| && es[1..][i].side.Debit? && es[1..][i].account == a;
            assert es[i + 1] == es[1..][i];
          }
        }
      }
      if es[0].side.Debit? then InsertId(es[0].account, rest) else rest
  }

  // ---- Each call, executed atomically ----

  /** The guard of one turn of the locking loop, on the committed balance. */
  function FundsError(l: Tables, es: seq<Entry>, a: int): Option<LedgerError> {
    if a !in l.accounts then Some(AccountNotFound(a))
    else if Balance(l.rows, a) - DebitTotal(es, a) < 0 && !l.accounts[a] then
      Some(InsufficientFunds(a, Balance(l.rows, a), DebitTotal(es, a)))
    else None
  }

  function CheckFunds(l: Tables, es: seq<Entry>, ids: seq<int>): Option<LedgerError> {
    if ids == [] then None
    else if FundsError(l, es, ids[0]).Some? then FundsError(l, es, ids[0])
    else CheckFunds(l, es, ids[1..])
  }

  predicate AccountsExist(l: Tables, es: seq<Entry>) {
    forall i :: 0 <= i < |es| ==> es[i].account in l.accounts
  }

  function AtomicCreate(l: Tables, es: seq<Entry>, intent: Option<string>, id: nat): Result<Tables, LedgerError> {
    if Validate(es).Some? then Err(Validate(es).value)
    else if CheckFunds(l, es, DebitIds(es)).Some? then Err(CheckFunds(l, es, DebitIds(es)).value)
    else if intent.Some? && IntentTaken(l.txs, intent.value) then Err(DuplicateIntent(intent.value))
    else if !AccountsExist(l, es) then Err(ForeignKey)
    else Ok(l.(txs := l.txs[id := TxRow(Pending, intent)], rows := l.rows + Post(id, es)))
  }

  /** The two checks a settlement makes before it takes any lock. */
  function SettleGuard(l: Tables, t: nat): Option<LedgerError> {
    if t !in l.txs then Some(TxNotFound)
    else if !l.txs[t].status.Pending? then Some(NotPending(l.txs[t].status))
    else if HasEntries(l.rows, t) then Some(AlreadyHasEntries)
    else None
  }

  /** A settlement from its locking loop on, with no further look at the transaction row. */
  function AtomicPost(l: Tables, es: seq<Entry>, t: nat): Result<Tables, LedgerError>
    requires t in l.txs
  {
    if CheckFunds(l, es, DebitIds(es)).Some? then Err(CheckFunds(l, es, DebitIds(es)).value)
    else if !AccountsExist(l, es) then Err(ForeignKey)
    else Ok(l.(txs := l.txs[t := l.txs[t].(status := Completed)], rows := l.rows + Post(t, es)))
  }

  function AtomicSettle(l: Tables, es: seq<Entry>, t: nat): Result<Tables, LedgerError> {
    if Validate(es).Some? then Err(Validate(es).value)
    else if SettleGuard(l, t).Some? then Err(SettleGuard(l, t).value)
    else AtomicPost(l, es, t)
  }

  // ---- Payout postings ----

  /** What a payout moves, and between which accounts. */
  datatype Terms = Terms(amount: int, fee: int, sellerAmount: int, escrow: int, seller: int, platform: int)

  function TermsError(p: Terms): Option<LedgerError> {
    if p.amount < 0 || p.fee < 0 || p.sellerAmount < 0 then Some(BadTerms)
    else if p.fee + p.sellerAmount != p.amount then Some(SplitMismatch)
    else None
  }

  function ReleaseEntries(p: Terms): seq<Entry> {
    [Entry(p.escrow, p.amount, Debit), Entry(p.seller, p.sellerAmount, Credit), Entry(p.platform, p.fee, Credit)]
  }

  function ReversalEntries(p: Terms): seq<Entry> {
    [Entry(p.seller, p.sellerAmount, Debit), Entry(p.platform, p.fee, Debit), Entry(p.escrow, p.amount, Credit)]
  }

  function AtomicRelease(l: Tables, p: Terms, id: nat): Result<Tables, LedgerError> {
    if TermsError(p).Some? then Err(TermsError(p).value) else AtomicCreate(l, ReleaseEntries(p), None, id)
  }

  function AtomicReversal(l: Tables, p: Terms, id: nat): Result<Tables, LedgerError> {
    if TermsError(p).Some? then Err(TermsError(p).value) else AtomicCreate(l, ReversalEntries(p), None, id)
  }

  // ---- Laws of the sums ----

  lemma {:induction false} TotalAppend(sc: Scope, r1: seq<Posted>, r2: seq<Posted>)
    ensures Total(sc, r1 + r2) == Total(sc, r1) + Total(sc, r2)
  {
    if r1 == [] {
      assert r1 + r2 == r2;
    } else {
      assert (r1 + r2)[1..] == r1[1..] + r2;
      TotalAppend(sc, r1[1..], r2);
    }
  }

  lemma PostTail(t: nat, es: seq<Entry>)
    requires es != []
    ensures Post(t, es)[0] == Posted(t, es[0]) && Post(t, es)[1..] == Post(t, es[1..])
  {
  }

  /** A validated batch nets to zero overall. */
  lemma {:induction false} PostEverything(t: nat, es: seq<Entry>)
    ensures Total(Everything, Post(t, es)) == SideSum(Credit, es) - SideSum(Debit, es)
  {
    if es != [] {
      PostTail(t, es);
      PostEverything(t, es[1..]);
    }
  }

  lemma {:induction false} PostOfTx(t: nat, es: seq<Entry>, u: nat)
    ensures Total(OfTx(u), Post(t, es)) == if u == t then SideSum(Credit, es) - SideSum(Debit, es) else 0
  {
    if es != [] {
      PostTail(t, es);
      PostOfTx(t, es[1..], u);
    }
  }

  ghost predicate NonNegative(es: seq<Entry>) {
    forall i :: 0 <= i < |es| ==> es[i].amount >= 0
  }

  lemma {:induction false} FirstBadFinds(es: seq<Entry>)
    ensures FirstBad(es).None? <==> NonNegative(es)
  {
    if es != [] {
      FirstBadFinds(es[1..]);
      assert NonNegative(es) <==> es[0].amount >= 0 && NonNegative(es[1..]) by {
        if es[0].amount >= 0 && NonNegative(es[1..]) {
          forall i | 0 <= i < |es| ensures es[i].amount >= 0 {
            if i > 0 { assert es[i] == es[1..][i - 1]; }
          }
        }
      }
    }
  }

  /** A batch lowers an account by at most what it debits there. */
  lemma {:induction false} PostOfAccount(t: nat, es: seq<Entry>, a: int)
    requires NonNegative(es)
    ensures Total(OfAccount(a), Post(t, es)) >= -DebitTotal(es, a)
    ensures DebitTotal(es, a) >= 0
    ensures !Debits(es, a) ==> DebitTotal(es, a) == 0
  {
    if es != [] {
      PostTail(t, es);
      PostOfAccount(t, es[1..], a);
      if Debits(es[1..], a) {
        var i :| 0 <= i < |es[1..]| && es[1..][i].side.Debit? && es[1..][i].account == a;
        assert es[i + 1] == es[1..][i];
      }
    }
  }

  lemma PostHasEntries(rows: seq<Posted>, t: nat, es: seq<Entry>, u: nat)
    requires es != []
    ensures HasEntries(rows + Post(t, es), u) <==> HasEntries(rows, u) || u == t
  {
    var all := rows + Post(t, es);
    if HasEntries(rows, u) {
      var i :| 0 <= i < |rows| && rows[i].tx == u;
      assert all[i].tx == u;
    }
    assert all[|rows|].tx == t;
  }

  /** The funds loop passes exactly when every single account passes. */
  lemma {:induction false} FundsPass(l: Tables, es: seq<Entry>, ids: seq<int>)
    ensures CheckFunds(l, es, ids).None? <==> forall k :: 0 <= k < |ids| ==> FundsError(l, es, ids[k]).None?
  {
    if ids != [] {
      FundsPass(l, es, ids[1..]);
      assert forall k :: 0 < k < |ids| ==> ids[k] == ids[1..][k - 1];
      if CheckFunds(l, es, ids).None? {
        forall k | 0 <= k < |ids| ensures FundsError(l, es, ids[k]).None? {
          if k > 0 { assert ids[k] == ids[1..][k - 1]; }
        }
      } else if FundsError(l, es, ids[0]).None? {
        var k :| 0 <= k < |ids[1..]| && !FundsError(l, es, ids[1..][k]).None?;
        assert ids[k + 1] == ids[1..][k];
      }
    }
  }

  /** When the first i accounts pass, the loop's verdict is that of the rest. */
  lemma {:induction false} FundsSkip(l: Tables, es: seq<Entry>, ids: seq<int>, i: nat)
    requires i <= |ids|
    requires forall k :: 0 <= k < i ==> FundsError(l, es, ids[k]).None?
    ensures CheckFunds(l, es, ids) == CheckFunds(l, es, ids[i..])
  {
    if i > 0 {
      forall k | 0 <= k < i - 1 ensures FundsError(l, es, ids[1..][k]).None? {
        assert ids[1..][k] == ids[k + 1];
      }
      FundsSkip(l, es, ids[1..], i - 1);
      assert ids[1..][i - 1..] == ids[i..];
    } else {
      assert ids[0..] == ids;
    }
  }
}
