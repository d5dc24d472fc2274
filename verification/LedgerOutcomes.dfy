/**
 What each ledger call answers and leaves behind, in terms of its entries and the
 balances before it.
 */
module LedgerOutcomes {
  import opened Wrappers
  import opened Ledger
  import opened LedgerProtocol

  /** At least two entries, none negative, and debits equal to credits. */
  ghost predicate WellFormed(es: seq<Entry>) {
    |es| >= 2 && NonNegative(es) && Total(Everything, Post(0, es)) == 0
  }

  /** The batch's checks, in order: too short, a negative amount (its account named), not balanced. */
  lemma ValidateIs(es: seq<Entry>)
    ensures Validate(es).None? <==> WellFormed(es)
    ensures Validate(es) == Some(TooFewEntries) <==> |es| < 2
    ensures Validate(es) == Some(Unbalanced) <==>
            |es| >= 2 && NonNegative(es) && Total(Everything, Post(0, es)) != 0
    ensures Validate(es).Some? && Validate(es).value.BadAmount? ==>
            exists i :: 0 <= i < |es| && es[i].amount < 0 && es[i].account == Validate(es).value.account
                        && forall j :: 0 <= j < i ==> es[j].amount >= 0
  {
    FirstBadFinds(es);
    PostEverything(0, es);
    if FirstBad(es).Some? {
      var i := FirstBadAt(es);
    }
  }

  lemma {:induction false} FirstBadAt(es: seq<Entry>) returns (i: nat)
    requires FirstBad(es).Some?
    ensures i < |es| && es[i].amount < 0 && es[i].account == FirstBad(es).value
    ensures forall j :: 0 <= j < i ==> es[j].amount >= 0
  {
    if es[0].amount < 0 {
      i := 0;
    } else {
      var k := FirstBadAt(es[1..]);
      i := k + 1;
      assert forall j :: 0 < j < i ==> es[j] == es[1..][j - 1];
    }
  }

  /** What a batch takes out of an account: its debits there, summed. */
  function Taken(es: seq<Entry>, a: int): int {
    -Total(OfAccount(a), Post(0, DebitsOnly(es)))
  }

  function DebitsOnly(es: seq<Entry>): seq<Entry> {
    if es == [] then [] else (if es[0].side.Debit? then [es[0]] else []) + DebitsOnly(es[1..])
  }

  lemma {:induction false} TakenIs(es: seq<Entry>, a: int)
    ensures DebitTotal(es, a) == Taken(es, a)
  {
    if es != [] {
      TakenIs(es[1..], a);
      if es[0].side.Debit? {
        assert DebitsOnly(es) == [es[0]] + DebitsOnly(es[1..]);
        PostTail(0, DebitsOnly(es));
        assert DebitsOnly(es)[1..] == DebitsOnly(es[1..]);
      } else {
        assert DebitsOnly(es) == DebitsOnly(es[1..]);
      }
    }
  }

  /** Every debited account exists and may go negative or holds what is taken from it. */
  ghost predicate Affordable(l: Tables, es: seq<Entry>) {
    forall a :: Debits(es, a) ==> a in l.accounts && (l.accounts[a] || Balance(l.rows, a) >= Taken(es, a))
  }

  lemma FundsAre(l: Tables, es: seq<Entry>)
    ensures CheckFunds(l, es, DebitIds(es)).None? <==> Affordable(l, es)
  {
    var ids := DebitIds(es);
    FundsPass(l, es, ids);
    forall a | Debits(es, a) ensures FundsError(l, es, a).None? <==>
      a in l.accounts && (l.accounts[a] || Balance(l.rows, a) >= Taken(es, a))
    {
      TakenIs(es, a);
    }
    if Affordable(l, es) {
      forall k | 0 <= k < |ids| ensures FundsError(l, es, ids[k]).None? {
        assert ids[k] in ids;
      }
    }
    if forall k :: 0 <= k < |ids| ==> FundsError(l, es, ids[k]).None? {
      forall a | Debits(es, a) ensures FundsError(l, es, a).None? {
        assert a in ids;
      }
    }
  }

  /**
   A refusal for lack of funds names the lowest account that cannot pay, with its
   balance and what it should have paid.
   */
  lemma {:induction false} RefusalNames(l: Tables, es: seq<Entry>, ids: seq<int>)
    requires CheckFunds(l, es, ids).Some? && AscendingIds(ids)
    ensures var e := CheckFunds(l, es, ids).value;
      && (e.InsufficientFunds? || e.AccountNotFound?) && e.account in ids
      && (forall a :: a in ids && a < e.account ==> FundsError(l, es, a).None?)
      && (e.AccountNotFound? ==> e.account !in l.accounts)
      && (e.InsufficientFunds? ==>
            && e.account in l.accounts && !l.accounts[e.account]
            && e.balance == Balance(l.rows, e.account) && e.required == Taken(es, e.account) && e.balance < e.required)
  {
    if FundsError(l, es, ids[0]).Some? {
      TakenIs(es, ids[0]);
    } else {
      RefusalNames(l, es, ids[1..]);
      assert forall a :: a in ids <==> a == ids[0] || a in ids[1..];
    }
  }

  /** The rows grow by exactly the batch, under transaction t. */
  predicate Appends(l: Tables, l': Tables, t: nat, es: seq<Entry>) {
    && l'.accounts == l.accounts && |l'.rows| == |l.rows| + |es| && l'.rows[..|l.rows|] == l.rows
    && forall i :: 0 <= i < |es| ==> l'.rows[|l.rows| + i] == Posted(t, es[i])
  }

  predicate IntentFree(l: Tables, intent: Option<string>) {
    intent.Some? ==> forall t :: t in l.txs ==> l.txs[t].intent != intent
  }

  /** createTransaction: when it goes through, and the transaction and rows it adds. */
  lemma CreateOutcome(l: Tables, es: seq<Entry>, intent: Option<string>, id: nat)
    ensures var r := AtomicCreate(l, es, intent, id);
      && (r.Ok? <==> WellFormed(es) && Affordable(l, es) && IntentFree(l, intent) && AccountsExist(l, es))
      && (r.Ok? ==> Appends(l, r.value, id, es) && r.value.txs == l.txs[id := TxRow(Pending, intent)])
  {
    ValidateIs(es);
    FundsAre(l, es);
  }

  /** settleTransaction: when it goes through, and what it adds and completes. */
  lemma SettleOutcome(l: Tables, es: seq<Entry>, t: nat)
    ensures var r := AtomicSettle(l, es, t);
      && (r.Ok? <==>
            && WellFormed(es) && t in l.txs && l.txs[t].status == Pending
            && (forall i :: 0 <= i < |l.rows| ==> l.rows[i].tx != t)
            && Affordable(l, es) && AccountsExist(l, es))
      && (r.Ok? ==> Appends(l, r.value, t, es) && r.value.txs == l.txs[t := TxRow(Completed, l.txs[t].intent)])
      && (r == Err(TxNotFound) <==> WellFormed(es) && t !in l.txs)
      && (WellFormed(es) && t in l.txs && l.txs[t].status != Pending ==> r == Err(NotPending(l.txs[t].status)))
  {
    ValidateIs(es);
    FundsAre(l, es);
    if CheckFunds(l, es, DebitIds(es)).Some? {
      RefusalNames(l, es, DebitIds(es));
    }
  }

  /** The terms of a payout posting are refused exactly for a negative part or a split that does not add up. */
  lemma TermsAre(p: Terms)
    ensures TermsError(p).None? <==>
            p.amount >= 0 && p.fee >= 0 && p.sellerAmount >= 0 && p.fee + p.sellerAmount == p.amount
    ensures TermsError(p) == Some(SplitMismatch) <==>
            p.amount >= 0 && p.fee >= 0 && p.sellerAmount >= 0 && p.fee + p.sellerAmount != p.amount
  {
  }
}
