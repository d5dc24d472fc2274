/** The ledger service: the calls as the code performs them, updating its tables in place. */
module LedgerService {
  import opened Wrappers
  import opened Ledger

  class LedgerService {
    var accounts: map<int, bool>
    var txs: map<nat, TxRow>
    var rows: seq<Posted>
    var nextTx: nat

    /** Ids come from a sequence, so every row's id lies below its next value. */
    ghost predicate Valid()
      reads this
    {
      forall t :: t in txs ==> t < nextTx
    }

    function Contents(): Tables
      reads this
    {
      Tables(accounts, txs, rows)
    }

    method CheckEntries(es: seq<Entry>) returns (error: Option<LedgerError>)
      ensures error == Validate(es)
    {
      if |es| < 2 {
        return Some(TooFewEntries);
      }
      for i := 0 to |es|
        invariant FirstBad(es[i..]) == FirstBad(es)
      {
        if es[i].amount < 0 {
          return Some(BadAmount(es[i].account));
        }
      }
      var sumOfDebit, sumOfCredit := 0, 0;
      for i := 0 to |es|
        invariant sumOfDebit + SideSum(Debit, es[i..]) == SideSum(Debit, es)
        invariant sumOfCredit + SideSum(Credit, es[i..]) == SideSum(Credit, es)
      {
        if es[i].side.Credit? {
          sumOfCredit := sumOfCredit + es[i].amount;
        }
        if es[i].side.Debit? {
          sumOfDebit := sumOfDebit + es[i].amount;
        }
      }
      if sumOfDebit != sumOfCredit {
        return Some(Unbalanced);
      }
      return None;
    }

    /** The locking loop: locks are uncontended when calls do not overlap, so only the balances matter. */
    method CheckBalances(es: seq<Entry>) returns (error: Option<LedgerError>)
      ensures error == CheckFunds(Contents(), es, DebitIds(es))
    {
      var ids := DebitIds(es);
      for i := 0 to |ids|
        invariant CheckFunds(Contents(), es, ids[i..]) == CheckFunds(Contents(), es, ids)
      {
        var a := ids[i];
        if a !in accounts {
          return Some(AccountNotFound(a));
        }
        var balance := Balance(rows, a);
        var totalDebit := DebitTotal(es, a);
        if balance - totalDebit < 0 && !accounts[a] {
          return Some(InsufficientFunds(a, balance, totalDebit));
        }
      }
      return None;
    }

    method CreateTransaction(es: seq<Entry>, intent: Option<string>) returns (r: Result<nat, LedgerError>)
      requires Valid()
      modifies this
      ensures Valid() && old(nextTx) <= nextTx && (r.Ok? ==> nextTx == old(nextTx) + 1)
      ensures match AtomicCreate(old(Contents()), es, intent, old(nextTx))
              case Ok(l) => r == Ok(old(nextTx)) && Contents() == l
              case Err(e) => r == Err(e) && Contents() == old(Contents())
    {
      var error := CheckEntries(es);
      if error.Some? {
        return Err(error.value);
      }
      error := CheckBalances(es);
      if error.Some? {
        return Err(error.value);
      }
      var id := nextTx;
      nextTx := nextTx + 1;
      if intent.Some? && IntentTaken(txs, intent.value) {
        return Err(DuplicateIntent(intent.value));
      }
      if !AccountsExist(Contents(), es) {
        return Err(ForeignKey);
      }
      txs := txs[id := TxRow(Pending, intent)];
      rows := rows + Post(id, es);
      return Ok(id);
    }

    method SettleTransaction(t: nat, es: seq<Entry>) returns (r: Result<nat, LedgerError>)
      requires Valid()
      modifies this
      ensures Valid() && old(nextTx) <= nextTx
      ensures match AtomicSettle(old(Contents()), es, t)
              case Ok(l) => r == Ok(t) && Contents() == l
              case Err(e) => r == Err(e) && Contents() == old(Contents())
    {
      var error := CheckEntries(es);
      if error.Some? {
        return Err(error.value);
      }
      if t !in txs {
        return Err(TxNotFound);
      }
      if txs[t].status != Pending {
        return Err(NotPending(txs[t].status));
      }
      if HasEntries(rows, t) {
        return Err(AlreadyHasEntries);
      }
      error := CheckBalances(es);
      if error.Some? {
        return Err(error.value);
      }
      if !AccountsExist(Contents(), es) {
        return Err(ForeignKey);
      }
      rows := rows + Post(t, es);
      txs := txs[t := txs[t].(status := Completed)];
      return Ok(t);
    }

    method ReleasePayout(p: Terms) returns (r: Result<nat, LedgerError>)
      requires Valid()
      modifies this
      ensures Valid() && old(nextTx) <= nextTx && (r.Ok? ==> nextTx == old(nextTx) + 1)
      ensures match AtomicRelease(old(Contents()), p, old(nextTx))
              case Ok(l) => r == Ok(old(nextTx)) && Contents() == l
              case Err(e) => r == Err(e) && Contents() == old(Contents())
    {
      if TermsError(p).Some? {
        return Err(TermsError(p).value);
      }
      r := CreateTransaction(ReleaseEntries(p), None);
    }

    method ReversePayout(p: Terms) returns (r: Result<nat, LedgerError>)
      requires Valid()
      modifies this
      ensures Valid() && old(nextTx) <= nextTx && (r.Ok? ==> nextTx == old(nextTx) + 1)
      ensures match AtomicReversal(old(Contents()), p, old(nextTx))
              case Ok(l) => r == Ok(old(nextTx)) && Contents() == l
              case Err(e) => r == Err(e) && Contents() == old(Contents())
    {
      if TermsError(p).Some? {
        return Err(TermsError(p).value);
      }
      r := CreateTransaction(ReversalEntries(p), None);
    }
  }
}
