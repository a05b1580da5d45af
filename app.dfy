/** The account ledger held by the application root (App.tsx): the ordered
    trade list, the account record, and the operations that change them. */
module App {
  import opened Types

  /** The starting balance of a fresh journal. */
  const DefaultBalance: real := 10000.0

  /** `trades.filter(t => t.id !== id)`: the trades whose id differs, in order. */
  function WithoutId(ts: seq<Trade>, id: string): (r: seq<Trade>)
    ensures |r| <= |ts|
    ensures forall t :: t in r <==> t in ts && t.id != id
  {
    if ts == [] then []
    else if ts[0].id == id then WithoutId(ts[1..], id)
    else [ts[0]] + WithoutId(ts[1..], id)
  }

  /** Filtering works piece by piece, so the survivors keep their original order. */
  lemma {:induction false} WithoutIdAppend(a: seq<Trade>, b: seq<Trade>, id: string)
    ensures WithoutId(a + b, id) == WithoutId(a, id) + WithoutId(b, id)
  {
    if a == [] {
      assert a + b == b;
    } else {
      assert (a + b)[0] == a[0];
      assert (a + b)[1..] == a[1..] + b;
      WithoutIdAppend(a[1..], b, id);
    }
  }

  /** Deleting an id that no trade carries changes nothing. */
  lemma {:induction false} WithoutAbsentId(ts: seq<Trade>, id: string)
    requires forall t :: t in ts ==> t.id != id
    ensures WithoutId(ts, id) == ts
  {
    if ts != [] {
      assert ts[0] in ts;
      assert forall t :: t in ts[1..] ==> t in ts;
      WithoutAbsentId(ts[1..], id);
      assert [ts[0]] + ts[1..] == ts;
    }
  }

  /** Appending a trade with a fresh id and then deleting that id gives back
      the list before the append, and with it the same total pnl. */
  lemma AddThenDeleteRestores(ts: seq<Trade>, draft: TradeDraft, id: string)
    requires forall t :: t in ts ==> t.id != id
    ensures WithoutId(ts + [draft.WithId(id)], id) == ts
    ensures SumPnL(WithoutId(ts + [draft.WithId(id)], id)) == SumPnL(ts)
  {
    var t := draft.WithId(id);
    WithoutIdAppend(ts, [t], id);
    WithoutAbsentId(ts, id);
    assert WithoutId([t], id) == [];
  }

  /** The trade list and the account record of the application. */
  class Ledger {
    var trades: seq<Trade>
    var account: AccountState

    /** The balance invariant the recompute effect establishes:
        currentBalance = initialBalance + the pnl of every trade, open or closed. */
    predicate Settled()
      reads this
    {
      account.currentBalance == account.initialBalance + SumPnL(trades)
    }

    /** No trades and 10000 as both balances (App.tsx:13-18). */
    constructor ()
      ensures trades == []
      ensures account == AccountState(DefaultBalance, DefaultBalance)
      ensures Settled()
    {
      trades := [];
      account := AccountState(DefaultBalance, DefaultBalance);
    }

    /** `addTrade`: the draft, with the given id, goes at the end; the account
        record waits for the recompute effect. */
    method AddTrade(draft: TradeDraft, id: string)
      modifies this
      ensures trades == old(trades) + [draft.WithId(id)]
      ensures trades[|trades| - 1].id == id
      ensures account == old(account)
    {
      trades := trades + [draft.WithId(id)];
    }

    /** `deleteTrade`: every trade with that id goes, the rest keep their order. */
    method DeleteTrade(id: string)
      modifies this
      ensures trades == WithoutId(old(trades), id)
      ensures (forall t :: t in old(trades) ==> t.id != id) ==> trades == old(trades)
      ensures account == old(account)
    {
      if forall t :: t in trades ==> t.id != id {
        WithoutAbsentId(trades, id);
      }
      trades := WithoutId(trades, id);
    }

    /** `handleInitialBalanceChange`: only initialBalance is replaced. */
    method SetInitialBalance(value: real)
      modifies this
      ensures account == old(account).(initialBalance := value)
      ensures trades == old(trades)
    {
      account := account.(initialBalance := value);
    }

    /** The effect that runs after the trade list or initialBalance changes:
        currentBalance becomes initialBalance plus the total pnl; the trades
        and initialBalance stay as they are. */
    method RecomputeBalance()
      modifies this
      ensures Settled()
      ensures trades == old(trades)
      ensures account.initialBalance == old(account.initialBalance)
    {
      var totalPnL := SumPnL(trades);
      account := account.(currentBalance := account.initialBalance + totalPnL);
    }
  }
}
