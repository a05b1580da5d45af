/** The record shapes and closed enumerations of the trade journal
    (types.ts), plus the helpers every other module shares. */
module Types {

  datatype Option<T> = None | Some(value: T)

  /** Asset classes a trade can be logged under (types.ts:1-9). */
  datatype AssetClass = Forex | Crypto | Index | Commodity | Futures | Metals | Stocks

  /** Long buys first and sells later; Short the other way round (types.ts:11-14). */
  datatype TradeDirection = Long | Short

  /** Whether a trade has been closed yet (types.ts:16-19). */
  datatype TradeStatus = Open | Closed
  {
    /** The string value the enumeration member carries at run time. */
    function Name(): string
    {
      match this
      case Open => "Open"
      case Closed => "Closed"
    }
  }

  /** A calendar date as an ordered day number: the journal's dates are
      ISO `YYYY-MM-DD` strings, whose parsed times are ordered like this key. */
  type Day = int

  /** The value of a numeric form input: the empty string `''` or a number. */
  datatype NumInput = Blank | Number(value: real)

  /** A logged trade (types.ts:21-34). `pnl` is stored, not derived from the
      prices; `notes` and `fees` are optional and no computation reads `fees`. */
  datatype Trade = Trade(
    id: string,
    date: Day,
    assetClass: AssetClass,
    symbol: string,
    direction: TradeDirection,
    entryPrice: real,
    exitPrice: real,
    quantity: real,
    pnl: real,
    status: TradeStatus,
    notes: Option<string>,
    fees: Option<real>)
  {
    /** The trade with its identifier taken off. */
    function Draft(): TradeDraft
    {
      TradeDraft(date, assetClass, symbol, direction, entryPrice, exitPrice,
                 quantity, pnl, status, notes, fees)
    }
  }

  /** A trade before the ledger gives it an identifier: `Omit<Trade, 'id'>`. */
  datatype TradeDraft = TradeDraft(
    date: Day,
    assetClass: AssetClass,
    symbol: string,
    direction: TradeDirection,
    entryPrice: real,
    exitPrice: real,
    quantity: real,
    pnl: real,
    status: TradeStatus,
    notes: Option<string>,
    fees: Option<real>)
  {
    /** The spread `{ ...draft, id }`: the draft with the identifier added. */
    function WithId(id: string): (t: Trade)
      ensures t.id == id && t.Draft() == this
    {
      Trade(id, date, assetClass, symbol, direction, entryPrice, exitPrice,
            quantity, pnl, status, notes, fees)
    }
  }

  /** The account envelope around the trade list (types.ts:36-39). */
  datatype AccountState = AccountState(initialBalance: real, currentBalance: real)

  /** Every asset class, in declaration order: exactly seven, no repeats. */
  function AllAssetClasses(): (r: seq<AssetClass>)
    ensures |r| == 7
    ensures forall i, j :: 0 <= i < j < |r| ==> r[i] != r[j]
  {
    [Forex, Crypto, Index, Commodity, Futures, Metals, Stocks]
  }

  /** No asset class is missing from the list. */
  lemma AssetClassListed(a: AssetClass)
    ensures a in AllAssetClasses()
  {
    var all := AllAssetClasses();
    match a
    case Forex => assert all[0] == a;
    case Crypto => assert all[1] == a;
    case Index => assert all[2] == a;
    case Commodity => assert all[3] == a;
    case Futures => assert all[4] == a;
    case Metals => assert all[5] == a;
    case Stocks => assert all[6] == a;
  }

  /** Both directions and both statuses: exactly two values each. */
  lemma TwoDirectionsTwoStatuses(d: TradeDirection, s: TradeStatus)
    ensures d == Long || d == Short
    ensures Long != Short
    ensures s == Open || s == Closed
    ensures Open != Closed
  {
  }

  /** The run-time names of the statuses tell the two statuses apart, so a
      comparison with the string "Closed" selects exactly the Closed trades. */
  lemma StatusNameClosed(s: TradeStatus)
    ensures s.Name() == "Closed" <==> s == Closed
  {
    assert "Open"[0] != "Closed"[0];
  }

  /** Sum of the stored pnl values, folded from the left like
      `reduce((acc, t) => acc + t.pnl, 0)`. */
  function SumPnL(ts: seq<Trade>): real
  {
    if ts == [] then 0.0 else SumPnL(ts[..|ts| - 1]) + ts[|ts| - 1].pnl
  }

  /** The sum over a concatenation is the sum of the sums. */
  lemma {:induction false} SumPnLAppend(a: seq<Trade>, b: seq<Trade>)
    ensures SumPnL(a + b) == SumPnL(a) + SumPnL(b)
    decreases |b|
  {
    if b == [] {
      assert a + b == a;
    } else {
      assert (a + b)[..|a + b| - 1] == a + b[..|b| - 1];
      SumPnLAppend(a, b[..|b| - 1]);
    }
  }

  /** Appending a trade adds exactly its pnl to the sum. */
  lemma SumPnLSnoc(ts: seq<Trade>, t: Trade)
    ensures SumPnL(ts + [t]) == SumPnL(ts) + t.pnl
  {
    assert (ts + [t])[..|ts|] == ts;
  }

  /** The sum taken from the front: the first pnl plus the rest. */
  lemma SumPnLCons(t: Trade, s: seq<Trade>)
    ensures SumPnL([t] + s) == t.pnl + SumPnL(s)
  {
    SumPnLAppend([t], s);
    assert [t][..0] == [];
  }

  /** Multiplying by a positive factor keeps the sign. */
  lemma PositiveFactor(d: real, k: real)
    requires k > 0.0
    ensures d * k > 0.0 <==> d > 0.0
    ensures d * k < 0.0 <==> d < 0.0
  {
    if d > 0.0 {
      assert d * k > 0.0;
    } else if d < 0.0 {
      assert (-d) * k > 0.0;
    }
  }
}
