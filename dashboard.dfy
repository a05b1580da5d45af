/** The dashboard's derived figures (components/Dashboard.tsx): statistics
    over the closed trades and the equity curve behind the balance chart. */
module Dashboard {
  import opened Types

  /** `trades.filter(t => t.status === 'Closed')`, in the list's order. */
  function ClosedTrades(ts: seq<Trade>): (r: seq<Trade>)
    ensures |r| <= |ts|
    ensures forall t :: t in r <==> t in ts && t.status == Closed
  {
    if ts == [] then []
    else if ts[0].status == Closed then [ts[0]] + ClosedTrades(ts[1..])
    else ClosedTrades(ts[1..])
  }

  /** Number of trades with pnl > 0. */
  function CountWins(ts: seq<Trade>): nat
  {
    if ts == [] then 0 else (if ts[0].pnl > 0.0 then 1 else 0) + CountWins(ts[1..])
  }

  /** Number of trades with pnl <= 0: a breakeven trade is a loss. */
  function CountLosses(ts: seq<Trade>): nat
  {
    if ts == [] then 0 else (if ts[0].pnl <= 0.0 then 1 else 0) + CountLosses(ts[1..])
  }

  /** Sum of the positive pnl values. */
  function GrossProfit(ts: seq<Trade>): real
  {
    if ts == [] then 0.0 else (if ts[0].pnl > 0.0 then ts[0].pnl else 0.0) + GrossProfit(ts[1..])
  }

  /** Sum of the negative pnl values. */
  function GrossLoss(ts: seq<Trade>): real
  {
    if ts == [] then 0.0 else (if ts[0].pnl < 0.0 then ts[0].pnl else 0.0) + GrossLoss(ts[1..])
  }

  /** Every trade is a win or a loss and not both. */
  lemma {:induction false} WinsPlusLosses(ts: seq<Trade>)
    ensures CountWins(ts) + CountLosses(ts) == |ts|
  {
    if ts != [] {
      WinsPlusLosses(ts[1..]);
    }
  }

  /** There are no losses exactly when every trade has a positive pnl. */
  lemma {:induction false} NoLossesIffAllWin(ts: seq<Trade>)
    ensures CountLosses(ts) == 0 <==> forall t :: t in ts ==> t.pnl > 0.0
  {
    if ts != [] {
      NoLossesIffAllWin(ts[1..]);
      assert forall t :: t in ts <==> t == ts[0] || t in ts[1..];
    }
  }

  /** Gross profit is never negative, and is positive exactly when some trade won. */
  lemma {:induction false} GrossProfitSign(ts: seq<Trade>)
    ensures GrossProfit(ts) >= 0.0
    ensures GrossProfit(ts) > 0.0 <==> CountWins(ts) > 0
  {
    if ts != [] {
      GrossProfitSign(ts[1..]);
    }
  }

  /** Gross loss is never positive, and is zero exactly when no trade has pnl < 0. */
  lemma {:induction false} GrossLossSign(ts: seq<Trade>)
    ensures GrossLoss(ts) <= 0.0
    ensures GrossLoss(ts) == 0.0 <==> forall t :: t in ts ==> t.pnl >= 0.0
  {
    if ts != [] {
      GrossLossSign(ts[1..]);
      assert forall t :: t in ts <==> t == ts[0] || t in ts[1..];
    }
  }

  /** Total pnl splits into gross profit plus gross loss. */
  lemma {:induction false} GrossSplit(ts: seq<Trade>)
    ensures SumPnL(ts) == GrossProfit(ts) + GrossLoss(ts)
  {
    if ts != [] {
      GrossSplit(ts[1..]);
      SumPnLCons(ts[0], ts[1..]);
      assert [ts[0]] + ts[1..] == ts;
    }
  }

  /** A number the dashboard can show, or one of the non-finite results of a
      JavaScript division by zero (each shown as ∞). */
  datatype ProfitFactor = Ratio(value: real) | PosInfinity | NegInfinity | NotANumber
  {
    predicate IsFinite() { Ratio? }
  }

  /** JavaScript's `num / den` for a denominator that is never negative. */
  function Divide(num: real, den: real): (q: ProfitFactor)
    requires den >= 0.0
    ensures q.IsFinite() <==> den > 0.0
    ensures den > 0.0 ==> q.value * den == num
  {
    if den > 0.0 then Ratio(num / den)
    else if num > 0.0 then PosInfinity
    else if num < 0.0 then NegInfinity
    else NotANumber
  }

  /** `totalTrades > 0 ? (wins / totalTrades) * 100 : 0`: a percentage of the
      trades that won, 0 when there are none. */
  function WinRate(wins: nat, totalTrades: nat): (r: real)
    requires wins <= totalTrades
    ensures totalTrades == 0 ==> r == 0.0
    ensures totalTrades > 0 ==> r * (totalTrades as real) == (wins as real) * 100.0
    ensures 0.0 <= r <= 100.0
  {
    if totalTrades > 0 then
      var q := (wins as real) / (totalTrades as real);
      assert q * (totalTrades as real) == wins as real;
      q * 100.0
    else 0.0
  }

  /** `losses === 0 ? wins : grossProfit / Math.abs(grossLoss)` over the closed trades. */
  function ProfitFactorOf(closed: seq<Trade>): (pf: ProfitFactor)
    ensures CountLosses(closed) == 0 ==> pf == Ratio(CountWins(closed) as real)
  {
    GrossLossSign(closed);
    if CountLosses(closed) == 0 then Ratio(CountWins(closed) as real)
    else Divide(GrossProfit(closed), -GrossLoss(closed))
  }

  /** With losses, the profit factor is the ratio of gross profit to the size of
      gross loss, a finite number at least 0 when some trade lost money, and
      non-finite when every loss was breakeven. */
  lemma ProfitFactorWithLosses(closed: seq<Trade>)
    requires CountLosses(closed) > 0
    ensures (exists t :: t in closed && t.pnl < 0.0) ==>
      && ProfitFactorOf(closed).Ratio?
      && ProfitFactorOf(closed).value >= 0.0
      && ProfitFactorOf(closed).value * -GrossLoss(closed) == GrossProfit(closed)
    ensures (forall t :: t in closed ==> t.pnl >= 0.0) ==> !ProfitFactorOf(closed).IsFinite()
  {
    GrossLossSign(closed);
    GrossProfitSign(closed);
    var gp, gl := GrossProfit(closed), -GrossLoss(closed);
    if gl > 0.0 {
      assert (gp / gl) * gl == gp;
    }
  }

  /** The figures of the statistics cards (components/Dashboard.tsx:15-25). */
  datatype Stats = Stats(
    totalTrades: nat,
    wins: nat,
    losses: nat,
    winRate: real,
    totalPnL: real,
    profitFactor: ProfitFactor)

  /** The `stats` computation: everything is taken over the closed trades only. */
  function ComputeStats(ts: seq<Trade>): (s: Stats)
    ensures s.totalTrades == |ClosedTrades(ts)|
    ensures s.wins == CountWins(ClosedTrades(ts)) && s.losses == CountLosses(ClosedTrades(ts))
    ensures s.wins + s.losses == s.totalTrades
    ensures s.winRate == WinRate(s.wins, s.totalTrades)
    ensures s.totalTrades == 0 ==> s.winRate == 0.0
    ensures 0.0 <= s.winRate <= 100.0
    ensures s.totalPnL == SumPnL(ClosedTrades(ts))
    ensures s.profitFactor == ProfitFactorOf(ClosedTrades(ts))
    ensures s.losses == 0 ==> s.profitFactor == Ratio(s.wins as real)
  {
    var closed := ClosedTrades(ts);
    WinsPlusLosses(closed);
    var totalTrades := |closed|;
    var wins := CountWins(closed);
    Stats(totalTrades, wins, CountLosses(closed), WinRate(wins, totalTrades),
          SumPnL(closed), ProfitFactorOf(closed))
  }

  /** The total pnl of the statistics is gross profit plus gross loss. */
  lemma TotalIsProfitPlusLoss(ts: seq<Trade>)
    ensures ComputeStats(ts).totalPnL
         == GrossProfit(ClosedTrades(ts)) + GrossLoss(ClosedTrades(ts))
  {
    GrossSplit(ClosedTrades(ts));
  }

  /** Open trades do not enter the statistics: appending one changes nothing. */
  lemma {:induction false} OpenTradeIgnored(ts: seq<Trade>, t: Trade)
    requires t.status == Open
    ensures ClosedTrades(ts + [t]) == ClosedTrades(ts)
    ensures ComputeStats(ts + [t]) == ComputeStats(ts)
  {
    ClosedAppend(ts, [t]);
    assert ClosedTrades([t]) == [];
    assert ClosedTrades(ts) + [] == ClosedTrades(ts);
  }

  /** Filtering for closed trades works piece by piece. */
  lemma {:induction false} ClosedAppend(a: seq<Trade>, b: seq<Trade>)
    ensures ClosedTrades(a + b) == ClosedTrades(a) + ClosedTrades(b)
  {
    if a == [] {
      assert a + b == b;
    } else {
      assert (a + b)[0] == a[0];
      assert (a + b)[1..] == a[1..] + b;
      ClosedAppend(a[1..], b);
    }
  }

  /** Losses with no negative pnl make the profit factor non-finite: a single
      breakeven trade next to a winner turns a profit factor of 1 into ∞. */
  lemma BreakevenMakesProfitFactorInfinite(win: Trade, flat: Trade)
    requires win.status == Closed && win.pnl > 0.0
    requires flat.status == Closed && flat.pnl == 0.0
    ensures ComputeStats([win]).profitFactor == Ratio(1.0)
    ensures ComputeStats([win, flat]).profitFactor == PosInfinity
  {
    assert ClosedTrades([win]) == [win];
    assert [win][1..] == [];
    assert [win, flat][1..] == [flat];
    assert [flat][1..] == [];
    assert ClosedTrades([win, flat]) == [win, flat];
    assert CountLosses([flat]) == 1;
    assert CountLosses([win, flat]) == 1;
    assert GrossProfit([flat]) == 0.0;
    assert GrossLoss([flat]) == 0.0;
    assert GrossProfit([win, flat]) == win.pnl;
    assert GrossLoss([win, flat]) == 0.0;
  }

  /** A winner of 500 and a loser of -200: total 300, half the trades won, and
      the profit factor is 500 / 200. */
  lemma WinnerAndLoserExample(win: Trade, loss: Trade)
    requires win.status == Closed && win.pnl == 500.0
    requires loss.status == Closed && loss.pnl == -200.0
    ensures ComputeStats([win, loss]) == Stats(2, 1, 1, 50.0, 300.0, Ratio(2.5))
  {
    assert [win, loss][1..] == [loss];
    assert [loss][1..] == [];
    assert ClosedTrades([win, loss]) == [win, loss];
    assert CountWins([loss]) == 0 && CountLosses([loss]) == 1;
    assert GrossProfit([loss]) == 0.0 && GrossLoss([loss]) == -200.0;
    assert GrossProfit([win, loss]) == 500.0 && GrossLoss([win, loss]) == -200.0;
    SumPnLSnoc([], win);
    SumPnLSnoc([win], loss);
    assert [] + [win] == [win] && [win] + [loss] == [win, loss];
  }

  // ---------------------------------------------------------------------------
  // Stable sort by date

  /** Dates never decrease along the sequence. */
  predicate SortedByDate(s: seq<Trade>)
  {
    forall i, j :: 0 <= i < j < |s| ==> s[i].date <= s[j].date
  }

  /** The trades of one date, in the order they appear. */
  function OnDate(s: seq<Trade>, d: Day): seq<Trade>
  {
    if s == [] then []
    else if s[0].date == d then [s[0]] + OnDate(s[1..], d)
    else OnDate(s[1..], d)
  }

  /** Inserts a trade after every trade of an earlier or equal date. */
  function InsertByDate(t: Trade, s: seq<Trade>): (r: seq<Trade>)
    ensures |r| == |s| + 1
  {
    if s == [] then [t]
    else if t.date < s[0].date then [t] + s
    else [s[0]] + InsertByDate(t, s[1..])
  }

  /** A stable sort by date, the order `Array.prototype.sort` gives with the
      comparator `a.date - b.date`: insertion sort, each later trade going
      behind the earlier trades of the same date. */
  function SortByDate(s: seq<Trade>): (r: seq<Trade>)
    ensures |r| == |s|
  {
    if s == [] then [] else InsertByDate(s[|s| - 1], SortByDate(s[..|s| - 1]))
  }

  lemma {:induction false} OnDateAppend(a: seq<Trade>, b: seq<Trade>, d: Day)
    ensures OnDate(a + b, d) == OnDate(a, d) + OnDate(b, d)
  {
    if a == [] {
      assert a + b == b;
    } else {
      var h, tail := a[0], a[1..];
      assert (a + b)[0] == h;
      assert (a + b)[1..] == tail + b;
      OnDateAppend(tail, b, d);
      if h.date == d {
        assert OnDate(a + b, d) == [h] + OnDate(tail + b, d);
        assert OnDate(a, d) == [h] + OnDate(tail, d);
      } else {
        assert OnDate(a + b, d) == OnDate(tail + b, d);
        assert OnDate(a, d) == OnDate(tail, d);
      }
    }
  }

  /** Inserting into a sorted sequence keeps it sorted. */
  lemma {:induction false} InsertKeepsSorted(t: Trade, s: seq<Trade>)
    requires SortedByDate(s)
    ensures SortedByDate(InsertByDate(t, s))
  {
    if s != [] && t.date >= s[0].date {
      var rest := InsertByDate(t, s[1..]);
      assert SortedByDate(s[1..]);
      InsertKeepsSorted(t, s[1..]);
      InsertedMembers(t, s[1..]);
      forall j | 0 <= j < |rest| ensures s[0].date <= rest[j].date {
        assert rest[j] in rest;
        if rest[j] != t {
          var k :| 0 <= k < |s[1..]| && s[1..][k] == rest[j];
          assert s[k + 1] == rest[j];
        }
      }
      assert InsertByDate(t, s) == [s[0]] + rest;
    }
  }

  /** Inserting adds the trade to the multiset of trades. */
  lemma {:induction false} InsertMultiset(t: Trade, s: seq<Trade>)
    ensures multiset(InsertByDate(t, s)) == multiset(s) + multiset{t}
  {
    if s == [] {
      assert InsertByDate(t, s) == [t];
    } else if t.date < s[0].date {
      assert InsertByDate(t, s) == [t] + s;
    } else {
      var head, tail := s[0], s[1..];
      var rest := InsertByDate(t, tail);
      assert InsertByDate(t, s) == [head] + rest;
      InsertMultiset(t, tail);
      assert s == [head] + tail;
      calc {
        multiset(InsertByDate(t, s));
        multiset{head} + multiset(rest);
        multiset{head} + (multiset(tail) + multiset{t});
        (multiset{head} + multiset(tail)) + multiset{t};
        multiset(s) + multiset{t};
      }
    }
  }

  /** Inserting adds the trade's pnl to the sum. */
  lemma {:induction false} InsertSum(t: Trade, s: seq<Trade>)
    ensures SumPnL(InsertByDate(t, s)) == SumPnL(s) + t.pnl
  {
    if s == [] {
      SumPnLSnoc(s, t);
      assert s + [t] == [t];
    } else if t.date < s[0].date {
      SumPnLCons(t, s);
    } else {
      InsertSum(t, s[1..]);
      assert s == [s[0]] + s[1..];
      SumPnLCons(s[0], InsertByDate(t, s[1..]));
      SumPnLCons(s[0], s[1..]);
    }
  }

  /** In a sorted sequence, the inserted trade comes after every trade of its
      own date: per date, the old trades in their order, then the new one. */
  lemma {:induction false} InsertOnDate(t: Trade, s: seq<Trade>, d: Day)
    requires SortedByDate(s)
    ensures OnDate(InsertByDate(t, s), d) == OnDate(s, d) + OnDate([t], d)
  {
    if s == [] {
      assert OnDate([], d) == [];
    } else if t.date < s[0].date {
      assert InsertByDate(t, s) == [t] + s;
      OnDateAppend([t], s, d);
      if t.date == d {
        NoneOnEarlierDate(s, d);
      }
    } else {
      var head, tail := s[0], s[1..];
      var rest := InsertByDate(t, tail);
      assert InsertByDate(t, s) == [head] + rest;
      assert SortedByDate(tail);
      InsertOnDate(t, tail, d);
      assert s == [head] + tail;
      OnDateAppend([head], rest, d);
      OnDateAppend([head], tail, d);
    }
  }

  /** Every member of the insertion result is the new trade or an old one. */
  lemma {:induction false} InsertedMembers(t: Trade, s: seq<Trade>)
    ensures forall u :: u in InsertByDate(t, s) ==> u == t || u in s
  {
    if s != [] && t.date >= s[0].date {
      InsertedMembers(t, s[1..]);
    }
  }

  /** A sorted sequence starting after date d holds no trade of date d. */
  lemma {:induction false} NoneOnEarlierDate(s: seq<Trade>, d: Day)
    requires SortedByDate(s)
    requires s != [] ==> d < s[0].date
    ensures OnDate(s, d) == []
  {
    if s != [] {
      assert SortedByDate(s[1..]);
      NoneOnEarlierDate(s[1..], d);
    }
  }

  /** SortByDate puts the trades in date order. */
  lemma {:induction false} SortByDateSorted(s: seq<Trade>)
    ensures SortedByDate(SortByDate(s))
  {
    if s != [] {
      SortByDateSorted(s[..|s| - 1]);
      InsertKeepsSorted(s[|s| - 1], SortByDate(s[..|s| - 1]));
    }
  }

  /** SortByDate only reorders: it yields the same multiset of trades. */
  lemma {:induction false} SortByDatePermutes(s: seq<Trade>)
    ensures multiset(SortByDate(s)) == multiset(s)
  {
    if s != [] {
      var pre, last := s[..|s| - 1], s[|s| - 1];
      SortByDatePermutes(pre);
      InsertMultiset(last, SortByDate(pre));
      assert s == pre + [last];
      calc {
        multiset(SortByDate(s));
        multiset(InsertByDate(last, SortByDate(pre)));
        multiset(SortByDate(pre)) + multiset{last};
        multiset(pre) + multiset{last};
        multiset(pre + [last]);
      }
    }
  }

  /** Sorting keeps the total pnl. */
  lemma {:induction false} SortByDateKeepsSum(s: seq<Trade>)
    ensures SumPnL(SortByDate(s)) == SumPnL(s)
  {
    if s != [] {
      var pre, last := s[..|s| - 1], s[|s| - 1];
      SortByDateKeepsSum(pre);
      InsertSum(last, SortByDate(pre));
    }
  }

  /** SortByDate is stable: the trades of each date come out in the order
      they went in. */
  lemma {:induction false} SortByDateStable(s: seq<Trade>, d: Day)
    ensures OnDate(SortByDate(s), d) == OnDate(s, d)
  {
    if s != [] {
      var pre, last := s[..|s| - 1], s[|s| - 1];
      SortByDateStable(pre, d);
      SortByDateSorted(pre);
      InsertOnDate(last, SortByDate(pre), d);
      assert s == pre + [last];
      OnDateAppend(pre, [last], d);
    }
  }

  // ---------------------------------------------------------------------------
  // Equity curve

  /** A point of the balance chart. */
  datatype ChartPoint = ChartPoint(name: string, balance: real, pnl: real)

  /** The decimal digit of d. */
  function DigitChar(d: nat): (c: char)
    requires d < 10
    ensures '0' <= c <= '9'
  {
    "0123456789"[d]
  }

  /** The decimal numeral of n, as a template literal prints it. */
  function NatToString(n: nat): (s: string)
    ensures |s| >= 1
    ensures n >= 10 ==> |s| >= 2
    decreases n
  {
    if n < 10 then [DigitChar(n)] else NatToString(n / 10) + [DigitChar(n % 10)]
  }

  /** Different numbers print differently. */
  lemma {:induction false} NatToStringInjective(n: nat, m: nat)
    requires n != m
    ensures NatToString(n) != NatToString(m)
    decreases n
  {
    var sn, sm := NatToString(n), NatToString(m);
    if n < 10 && m < 10 {
      assert sn[0] == DigitChar(n) && sm[0] == DigitChar(m);
      assert "0123456789"[n] != "0123456789"[m];
    } else if n >= 10 && m >= 10 {
      if n % 10 != m % 10 {
        assert "0123456789"[n % 10] != "0123456789"[m % 10];
        assert sn[|sn| - 1] != sm[|sm| - 1];
      } else {
        assert n / 10 != m / 10;
        NatToStringInjective(n / 10, m / 10);
        assert sn[..|sn| - 1] == NatToString(n / 10);
        assert sm[..|sm| - 1] == NatToString(m / 10);
      }
    }
  }

  /** The label of the k-th trade point: `T${k}`. */
  function PointLabel(k: nat): string
  {
    "T" + NatToString(k)
  }

  /** The trade points have pairwise different labels, none of them "Start". */
  lemma PointLabelsDistinct(i: nat, j: nat)
    ensures i != j ==> PointLabel(i) != PointLabel(j)
    ensures PointLabel(i) != "Start"
  {
    if i != j {
      NatToStringInjective(i, j);
      assert PointLabel(i)[1..] == NatToString(i);
      assert PointLabel(j)[1..] == NatToString(j);
    }
    assert PointLabel(i)[0] == 'T' != 'S';
  }

  /** The start point of the curve: "Start", the initial balance, pnl 0. */
  function StartPoint(initialBalance: real): ChartPoint
  {
    ChartPoint("Start", initialBalance, 0.0)
  }

  /** data is the equity curve of the trades taken in the order given: the
      start point, then for the k-th trade the point labelled T k, holding that
      trade's pnl and the previous balance plus that pnl. */
  predicate IsCurveOf(data: seq<ChartPoint>, sorted: seq<Trade>, initialBalance: real)
  {
    && |data| == |sorted| + 1
    && data[0] == StartPoint(initialBalance)
    && forall k :: 1 <= k < |data| ==>
         data[k] == ChartPoint(PointLabel(k), data[k - 1].balance + sorted[k - 1].pnl, sorted[k - 1].pnl)
  }

  /** One more trade extends the curve by one point. */
  lemma CurveExtend(data: seq<ChartPoint>, done: seq<Trade>, t: Trade, initialBalance: real)
    requires IsCurveOf(data, done, initialBalance)
    ensures IsCurveOf(data + [ChartPoint(PointLabel(|data|), data[|data| - 1].balance + t.pnl, t.pnl)],
                      done + [t], initialBalance)
  {
    var next := data + [ChartPoint(PointLabel(|data|), data[|data| - 1].balance + t.pnl, t.pnl)];
    var all := done + [t];
    forall k | 1 <= k < |next|
      ensures next[k] == ChartPoint(PointLabel(k), next[k - 1].balance + all[k - 1].pnl, all[k - 1].pnl)
    {
      if k < |data| {
        assert next[k] == data[k] && next[k - 1] == data[k - 1] && all[k - 1] == done[k - 1];
      }
    }
  }

  /** The last point of a curve holds the initial balance plus the total pnl. */
  lemma {:induction false} CurveLastBalance(data: seq<ChartPoint>, sorted: seq<Trade>, initialBalance: real)
    requires IsCurveOf(data, sorted, initialBalance)
    ensures data[|data| - 1].balance == initialBalance + SumPnL(sorted)
    decreases |sorted|
  {
    if sorted != [] {
      var pre, last := sorted[..|sorted| - 1], sorted[|sorted| - 1];
      var front := data[..|data| - 1];
      assert IsCurveOf(front, pre, initialBalance) by {
        forall k | 1 <= k < |front|
          ensures front[k] == ChartPoint(PointLabel(k), front[k - 1].balance + pre[k - 1].pnl, pre[k - 1].pnl)
        {
          assert front[k] == data[k] && front[k - 1] == data[k - 1] && pre[k - 1] == sorted[k - 1];
        }
      }
      CurveLastBalance(front, pre, initialBalance);
      assert data[|data| - 1].balance == front[|front| - 1].balance + last.pnl;
    }
  }

  /** Every point of a curve has a name of its own: the chart's x axis, keyed
      on the name, shows one tick per point. */
  lemma CurveNamesDistinct(data: seq<ChartPoint>, sorted: seq<Trade>, initialBalance: real)
    requires IsCurveOf(data, sorted, initialBalance)
    ensures forall i, j :: 0 <= i < j < |data| ==> data[i].name != data[j].name
  {
    forall i, j | 0 <= i < j < |data|
      ensures data[i].name != data[j].name
    {
      PointLabelsDistinct(i, j);
      assert data[j] == ChartPoint(PointLabel(j), data[j - 1].balance + sorted[j - 1].pnl, sorted[j - 1].pnl);
      if i > 0 {
        assert data[i] == ChartPoint(PointLabel(i), data[i - 1].balance + sorted[i - 1].pnl, sorted[i - 1].pnl);
      } else {
        PointLabelsDistinct(j, i);
        assert data[i].name == "Start";
      }
    }
  }

  /** The `chartData` computation: a "Start" point at the initial balance, then
      one point per closed trade in stable date order, each adding that trade's
      pnl to the running balance. The trade list itself is a value, so sorting
      the copy leaves it untouched. */
  method BuildEquityCurve(trades: seq<Trade>, initialBalance: real) returns (data: seq<ChartPoint>)
    ensures IsCurveOf(data, SortByDate(ClosedTrades(trades)), initialBalance)
    ensures |data| == |ClosedTrades(trades)| + 1
    ensures data[|data| - 1].balance == initialBalance + SumPnL(ClosedTrades(trades))
    ensures forall i, j :: 0 <= i < j < |data| ==> data[i].name != data[j].name
  {
    var runningBalance := initialBalance;
    data := [StartPoint(runningBalance)];
    var sortedTrades := SortByDate(ClosedTrades(trades));
    var index := 0;
    while index < |sortedTrades|
      invariant 0 <= index <= |sortedTrades|
      invariant IsCurveOf(data, sortedTrades[..index], initialBalance)
      invariant runningBalance == data[index].balance
    {
      var trade := sortedTrades[index];
      CurveExtend(data, sortedTrades[..index], trade, initialBalance);
      assert sortedTrades[..index] + [trade] == sortedTrades[..index + 1];
      runningBalance := runningBalance + trade.pnl;
      data := data + [ChartPoint(PointLabel(index + 1), runningBalance, trade.pnl)];
      index := index + 1;
    }
    assert sortedTrades[..index] == sortedTrades;
    CurveLastBalance(data, sortedTrades, initialBalance);
    SortByDateKeepsSum(ClosedTrades(trades));
    CurveNamesDistinct(data, sortedTrades, initialBalance);
  }
}
