/** The trade journal form (components/TradeLog.tsx): the PnL formula, the
    form record and its edits, and the record a submit hands to the ledger. */
module TradeLog {
  import opened Types

  /** Units in one standard Forex lot: a Forex quantity counts lots. */
  const ForexLotUnits: real := 100000.0

  /** The price move in the trade's favour: exit − entry for Long,
      entry − exit for Short. */
  function RawDiff(entry: real, exit: real, dir: TradeDirection): real
  {
    if dir == Long then exit - entry else entry - exit
  }

  /** `calculatePnL`: the move scaled by quantity, and by the lot size for Forex.
      Index and Futures have a branch of their own that computes the same
      product as every other non-Forex class. */
  function CalculatePnL(entry: real, exit: real, qty: real, dir: TradeDirection, asset: AssetClass): real
  {
    var rawDiff := RawDiff(entry, exit, dir);
    if asset == Forex then rawDiff * qty * ForexLotUnits
    else if asset == Index || asset == Futures then rawDiff * qty
    else rawDiff * qty
  }

  /** Forex PnL is the move times the quantity times 100000. */
  lemma ForexPnL(entry: real, exit: real, qty: real, dir: TradeDirection)
    ensures CalculatePnL(entry, exit, qty, dir, Forex)
         == (if dir == Long then exit - entry else entry - exit) * qty * 100000.0
  {
  }

  /** Every other asset class, Index and Futures included, is move times quantity. */
  lemma NonForexPnL(entry: real, exit: real, qty: real, dir: TradeDirection, asset: AssetClass)
    requires asset != Forex
    ensures CalculatePnL(entry, exit, qty, dir, asset)
         == (if dir == Long then exit - entry else entry - exit) * qty
  {
  }

  /** Flipping the direction negates the PnL for the same prices, size and class. */
  lemma DirectionFlipNegates(entry: real, exit: real, qty: real, asset: AssetClass)
    ensures CalculatePnL(entry, exit, qty, Short, asset) == -CalculatePnL(entry, exit, qty, Long, asset)
  {
  }

  /** A trade that exits where it entered has zero PnL, whatever its class and direction. */
  lemma FlatTradeZeroPnL(price: real, qty: real, dir: TradeDirection, asset: AssetClass)
    ensures CalculatePnL(price, price, qty, dir, asset) == 0.0
  {
  }

  /** For a positive size, the PnL is positive exactly when the price moved in
      the trade's direction, and negative exactly when it moved against it. */
  lemma PnLSign(entry: real, exit: real, qty: real, dir: TradeDirection, asset: AssetClass)
    requires qty > 0.0
    ensures CalculatePnL(entry, exit, qty, dir, asset) > 0.0
        <==> (dir == Long && exit > entry) || (dir == Short && exit < entry)
    ensures CalculatePnL(entry, exit, qty, dir, asset) < 0.0
        <==> (dir == Long && exit < entry) || (dir == Short && exit > entry)
  {
    var d := RawDiff(entry, exit, dir);
    var scale := if asset == Forex then ForexLotUnits else 1.0;
    assert CalculatePnL(entry, exit, qty, dir, asset) == d * (qty * scale);
    PositiveFactor(d, qty * scale);
  }

  /** One standard lot of EURUSD bought at 1.1000 and sold at 1.1050 makes 500. */
  lemma ForexLotExample()
    ensures CalculatePnL(1.1000, 1.1050, 1.0, Long, Forex) == 500.0
    ensures CalculatePnL(1.1000, 1.1050, 1.0, Short, Forex) == -500.0
  {
  }

  // ---------------------------------------------------------------------------
  // The form record

  /** The form's state record (components/TradeLog.tsx:15-25). */
  datatype FormData = FormData(
    date: Day,
    assetClass: AssetClass,
    symbol: string,
    direction: TradeDirection,
    entryPrice: NumInput,
    exitPrice: NumInput,
    quantity: NumInput,
    notes: string,
    status: TradeStatus)

  /** The names of the form's inputs, as `handleInputChange` receives them. */
  datatype FieldName =
    | DateField | AssetClassField | SymbolField | DirectionField
    | EntryPriceField | ExitPriceField | QuantityField | NotesField | StatusField

  /** A value one input can deliver. */
  datatype FieldValue =
    | DayValue(day: Day)
    | AssetValue(asset: AssetClass)
    | TextValue(text: string)
    | DirectionValue(dir: TradeDirection)
    | NumValue(num: NumInput)
    | StatusValue(status: TradeStatus)

  /** The value each input shows: the form field of that name. */
  function Get(f: FormData, n: FieldName): FieldValue
  {
    match n
    case DateField => DayValue(f.date)
    case AssetClassField => AssetValue(f.assetClass)
    case SymbolField => TextValue(f.symbol)
    case DirectionField => DirectionValue(f.direction)
    case EntryPriceField => NumValue(f.entryPrice)
    case ExitPriceField => NumValue(f.exitPrice)
    case QuantityField => NumValue(f.quantity)
    case NotesField => TextValue(f.notes)
    case StatusField => StatusValue(f.status)
  }

  /** The input of that name delivers values of that kind: a date input a
      date, a select one of its options, a number input a number or ''. */
  predicate Fits(n: FieldName, v: FieldValue)
  {
    match n
    case DateField => v.DayValue?
    case AssetClassField => v.AssetValue?
    case SymbolField | NotesField => v.TextValue?
    case DirectionField => v.DirectionValue?
    case EntryPriceField | ExitPriceField | QuantityField => v.NumValue?
    case StatusField => v.StatusValue?
  }

  /** `{ ...prev, [name]: value }`: the named field takes the value and every
      other field keeps its old one. */
  function Set(f: FormData, n: FieldName, v: FieldValue): (r: FormData)
    requires Fits(n, v)
    ensures Get(r, n) == v
    ensures forall m :: m != n ==> Get(r, m) == Get(f, m)
  {
    match n
    case DateField => f.(date := v.day)
    case AssetClassField => f.(assetClass := v.asset)
    case SymbolField => f.(symbol := v.text)
    case DirectionField => f.(direction := v.dir)
    case EntryPriceField => f.(entryPrice := v.num)
    case ExitPriceField => f.(exitPrice := v.num)
    case QuantityField => f.(quantity := v.num)
    case NotesField => f.(notes := v.text)
    case StatusField => f.(status := v.status)
  }

  /** The form when the journal opens: today's date, Forex, Long, Closed,
      everything else empty (components/TradeLog.tsx:15-25). */
  function InitialForm(today: Day): FormData
  {
    FormData(today, Forex, "", Long, Blank, Blank, Blank, "", Closed)
  }

  /** The inputs a submit empties. */
  const ClearedFields: set<FieldName> :=
    {SymbolField, EntryPriceField, ExitPriceField, QuantityField, NotesField}

  /** The empty value of a text or number input. */
  function EmptyValue(n: FieldName): FieldValue
  {
    if n == SymbolField || n == NotesField then TextValue("") else NumValue(Blank)
  }

  /** The partial reset after a submit: symbol, prices, quantity and notes are
      emptied; date, asset class, direction and status are kept. */
  function ResetAfterSubmit(f: FormData): (r: FormData)
    ensures forall n :: n in ClearedFields ==> Get(r, n) == EmptyValue(n)
    ensures forall n :: n !in ClearedFields ==> Get(r, n) == Get(f, n)
  {
    f.(symbol := "", entryPrice := Blank, exitPrice := Blank, quantity := Blank, notes := "")
  }

  /** The reset gives the cleared inputs exactly the values they start with,
      so resetting a fresh form leaves it as it was. */
  lemma ResetRestoresDefaults(today: Day)
    ensures forall n :: n in ClearedFields ==> EmptyValue(n) == Get(InitialForm(today), n)
    ensures ResetAfterSubmit(InitialForm(today)) == InitialForm(today)
  {
  }

  // ---------------------------------------------------------------------------
  // Submitting

  /** The inputs marked `required` that the browser checks before it lets the
      form submit: symbol, quantity and entry price (the date input always
      holds a day in this model). */
  predicate Submittable(f: FormData)
  {
    f.symbol != "" && f.entryPrice.Number? && f.quantity.Number?
  }

  /** `parseFloat(exitPrice) || entry`: an empty or zero exit falls back to the entry. */
  function EffectiveExit(exitInput: NumInput, entry: real): (x: real)
    ensures exitInput == Blank || exitInput == Number(0.0) ==> x == entry
    ensures exitInput.Number? && exitInput.value != 0.0 ==> x == exitInput.value
  {
    match exitInput
    case Blank => entry
    case Number(v) => if v == 0.0 then entry else v
  }

  /** The record `handleSubmit` passes to `onAddTrade`, or None when a required
      input is empty and the browser does not submit. The record copies the
      form's date, class, symbol (not upper-cased), direction, status and notes;
      its pnl is 0 for an Open trade and `calculatePnL` for a Closed one. */
  function BuildRecord(f: FormData): (r: Option<TradeDraft>)
    ensures r.Some? <==> Submittable(f)
    ensures r.Some? ==>
      && r.value.date == f.date
      && r.value.assetClass == f.assetClass
      && r.value.symbol == f.symbol
      && r.value.direction == f.direction
      && r.value.status == f.status
      && r.value.notes == Some(f.notes)
      && r.value.fees == None
    ensures r.Some? ==>
      && r.value.entryPrice == f.entryPrice.value
      && r.value.quantity == f.quantity.value
      && r.value.exitPrice == EffectiveExit(f.exitPrice, f.entryPrice.value)
    ensures r.Some? && f.status == Open ==> r.value.pnl == 0.0
    ensures r.Some? && f.status == Closed ==>
      r.value.pnl == CalculatePnL(r.value.entryPrice, r.value.exitPrice, r.value.quantity,
                                  f.direction, f.assetClass)
  {
    if !Submittable(f) then None
    else
      var entry := f.entryPrice.value;
      var exit := EffectiveExit(f.exitPrice, entry);
      var qty := f.quantity.value;
      var pnl := if f.status == Closed then CalculatePnL(entry, exit, qty, f.direction, f.assetClass) else 0.0;
      Some(TradeDraft(f.date, f.assetClass, f.symbol, f.direction, entry, exit, qty,
                      pnl, f.status, Some(f.notes), None))
  }

  /** A trade submitted as Open gets pnl 0 whatever its prices. */
  lemma OpenTradeHasZeroPnL(f: FormData)
    requires Submittable(f) && f.status == Open
    ensures BuildRecord(f).Some? && BuildRecord(f).value.pnl == 0.0
  {
  }

  /** A trade submitted with an empty or zero exit price exits at its entry
      price and so gets pnl 0, Open or Closed. */
  lemma MissingExitHasZeroPnL(f: FormData)
    requires Submittable(f)
    requires f.exitPrice == Blank || f.exitPrice == Number(0.0)
    ensures BuildRecord(f).Some?
    ensures BuildRecord(f).value.exitPrice == BuildRecord(f).value.entryPrice
    ensures BuildRecord(f).value.pnl == 0.0
  {
    var r := BuildRecord(f).value;
    FlatTradeZeroPnL(r.entryPrice, r.quantity, f.direction, f.assetClass);
  }

  /** The journal form held by the component's state hook. */
  class TradeForm {
    var data: FormData

    /** The form as the journal first shows it. */
    constructor (today: Day)
      ensures data == InitialForm(today)
    {
      data := InitialForm(today);
    }

    /** `handleInputChange`: one input changed; only its field is updated. */
    method InputChange(n: FieldName, v: FieldValue)
      requires Fits(n, v)
      modifies this
      ensures data == Set(old(data), n, v)
      ensures forall m :: m != n ==> Get(data, m) == Get(old(data), m)
    {
      data := Set(data, n, v);
    }

    /** `handleSubmit`: builds the record to log and, when the browser lets the
        form submit, partially resets the form. */
    method Submit() returns (logged: Option<TradeDraft>)
      modifies this
      ensures logged == BuildRecord(old(data))
      ensures logged.Some? ==> data == ResetAfterSubmit(old(data))
      ensures logged.None? ==> data == old(data)
    {
      logged := BuildRecord(data);
      if logged.Some? {
        data := ResetAfterSubmit(data);
      }
    }
  }
}
