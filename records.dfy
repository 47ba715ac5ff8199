/** Record shapes of the finance tracker (types.ts), as values. */
module Records {

  import opened Text
  import opened Dates

  /** The seven asset kinds, in their declaration order. */
  datatype AssetType = Cash | Stock | Fund | RealEstate | Crypto | Debt | Other

  /** Object.values(AssetType): the enumeration in declaration order. */
  const AllAssetTypes: seq<AssetType> := [Cash, Stock, Fund, RealEstate, Crypto, Debt, Other]

  datatype Currency = TWD | USD | JPY | CNY | EUR | AUD

  datatype TxType = Expense | Income

  datatype Frequency = Monthly | Yearly

  datatype TxSource = Manual | AiVoice

  /**
   * An annual interest rate in percent, above -1200 % so that the monthly
   * growth factor 1 + rate / 1200 of the annuity formula is positive.
   */
  type Rate = r: real | r > -1200.0

  /** A stored asset. Optional number fields are Option; NaN is not a value here. */
  datatype Asset = Asset(
    id: string,
    name: string,
    kind: AssetType,
    amount: real,
    originalAmount: Option<real>,
    currency: Currency,
    exchangeRate: real,
    lastUpdated: int,
    startDate: Option<CalDate>,
    interestRate: Option<Rate>,
    termYears: Option<int>,
    interestOnlyPeriod: Option<int>)

  /** Partial<Asset>: the asset form's state, every field optional. */
  datatype AssetDraft = AssetDraft(
    id: Option<string>,
    name: Option<string>,
    kind: Option<AssetType>,
    amount: Option<real>,
    originalAmount: Option<real>,
    currency: Option<Currency>,
    exchangeRate: Option<real>,
    lastUpdated: Option<int>,
    startDate: Option<CalDate>,
    interestRate: Option<Rate>,
    termYears: Option<int>,
    interestOnlyPeriod: Option<int>)

  datatype Transaction = Transaction(
    id: string,
    date: string,
    amount: real,
    category: string,
    item: string,
    note: Option<string>,
    kind: TxType,
    source: Option<TxSource>)

  datatype RecurringItem = RecurringItem(
    id: string,
    name: string,
    amount: real,
    category: string,
    kind: TxType,
    frequency: Frequency,
    dayOfMonth: int,
    monthOfYear: Option<int>)

  datatype BudgetConfig = BudgetConfig(category: string, limit: real)

  datatype PortfolioSnapshot = PortfolioSnapshot(
    date: string,
    totalAssets: real,
    totalLiabilities: real,
    netWorth: real,
    assetDistribution: map<AssetType, real>)

  datatype StockPosition = StockPosition(
    symbol: string,
    name: string,
    shares: real,
    cost: real,
    currentPrice: real,
    marketValue: real,
    unrealizedPL: real,
    returnRate: real,
    dividendYield: Option<real>,
    dividendAmount: Option<real>,
    dividendFrequency: Option<string>)

  datatype StockSnapshot = StockSnapshot(
    id: string,
    date: string,
    timestamp: int,
    totalMarketValue: real,
    totalUnrealizedPL: real,
    positions: seq<StockPosition>)

  /** JavaScript truthiness of an optional number: undefined and 0 are falsy. */
  predicate Truthy(o: Option<real>) {
    o.Some? && o.value != 0.0
  }

  /** `x || d` on an optional number. */
  function OrElse(o: Option<real>, d: real): real {
    if o.Some? && o.value != 0.0 then o.value else d
  }

  /** `x || d` on an optional whole number. */
  function OrElseInt(o: Option<int>, d: int): int {
    if o.Some? && o.value != 0 then o.value else d
  }

  /** `x || d` on an optional rate. */
  function RateOrElse(o: Option<Rate>, d: Rate): Rate {
    if o.Some? && o.value != 0.0 then o.value else d
  }

  /** A string is truthy when it is present and not empty. */
  predicate TruthyStr(o: Option<string>) {
    o.Some? && o.value != []
  }

  /** Viewing a stored asset through the Partial<Asset> lens. */
  function ToDraft(a: Asset): AssetDraft {
    AssetDraft(Some(a.id), Some(a.name), Some(a.kind), Some(a.amount), a.originalAmount,
               Some(a.currency), Some(a.exchangeRate), Some(a.lastUpdated), a.startDate,
               a.interestRate, a.termYears, a.interestOnlyPeriod)
  }
}
