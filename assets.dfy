/**
 * The asset view (views/Assets.tsx): the net-worth trend built from the
 * snapshot history, the non-debt total, the per-type allocation, the list
 * tabs and the asset form's submission.
 */
module AssetsView {

  import opened Text
  import opened Dates
  import opened Records
  import opened Seqs
  import opened Finance
  import opened Store

  // ---------------------------------------------------------------
  // Trend rows, one per snapshot date

  /** One point of the trend chart; the three values are rounded to whole units. */
  datatype TrendRow = TrendRow(date: string, fullDate: string, totalAssets: int, totalDebt: int, netWorth: int)

  /** The non-debt total recomputed from the distribution: cash and other, then the four investment types. */
  function FallbackAssets(dist: map<AssetType, real>): real {
    (DistValue(dist, Cash) + DistValue(dist, Other))
    + (DistValue(dist, Stock) + DistValue(dist, Fund) + DistValue(dist, Crypto) + DistValue(dist, RealEstate))
  }

  /** The assets figure of a snapshot; a zero total with a non-zero net worth falls back to the distribution. */
  function RowAssets(h: PortfolioSnapshot): real {
    if h.totalAssets == 0.0 && h.netWorth != 0.0 then FallbackAssets(h.assetDistribution) else h.totalAssets
  }

  /** The chart row of one snapshot. */
  function RowOf(h: PortfolioSnapshot): TrendRow {
    TrendRow(DaySuffix(h.date), h.date, Round(RowAssets(h)), Round(DistValue(h.assetDistribution, Debt)), Round(h.netWorth))
  }

  function SnapshotDate(h: PortfolioSnapshot): string {
    h.date
  }

  predicate AnySnapshot(h: PortfolioSnapshot) {
    true
  }

  /** The keys of the day map in insertion order: each date where it first occurs. */
  function RowOrder(history: seq<PortfolioSnapshot>): seq<string> {
    KeysOf(history, SnapshotDate, AnySnapshot)
  }

  /** The day map after `set(h.date, row)` for every snapshot in turn. */
  function RowsOf(history: seq<PortfolioSnapshot>): map<string, TrendRow> {
    if history == [] then map[]
    else RowsOf(history[..|history| - 1])[history[|history| - 1].date := RowOf(history[|history| - 1])]
  }

  /** `Array.from(map.values())`: the values in key order. */
  function ValuesOf(keys: seq<string>, rows: map<string, TrendRow>): seq<TrendRow> {
    if keys == [] then []
    else ValuesOf(keys[..|keys| - 1], rows) + (if keys[|keys| - 1] in rows then [rows[keys[|keys| - 1]]] else [])
  }

  function TrendRows(history: seq<PortfolioSnapshot>): seq<TrendRow> {
    ValuesOf(RowOrder(history), RowsOf(history))
  }

  /** Sort key: the day of the full date; a date that does not parse sorts as day 0. */
  function FullDateKey(r: TrendRow): real {
    match DateDay(r.fullDate)
    case Some(n) => n as real
    case None => 0.0
  }

  /** The rows sorted oldest first, the last 180 kept. */
  function Window(history: seq<PortfolioSnapshot>): seq<TrendRow> {
    TakeLast(SortBy(TrendRows(history), FullDateKey), 180)
  }

  /**
   * A single row gets a zero row for the day before in front of it. None:
   * the single row's date is not a calendar date, where `toISOString` throws.
   */
  function Pad(rows: seq<TrendRow>): Option<seq<TrendRow>> {
    if |rows| != 1 then Some(rows)
    else
      match ParseDate(rows[0].fullDate)
      case Some(d) =>
        if ValidDate(d) then
          var p := PreviousDay(d);
          Some([TrendRow(Pad2(p.month) + "-" + Pad2(p.day), IsoDate(p), 0, 0, 0)] + rows)
        else None
      case None => None
  }

  function TrendSeries(history: seq<PortfolioSnapshot>): Option<seq<TrendRow>> {
    Pad(Window(history))
  }

  /** The `forEach` over the history filling the day map. */
  method BuildRows(history: seq<PortfolioSnapshot>) returns (keys: seq<string>, rows: map<string, TrendRow>)
    ensures keys == RowOrder(history) && rows == RowsOf(history)
  {
    keys, rows := [], map[];
    var i := 0;
    while i < |history|
      invariant 0 <= i <= |history|
      invariant keys == RowOrder(history[..i]) && rows == RowsOf(history[..i])
    {
      var h := history[i];
      assert history[..i + 1][..i] == history[..i];
      RowsDomain(history[..i]);
      if h.date !in rows {
        keys := keys + [h.date];
      }
      rows := rows[h.date := RowOf(h)];
      i := i + 1;
    }
    assert history[..i] == history;
  }

  /** The effect computing the chart data. */
  method BuildTrend(history: seq<PortfolioSnapshot>) returns (processed: Option<seq<TrendRow>>)
    ensures processed == TrendSeries(history)
  {
    var keys, rows := BuildRows(history);
    processed := Pad(TakeLast(SortBy(ValuesOf(keys, rows), FullDateKey), 180));
  }

  /** The day map holds exactly the dates of the key list. */
  lemma {:induction false} RowsDomain(history: seq<PortfolioSnapshot>)
    ensures forall k :: k in RowsOf(history) <==> k in RowOrder(history)
    ensures forall k :: k in RowsOf(history) ==> RowsOf(history)[k].fullDate == k
    decreases |history|
  {
    if history != [] {
      RowsDomain(history[..|history| - 1]);
    }
  }

  /** A snapshot with no later snapshot of the same date is the one the map keeps for its date. */
  lemma {:induction false} LatestSnapshotWins(history: seq<PortfolioSnapshot>, k: nat)
    requires k < |history|
    requires forall j :: k < j < |history| ==> history[j].date != history[k].date
    ensures history[k].date in RowsOf(history) && RowsOf(history)[history[k].date] == RowOf(history[k])
    decreases |history|
  {
    if k < |history| - 1 {
      var prefix := history[..|history| - 1];
      assert prefix[k] == history[k];
      LatestSnapshotWins(prefix, k);
    }
  }

  /** Reading the values in key order when every key is present. */
  lemma {:induction false} ValuesInKeyOrder(keys: seq<string>, rows: map<string, TrendRow>)
    requires forall k :: k in keys ==> k in rows
    ensures |ValuesOf(keys, rows)| == |keys|
    ensures forall i :: 0 <= i < |keys| ==> ValuesOf(keys, rows)[i] == rows[keys[i]]
    decreases |keys|
  {
    if keys != [] {
      ValuesInKeyOrder(keys[..|keys| - 1], rows);
    }
  }

  /**
   * One row per distinct snapshot date, in first-appearance order, each
   * carrying its date and the row of the last snapshot of that date.
   */
  lemma TrendRowsFacts(history: seq<PortfolioSnapshot>)
    ensures var r := TrendRows(history); var keys := RowOrder(history);
      |r| == |keys| && Distinct(keys) &&
      (forall i :: 0 <= i < |r| ==> keys[i] in RowsOf(history) && r[i] == RowsOf(history)[keys[i]] && r[i].fullDate == keys[i]) &&
      (forall j :: 0 <= j < |history| ==> history[j].date in keys)
  {
    var keys := RowOrder(history);
    RowsDomain(history);
    KeysOfFacts(history, SnapshotDate, AnySnapshot);
    ValuesInKeyOrder(keys, RowsOf(history));
    assert forall j :: 0 <= j < |history| ==> SnapshotDate(history[j]) in keys;
  }

  /**
   * The chart window: at most 180 rows, oldest first, each one of the day
   * rows; when rows are left out there are 180 and every one left out is
   * no later than every one kept.
   */
  lemma WindowFacts(history: seq<PortfolioSnapshot>)
    ensures var w := Window(history); var all := TrendRows(history);
      |w| == (if |all| < 180 then |all| else 180) &&
      SortedBy(w, FullDateKey) &&
      (forall i :: 0 <= i < |w| ==> w[i] in all) &&
      (forall x :: x in all && x !in w ==> |w| == 180 && forall i :: 0 <= i < |w| ==> FullDateKey(x) <= FullDateKey(w[i]))
  {
    TakeLastSortedFacts(TrendRows(history), FullDateKey, 180);
  }

  /** Of two rows with calendar dates in the window, the earlier index has the earlier or same day. */
  lemma WindowAscending(history: seq<PortfolioSnapshot>, i: nat, j: nat)
    requires i < j < |Window(history)|
    requires DateDay(Window(history)[i].fullDate).Some? && DateDay(Window(history)[j].fullDate).Some?
    ensures DateDay(Window(history)[i].fullDate).value <= DateDay(Window(history)[j].fullDate).value
  {
    var w := Window(history);
    WindowFacts(history);
    assert FullDateKey(w[i]) <= FullDateKey(w[j]);
  }

  /**
   * Padding leaves every length but 1 alone; a single dated row gets a
   * zero row for the previous day in front of it.
   */
  lemma PadFacts(rows: seq<TrendRow>)
    ensures |rows| != 1 ==> Pad(rows) == Some(rows)
    ensures |rows| == 1 && ParseDate(rows[0].fullDate).Some? && ValidDate(ParseDate(rows[0].fullDate).value) ==>
      var d := ParseDate(rows[0].fullDate).value;
      Pad(rows).Some? && |Pad(rows).value| == 2 && Pad(rows).value[1] == rows[0] &&
      Pad(rows).value[0].totalAssets == 0 && Pad(rows).value[0].totalDebt == 0 && Pad(rows).value[0].netWorth == 0 &&
      Pad(rows).value[0].fullDate == IsoDate(PreviousDay(d)) &&
      DayNumber(PreviousDay(d)) == DayNumber(d) - 1
  {
    if |rows| == 1 && ParseDate(rows[0].fullDate).Some? && ValidDate(ParseDate(rows[0].fullDate).value) {
      PreviousDayNumber(ParseDate(rows[0].fullDate).value);
    }
  }

  /**
   * For a snapshot as the app takes it, the fallback recomputation gives
   * the same assets figure, so the row shows the snapshot's own totals.
   */
  lemma SnapshotRow(s: seq<Asset>, date: string)
    ensures RowOf(Snapshot(s, date)) ==
      TrendRow(DaySuffix(date), date, Round(AssetsTotal(s)), Round(DebtTotal(s)), Round(AssetsTotal(s) - DebtTotal(s)))
  {
    var m := Distribution(s);
    DistValueIsTypeTotal(s, Cash);
    DistValueIsTypeTotal(s, Stock);
    DistValueIsTypeTotal(s, Fund);
    DistValueIsTypeTotal(s, RealEstate);
    DistValueIsTypeTotal(s, Crypto);
    DistValueIsTypeTotal(s, Debt);
    DistValueIsTypeTotal(s, Other);
    TypeTotalsSum(s);
    assert FallbackAssets(m) == AssetsTotal(s);
  }

  // ---------------------------------------------------------------
  // Totals and allocation

  function NonDebtAmount(a: Asset): real {
    if a.kind != Debt then a.amount else 0.0
  }

  function Amount(a: Asset): real {
    a.amount
  }

  /** The header total: the amounts of everything but debts. */
  function TotalAssetsVal(assets: seq<Asset>): real {
    SumBy(assets, NonDebtAmount)
  }

  /** The header total is the assets total the snapshots record. */
  lemma {:induction false} TotalAssetsAgree(assets: seq<Asset>)
    ensures TotalAssetsVal(assets) == AssetsTotal(assets)
    decreases |assets|
  {
    if assets != [] {
      TotalAssetsAgree(assets[..|assets| - 1]);
    }
  }

  datatype TypeSlice = TypeSlice(kind: AssetType, value: real)

  /** Position in the enumeration order. */
  function TypeIndex(k: AssetType): int {
    match k
    case Cash => 0
    case Stock => 1
    case Fund => 2
    case RealEstate => 3
    case Crypto => 4
    case Debt => 5
    case Other => 6
  }

  function SliceIndex(d: TypeSlice): int {
    TypeIndex(d.kind)
  }

  predicate PositiveSlice(d: TypeSlice) {
    d.value > 0.0
  }

  /** The summed amount of one type; the debt entry is fixed at 0. */
  function TypeValue(assets: seq<Asset>, k: AssetType): real {
    if k == Debt then 0.0 else SumBy(Filter(assets, (a: Asset) => a.kind == k), Amount)
  }

  /** One entry per type in enumeration order, those with a positive value kept. */
  function DataByType(assets: seq<Asset>): seq<TypeSlice> {
    Filter(seq(7, i requires 0 <= i < 7 => TypeSlice(AllAssetTypes[i], TypeValue(assets, AllAssetTypes[i]))), PositiveSlice)
  }

  lemma AllSlicesIncreasing(assets: seq<Asset>)
    ensures Increasing(seq(7, i requires 0 <= i < 7 => TypeSlice(AllAssetTypes[i], TypeValue(assets, AllAssetTypes[i]))), SliceIndex)
  {
    var all := seq(7, i requires 0 <= i < 7 => TypeSlice(AllAssetTypes[i], TypeValue(assets, AllAssetTypes[i])));
    assert forall i :: 0 <= i < 7 ==> SliceIndex(all[i]) == i;
  }

  /** The per-type value is the type's total. */
  lemma TypeValueIsTotal(assets: seq<Asset>, k: AssetType)
    requires k != Debt
    ensures TypeValue(assets, k) == TypeTotal(assets, k)
  {
    var g := (a: Asset) => if a.kind == k then a.amount else 0.0;
    SumByFilter(assets, (a: Asset) => a.kind == k, Amount, g);
    TypeSumAgree(assets, k, g);
  }

  lemma {:induction false} TypeSumAgree(assets: seq<Asset>, k: AssetType, g: Asset -> real)
    requires forall a :: g(a) == (if a.kind == k then a.amount else 0.0)
    ensures SumBy(assets, g) == TypeTotal(assets, k)
    decreases |assets|
  {
    if assets != [] {
      TypeSumAgree(assets[..|assets| - 1], k, g);
    }
  }

  /**
   * The allocation lists each non-debt type with a positive total exactly
   * once, with that total, in enumeration order, and nothing else.
   */
  lemma DataByTypeFacts(assets: seq<Asset>)
    ensures var r := DataByType(assets);
      Increasing(r, SliceIndex) &&
      (forall i :: 0 <= i < |r| ==> r[i].kind != Debt && r[i].value > 0.0 && r[i].value == TypeTotal(assets, r[i].kind)) &&
      (forall k :: k != Debt && TypeTotal(assets, k) > 0.0 ==> TypeSlice(k, TypeTotal(assets, k)) in r)
  {
    var all := seq(7, i requires 0 <= i < 7 => TypeSlice(AllAssetTypes[i], TypeValue(assets, AllAssetTypes[i])));
    AllSlicesIncreasing(assets);
    FilterIncreasing(all, PositiveSlice, SliceIndex);
    forall k | k != Debt
      ensures TypeValue(assets, k) == TypeTotal(assets, k)
    {
      TypeValueIsTotal(assets, k);
    }
    forall k | k != Debt && TypeTotal(assets, k) > 0.0
      ensures TypeSlice(k, TypeTotal(assets, k)) in all
    {
      assert all[TypeIndex(k)].kind == k;
    }
  }

  // ---------------------------------------------------------------
  // List tabs

  datatype AssetFilter = AllTab | CashTab | DebtTab | InvestTab

  /** Whether an asset type shows under a tab: cash holds cash and other, invest the four investment types. */
  predicate InTab(k: AssetType, tab: AssetFilter) {
    match tab
    case AllTab => true
    case CashTab => k == Cash || k == Other
    case DebtTab => k == Debt
    case InvestTab => k in [Stock, Fund, Crypto, RealEstate]
  }

  function FilteredAssets(assets: seq<Asset>, tab: AssetFilter): (r: seq<Asset>)
    ensures forall i :: 0 <= i < |r| ==> r[i] in assets && InTab(r[i].kind, tab)
    ensures forall a :: a in assets && InTab(a.kind, tab) ==> a in r
  {
    Filter(assets, (a: Asset) => InTab(a.kind, tab))
  }

  /** Every type shows under the all tab and under exactly one of the other three. */
  lemma TabsPartition(k: AssetType)
    ensures InTab(k, AllTab)
    ensures InTab(k, CashTab) <==> !InTab(k, DebtTab) && !InTab(k, InvestTab)
    ensures InTab(k, DebtTab) <==> !InTab(k, CashTab) && !InTab(k, InvestTab)
    ensures InTab(k, DebtTab) <==> k == Debt
  {
  }

  /** The cash and invest tabs together hold the header total; the debt tab holds the debt total. */
  lemma TabTotals(assets: seq<Asset>)
    ensures SumBy(FilteredAssets(assets, CashTab), Amount) + SumBy(FilteredAssets(assets, InvestTab), Amount)
         == TotalAssetsVal(assets)
    ensures SumBy(FilteredAssets(assets, DebtTab), Amount) == DebtTotal(assets)
  {
    var gc := (a: Asset) => if InTab(a.kind, CashTab) then a.amount else 0.0;
    var gi := (a: Asset) => if InTab(a.kind, InvestTab) then a.amount else 0.0;
    var gd := (a: Asset) => if InTab(a.kind, DebtTab) then a.amount else 0.0;
    SumByFilter(assets, (a: Asset) => InTab(a.kind, CashTab), Amount, gc);
    SumByFilter(assets, (a: Asset) => InTab(a.kind, InvestTab), Amount, gi);
    SumByFilter(assets, (a: Asset) => InTab(a.kind, DebtTab), Amount, gd);
    SplitSum(assets, gc, gi);
    TypeSumAgree(assets, Debt, gd);
    TypeTotalsSum(assets);
  }

  lemma {:induction false} SplitSum(assets: seq<Asset>, gc: Asset -> real, gi: Asset -> real)
    requires forall a :: gc(a) == (if InTab(a.kind, CashTab) then a.amount else 0.0)
    requires forall a :: gi(a) == (if InTab(a.kind, InvestTab) then a.amount else 0.0)
    ensures SumBy(assets, gc) + SumBy(assets, gi) == SumBy(assets, NonDebtAmount)
    decreases |assets|
  {
    if assets != [] {
      SplitSum(assets[..|assets| - 1], gc, gi);
    }
  }

  // ---------------------------------------------------------------
  // Submitting the asset form

  /** What the form hands to the store: nothing, a new asset, or a replacement. */
  datatype Submission = Ignored | Added(asset: Asset) | Updated(asset: Asset)

  /** The stored amount: the loan balance for a debt, the original amount in TWD, else the converted amount. */
  function SubmittedAmount(form: AssetDraft, today: CalDate): real
    requires form.originalAmount.Some?
  {
    if form.kind == Some(Debt) then CalculateLoanBalance(form, today)
    else if form.currency == Some(TWD) then form.originalAmount.value
    else if form.amount.Some? then form.amount.value
    else 0.0
  }

  /**
   * handleSubmit: a form without a name or without an original amount is
   * ignored; otherwise the asset is built with the defaults filled in and
   * added, or replaces the edited one.
   */
  function SubmitAsset(form: AssetDraft, editingId: Option<string>, newId: string, now: int, today: CalDate): (r: Submission)
    ensures r.Ignored? <==> !TruthyStr(form.name) || form.originalAmount.None?
    ensures r.Updated? <==> !r.Ignored? && TruthyStr(editingId)
    ensures !r.Ignored? ==>
      var a := r.asset;
      a.name == form.name.value &&
      a.id == (if TruthyStr(editingId) then editingId.value else newId) &&
      a.kind == (if form.kind.Some? then form.kind.value else Cash) &&
      a.originalAmount == form.originalAmount &&
      a.currency == (if form.currency.Some? then form.currency.value else TWD) &&
      a.exchangeRate == OrElse(form.exchangeRate, 1.0) &&
      a.lastUpdated == now && a.startDate == form.startDate &&
      a.interestRate == (if Truthy(form.interestRate) then form.interestRate else None) &&
      a.termYears == (if form.termYears.Some? && form.termYears.value != 0 then form.termYears else None) &&
      a.interestOnlyPeriod == Some(OrElseInt(form.interestOnlyPeriod, 0))
    ensures !r.Ignored? && form.kind != Some(Debt) && form.currency == Some(TWD) ==> r.asset.amount == form.originalAmount.value
    ensures !r.Ignored? && form.kind == Some(Debt) ==> r.asset.amount == CalculateLoanBalance(form, today)
    ensures !r.Ignored? && form.kind != Some(Debt) && form.currency != Some(TWD) ==>
      r.asset.amount == (if form.amount.Some? then form.amount.value else 0.0)
  {
    if !TruthyStr(form.name) || form.originalAmount.None? then Ignored
    else
      var a := Asset(
        if TruthyStr(editingId) then editingId.value else newId,
        form.name.value,
        if form.kind.Some? then form.kind.value else Cash,
        SubmittedAmount(form, today),
        form.originalAmount,
        if form.currency.Some? then form.currency.value else TWD,
        OrElse(form.exchangeRate, 1.0),
        now,
        form.startDate,
        if Truthy(form.interestRate) then form.interestRate else None,
        if form.termYears.Some? && form.termYears.value != 0 then form.termYears else None,
        Some(OrElseInt(form.interestOnlyPeriod, 0)));
      if TruthyStr(editingId) then Updated(a) else Added(a)
  }

  /** A submitted debt with a whole-unit principal is stored at a balance between 0 and that principal. */
  lemma DebtSubmissionBounded(form: AssetDraft, editingId: Option<string>, newId: string, now: int, today: CalDate, whole: nat)
    requires form.kind == Some(Debt) && form.originalAmount == Some(whole as real) && whole > 0
    requires form.startDate.Some?
    ensures var r := SubmitAsset(form, editingId, newId, now, today);
      r.Ignored? || (0.0 <= r.asset.amount <= whole as real)
  {
    if TruthyStr(form.name) {
      LoanBalanceBounds(form, today, whole);
    }
  }
}
