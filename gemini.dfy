/**
 * The deterministic work around the generative-AI calls (services/gemini.ts):
 * the figures the financial report is given, the extraction of a JSON
 * payload from a reply, the merge of dividend data into stock positions and
 * the spending averages behind budget suggestions. The model calls
 * themselves are not part of this model; their replies arrive as parameters.
 */
module GeminiPrep {

  import opened Text
  import opened Dates
  import opened Records
  import opened Seqs
  import opened Finance
  import opened Store
  import BudgetView
  import RecurringView
  import AssetsView
  import AssetForm

  // ---------------------------------------------------------------
  // Income estimate for the report

  /** The `forEach` adding up the monthly equivalent of every income item; yearly items count a twelfth, unrounded. */
  method MonthlyFixedIncome(recurring: seq<RecurringItem>) returns (monthlyFixedIncome: real)
    ensures monthlyFixedIncome == BudgetView.MonthlySum(recurring, Income)
  {
    monthlyFixedIncome := 0.0;
    var i := 0;
    while i < |recurring|
      invariant 0 <= i <= |recurring|
      invariant monthlyFixedIncome == BudgetView.MonthlySum(recurring[..i], Income)
    {
      var r := recurring[i];
      assert recurring[..i + 1][..i] == recurring[..i];
      if r.kind == Income {
        monthlyFixedIncome := monthlyFixedIncome + (if r.frequency == Yearly then r.amount / 12.0 else r.amount);
      }
      i := i + 1;
    }
    assert recurring[..i] == recurring;
  }

  predicate YearlyIncome(r: RecurringItem) {
    r.kind == Income && r.frequency == Yearly
  }

  /**
   * The report's fixed income and the recurring page's income differ only
   * by the rounding of yearly items: at most half a unit per yearly income item.
   */
  lemma {:induction false} FixedIncomeNearStats(recurring: seq<RecurringItem>)
    ensures var d := BudgetView.MonthlySum(recurring, Income) - RecurringView.IncomeOf(recurring);
      -0.5 * CountBy(recurring, YearlyIncome) as real <= d <= 0.5 * CountBy(recurring, YearlyIncome) as real
    ensures CountBy(recurring, YearlyIncome) == 0 ==> BudgetView.MonthlySum(recurring, Income) == RecurringView.IncomeOf(recurring)
    decreases |recurring|
  {
    if recurring != [] {
      FixedIncomeNearStats(recurring[..|recurring| - 1]);
    }
  }

  /** An income transaction dated within the 90 days before today. */
  predicate RecentIncomeTx(t: Transaction, today: ValidCalDate) {
    var d := DateDay(t.date);
    t.kind == Income && d.Some? && d.value > DayNumber(today) - 90
  }

  function TxAmount(t: Transaction): real {
    t.amount
  }

  /** The income of the last 90 days, averaged over three months and rounded. */
  function AvgVariableIncome(txs: seq<Transaction>, today: ValidCalDate): int {
    Round(SumBy(Filter(txs, t => RecentIncomeTx(t, today)), TxAmount) / 3.0)
  }

  /** The estimate: the largest of the fixed income, the variable average, and the fixed income plus half the average. */
  function EstimatedIncome(fixed: real, avg: int): (r: real)
    ensures r >= fixed && r >= avg as real && r >= fixed + avg as real * 0.5
    ensures r == fixed || r == avg as real || r == fixed + avg as real * 0.5
  {
    var a := avg as real;
    var m := if fixed >= a then fixed else a;
    if m >= fixed + a * 0.5 then m else fixed + a * 0.5
  }

  /** With a non-negative average, the estimate is the average alone once it reaches twice the fixed income, else fixed plus half the average. */
  lemma EstimateCases(fixed: real, avg: int)
    requires avg >= 0
    ensures EstimatedIncome(fixed, avg) == if avg as real >= 2.0 * fixed then avg as real else fixed + avg as real * 0.5
  {
  }

  // ---------------------------------------------------------------
  // Totals and debt details for the report

  /** One debt as the report lists it; a missing start date shows as "Unknown". */
  datatype DebtDetail = DebtDetail(name: string, amount: real, startDate: string, termYears: int, interestRate: real, gracePeriodYears: int)

  /** One non-debt holding as the report lists it. */
  datatype AssetDetail = AssetDetail(name: string, kind: AssetType, value: real)

  /** The report's entry for a debt: the loan defaults of 20 years, 2 % and no grace period fill the gaps. */
  function DebtDetailOf(a: Asset): (d: DebtDetail)
    ensures d.name == a.name && d.amount == a.amount
    ensures a.startDate.None? ==> d.startDate == "Unknown"
    ensures a.startDate.Some? ==> d.startDate == IsoDate(a.startDate.value)
    ensures a.termYears.None? || a.termYears == Some(0) ==> d.termYears == 20
    ensures a.termYears.Some? && a.termYears.value != 0 ==> d.termYears == a.termYears.value
    ensures a.interestRate.None? || a.interestRate == Some(0.0) ==> d.interestRate == 2.0
    ensures a.interestRate.Some? && a.interestRate.value != 0.0 ==> d.interestRate == a.interestRate.value
    ensures a.interestOnlyPeriod.None? || a.interestOnlyPeriod == Some(0) ==> d.gracePeriodYears == 0
    ensures a.interestOnlyPeriod.Some? && a.interestOnlyPeriod.value != 0 ==> d.gracePeriodYears == a.interestOnlyPeriod.value
  {
    DebtDetail(a.name, a.amount, if a.startDate.Some? then IsoDate(a.startDate.value) else "Unknown",
               OrElseInt(a.termYears, 20), RateOrElse(a.interestRate, 2.0) as real, OrElseInt(a.interestOnlyPeriod, 0))
  }

  /** A stored start date appears in the report as its "YYYY-MM-DD" text, which reads back as the same date. */
  lemma DebtStartDateRoundTrip(a: Asset)
    requires a.startDate.Some? && ValidDate(a.startDate.value) && 1000 <= a.startDate.value.year <= 9999
    ensures ParseDate(DebtDetailOf(a).startDate) == a.startDate
  {
    IsoDateRoundTrip(a.startDate.value);
  }

  /** `exchangeRate || 1`. */
  function EffectiveRate(a: Asset): real {
    if a.exchangeRate != 0.0 then a.exchangeRate else 1.0
  }

  /** The value the report gives a holding: its amount times its exchange rate (a missing or zero rate as 1). */
  function ReportValue(a: Asset): real {
    a.amount * EffectiveRate(a)
  }

  function ReportTerm(a: Asset): real {
    if a.kind != Debt then ReportValue(a) else 0.0
  }

  /** `totalAssetsVal` as the report computes it. */
  function ReportAssets(assets: seq<Asset>): real {
    SumBy(assets, ReportTerm)
  }

  function DebtDetails(assets: seq<Asset>): seq<DebtDetail> {
    if assets == [] then []
    else DebtDetails(assets[..|assets| - 1]) + (if assets[|assets| - 1].kind == Debt then [DebtDetailOf(assets[|assets| - 1])] else [])
  }

  function AssetDetails(assets: seq<Asset>): seq<AssetDetail> {
    if assets == [] then []
    else
      var a := assets[|assets| - 1];
      AssetDetails(assets[..|assets| - 1]) + (if a.kind != Debt then [AssetDetail(a.name, a.kind, ReportValue(a))] else [])
  }

  /**
   * The two `map` passes: the debts, adding each amount to the liabilities
   * as is, then the other holdings, adding amount times rate to the assets.
   */
  method ReportTotals(assets: seq<Asset>)
    returns (totalAssetsVal: real, totalLiabilitiesVal: real, netWorth: real,
             debtDetails: seq<DebtDetail>, assetDetails: seq<AssetDetail>)
    ensures totalLiabilitiesVal == DebtTotal(assets)
    ensures totalAssetsVal == ReportAssets(assets)
    ensures netWorth == totalAssetsVal - totalLiabilitiesVal
    ensures debtDetails == DebtDetails(assets) && assetDetails == AssetDetails(assets)
  {
    totalLiabilitiesVal, debtDetails := 0.0, [];
    var i := 0;
    while i < |assets|
      invariant 0 <= i <= |assets|
      invariant totalLiabilitiesVal == DebtTotal(assets[..i]) && debtDetails == DebtDetails(assets[..i])
    {
      assert assets[..i + 1][..i] == assets[..i];
      if assets[i].kind == Debt {
        totalLiabilitiesVal := totalLiabilitiesVal + assets[i].amount;
        debtDetails := debtDetails + [DebtDetailOf(assets[i])];
      }
      i := i + 1;
    }
    totalAssetsVal, assetDetails := 0.0, [];
    i := 0;
    while i < |assets|
      invariant 0 <= i <= |assets|
      invariant totalAssetsVal == ReportAssets(assets[..i]) && assetDetails == AssetDetails(assets[..i])
    {
      var a := assets[i];
      assert assets[..i + 1][..i] == assets[..i];
      if a.kind != Debt {
        var val := a.amount * EffectiveRate(a);
        totalAssetsVal := totalAssetsVal + val;
        assetDetails := assetDetails + [AssetDetail(a.name, a.kind, val)];
      }
      i := i + 1;
    }
    assert assets[..i] == assets;
    netWorth := totalAssetsVal - totalLiabilitiesVal;
  }

  function DetailAmount(d: DebtDetail): real {
    d.amount
  }

  function DetailValue(d: AssetDetail): real {
    d.value
  }

  /** One detail per debt and one per other holding. */
  lemma {:induction false} DetailsCount(assets: seq<Asset>)
    ensures |DebtDetails(assets)| == CountBy(assets, (a: Asset) => a.kind == Debt)
    ensures |DebtDetails(assets)| + |AssetDetails(assets)| == |assets|
    decreases |assets|
  {
    if assets != [] {
      DetailsCount(assets[..|assets| - 1]);
    }
  }

  /** The debt details' amounts add up to the liabilities. */
  lemma {:induction false} DebtDetailsSum(assets: seq<Asset>)
    ensures SumBy(DebtDetails(assets), DetailAmount) == DebtTotal(assets)
    decreases |assets|
  {
    if assets != [] {
      var n := |assets| - 1;
      DebtDetailsSum(assets[..n]);
      if assets[n].kind == Debt {
        SumByAppend(DebtDetails(assets[..n]), [DebtDetailOf(assets[n])], DetailAmount);
        SumBySingle(DebtDetailOf(assets[n]), DetailAmount);
      } else {
        assert DebtDetails(assets) == DebtDetails(assets[..n]);
      }
    }
  }

  /** The holding details' values add up to the report's assets figure. */
  lemma {:induction false} AssetDetailsSum(assets: seq<Asset>)
    ensures SumBy(AssetDetails(assets), DetailValue) == ReportAssets(assets)
    decreases |assets|
  {
    if assets != [] {
      var n := |assets| - 1;
      AssetDetailsSum(assets[..n]);
      var a := assets[n];
      if a.kind != Debt {
        SumByAppend(AssetDetails(assets[..n]), [AssetDetail(a.name, a.kind, ReportValue(a))], DetailValue);
        SumBySingle(AssetDetail(a.name, a.kind, ReportValue(a)), DetailValue);
      } else {
        assert AssetDetails(assets) == AssetDetails(assets[..n]);
      }
    }
  }

  /**
   * As written, a foreign holding counts twice converted: the form already
   * stores its amount in TWD (100 at rate 30 is stored as 3000), and the
   * report multiplies by the rate again.
   */
  lemma ReportDoubleConverts()
    ensures var a := Asset("usd", "USD deposit", Cash, AssetForm.Converted(Some(100.0), Some(30.0)), Some(100.0),
                           USD, 30.0, 0, None, None, None, None);
      a.amount == 3000.0 && AssetsTotal([a]) == 3000.0 && ReportAssets([a]) == 90000.0
  {
    var c := AssetForm.Converted(Some(100.0), Some(30.0));
    assert c == 3000.0 by {
      assert 2999.5 < c <= 3000.5 && c.Floor as real == c;
    }
    var a := Asset("usd", "USD deposit", Cash, c, Some(100.0), USD, 30.0, 0, None, None, None, None);
    assert [a][..0] == [];
  }

  /** The report's assets figure as intended: the stored TWD amounts, rates not applied again. */
  function CorrectedReportAssets(assets: seq<Asset>): real {
    SumBy(assets, AssetsView.NonDebtAmount)
  }

  /**
   * The corrected figures agree with the snapshot the app records: the same
   * assets total, and the same net worth once the liabilities are taken off.
   * Holdings in TWD (rate 1 or unset) are counted the same as written.
   */
  lemma CorrectedReportAgrees(assets: seq<Asset>, date: string)
    ensures CorrectedReportAssets(assets) == Snapshot(assets, date).totalAssets
    ensures CorrectedReportAssets(assets) - DebtTotal(assets) == Snapshot(assets, date).netWorth
    ensures (forall i :: 0 <= i < |assets| ==> EffectiveRate(assets[i]) == 1.0) ==>
      ReportAssets(assets) == CorrectedReportAssets(assets)
  {
    AssetsView.TotalAssetsAgree(assets);
    if forall i :: 0 <= i < |assets| ==> EffectiveRate(assets[i]) == 1.0 {
      SumByCongruent(assets, ReportTerm, AssetsView.NonDebtAmount);
    }
  }

  // ---------------------------------------------------------------
  // JSON payload of a reply

  /**
   * The lazy fence match: the first opening fence, then the first closing
   * fence after it; None when no closing fence follows any opening one.
   */
  function Fence(text: string, open: string, close: string): (r: Option<(nat, nat)>)
    ensures r.Some? ==> var (i, j) := r.value;
      OccursAt(text, open, i) && (forall k :: 0 <= k < i ==> !OccursAt(text, open, k)) &&
      i + |open| <= j && OccursAt(text, close, j) && (forall k :: i + |open| <= k < j ==> !OccursAt(text, close, k))
    ensures r.None? ==> forall i, j :: OccursAt(text, open, i) && i + |open| <= j ==> !OccursAt(text, close, j)
  {
    match IndexOfFrom(text, open, 0)
    case None => None
    case Some(i) =>
      match IndexOfFrom(text, close, i + |open|)
      case None => None
      case Some(j) => Some((i, j))
  }

  const JsonOpen: string := "```json\n"
  const BareOpen: string := "```\n"
  const FenceClose: string := "\n```"

  /** The text handed to the JSON parser: the ```json block, else a bare ``` block, else the whole reply. */
  function ExtractPayload(text: string): string {
    match Fence(text, JsonOpen, FenceClose)
    case Some((i, j)) => text[i + |JsonOpen| .. j]
    case None =>
      match Fence(text, BareOpen, FenceClose)
      case Some((i, j)) => text[i + |BareOpen| .. j]
      case None => text
  }

  /** No closing fence starts inside the body of a ```json block, not even one that runs into the fence after it. */
  lemma CloseNotInside(body: string, suffix: string, k: int)
    requires !Contains(body, FenceClose)
    requires |JsonOpen| <= k < |JsonOpen| + |body|
    ensures !OccursAt(JsonOpen + body + FenceClose + suffix, FenceClose, k)
  {
    var text := JsonOpen + body + FenceClose + suffix;
    var n := |JsonOpen| + |body|;
    if k + |FenceClose| <= n {
      assert text[k..k + |FenceClose|] == body[k - |JsonOpen|..k - |JsonOpen| + |FenceClose|];
      assert !OccursAt(body, FenceClose, k - |JsonOpen|);
    } else if k + |FenceClose| <= |text| {
      assert text[n] == '\n';
      assert text[k..k + |FenceClose|][n - k] == text[n];
      assert FenceClose[n - k] == '`';
    }
  }

  /** Wrapping a body with no closing fence in a ```json block and extracting it gives the body back. */
  lemma ExtractJsonRoundTrip(body: string, suffix: string)
    requires !Contains(body, FenceClose)
    ensures ExtractPayload(JsonOpen + body + FenceClose + suffix) == body
  {
    var text := JsonOpen + body + FenceClose + suffix;
    var n := |JsonOpen| + |body|;
    assert text[0..|JsonOpen|] == JsonOpen;
    assert OccursAt(text, JsonOpen, 0);
    assert text[n..n + |FenceClose|] == FenceClose;
    assert OccursAt(text, FenceClose, n);
    forall k | |JsonOpen| <= k < n
      ensures !OccursAt(text, FenceClose, k)
    {
      CloseNotInside(body, suffix, k);
    }
    var f := Fence(text, JsonOpen, FenceClose);
    assert f.Some?;
    assert f.value.0 == 0;
    assert f.value.1 == n;
    assert text[|JsonOpen|..n] == body;
  }

  /** A reply with no fence of either kind is parsed whole. */
  lemma UnfencedReplyParsedWhole(text: string)
    requires forall k :: !OccursAt(text, "```", k)
    ensures ExtractPayload(text) == text
  {
    forall i
      ensures !OccursAt(text, JsonOpen, i) && !OccursAt(text, BareOpen, i)
    {
      if 0 <= i && i + 3 <= |text| {
        assert !OccursAt(text, "```", i);
        assert text[i..i + 3] != "```";
        if i + |BareOpen| <= |text| {
          assert text[i..i + |BareOpen|][..3] == text[i..i + 3];
        }
        if i + |JsonOpen| <= |text| {
          assert text[i..i + |JsonOpen|][..3] == text[i..i + 3];
        }
      }
    }
    assert Fence(text, JsonOpen, FenceClose).None?;
    assert Fence(text, BareOpen, FenceClose).None?;
  }

  // ---------------------------------------------------------------
  // Dividend merge

  /** One entry of the dividend reply. */
  datatype DividendInfo = DividendInfo(symbol: string, dividendAmount: Option<real>, dividendYield: Option<real>, dividendFrequency: Option<string>)

  /** `dividendData` after the `try` branches: the parsed payload, or nothing when parsing fails. */
  method ParseDividends(text: string, parse: string -> Option<seq<DividendInfo>>) returns (dividendData: seq<DividendInfo>)
    ensures dividendData == (var p := parse(ExtractPayload(text)); if p.Some? then p.value else [])
  {
    dividendData := [];
    var jsonMatch := Fence(text, JsonOpen, FenceClose);
    if jsonMatch.None? {
      jsonMatch := Fence(text, BareOpen, FenceClose);
      if jsonMatch.Some? {
        var p := parse(text[jsonMatch.value.0 + |BareOpen| .. jsonMatch.value.1]);
        if p.Some? {
          dividendData := p.value;
        }
      } else {
        var p := parse(text);
        if p.Some? {
          dividendData := p.value;
        }
      }
    } else {
      var p := parse(text[jsonMatch.value.0 + |JsonOpen| .. jsonMatch.value.1]);
      if p.Some? {
        dividendData := p.value;
      }
    }
  }

  /** The symbols match when either contains the other. */
  predicate SymbolMatch(info: DividendInfo, symbol: string) {
    Contains(info.symbol, symbol) || Contains(symbol, info.symbol)
  }

  /** One position after the merge: the first matching entry's three dividend fields, or unchanged. */
  function MergeOne(p: StockPosition, data: seq<DividendInfo>): StockPosition {
    match FindIndex(data, (d: DividendInfo) => SymbolMatch(d, p.symbol))
    case Some(j) => p.(dividendAmount := data[j].dividendAmount, dividendYield := data[j].dividendYield,
                       dividendFrequency := data[j].dividendFrequency)
    case None => p
  }

  function MergeDividends(positions: seq<StockPosition>, data: seq<DividendInfo>): seq<StockPosition> {
    seq(|positions|, i requires 0 <= i < |positions| => MergeOne(positions[i], data))
  }

  /**
   * enrichStockDataWithDividends after the reply: no positions, or a failed
   * call (None), gives the positions back; otherwise they are merged.
   */
  function EnrichWithDividends(positions: seq<StockPosition>, data: Option<seq<DividendInfo>>): seq<StockPosition> {
    if |positions| == 0 || data.None? then positions else MergeDividends(positions, data.value)
  }

  /**
   * The merge keeps length and order; each position takes the dividend
   * fields of the first entry matching its symbol and keeps everything else;
   * a position no entry matches is unchanged.
   */
  lemma MergeFacts(positions: seq<StockPosition>, data: seq<DividendInfo>)
    ensures var r := MergeDividends(positions, data);
      |r| == |positions| &&
      (forall i :: 0 <= i < |r| ==>
        r[i].(dividendAmount := positions[i].dividendAmount, dividendYield := positions[i].dividendYield,
              dividendFrequency := positions[i].dividendFrequency) == positions[i]) &&
      (forall i, j ::
        0 <= i < |r| && 0 <= j < |data| && SymbolMatch(data[j], positions[i].symbol) &&
        (forall k :: 0 <= k < j ==> !SymbolMatch(data[k], positions[i].symbol))
        ==>
        r[i].dividendAmount == data[j].dividendAmount && r[i].dividendYield == data[j].dividendYield &&
        r[i].dividendFrequency == data[j].dividendFrequency) &&
      (forall i :: 0 <= i < |r| && (forall j :: 0 <= j < |data| ==> !SymbolMatch(data[j], positions[i].symbol)) ==>
        r[i] == positions[i])
  {
    var r := MergeDividends(positions, data);
    forall i, j | 0 <= i < |r| && 0 <= j < |data| && SymbolMatch(data[j], positions[i].symbol) &&
        (forall k :: 0 <= k < j ==> !SymbolMatch(data[k], positions[i].symbol))
      ensures r[i].dividendAmount == data[j].dividendAmount && r[i].dividendYield == data[j].dividendYield &&
        r[i].dividendFrequency == data[j].dividendFrequency
    {
      var f := FindIndex(data, (d: DividendInfo) => SymbolMatch(d, positions[i].symbol));
      assert f == Some(j);
    }
  }

  /** With no parsed entries every position comes back as it was. */
  lemma EmptyReplyKeepsPositions(positions: seq<StockPosition>, data: Option<seq<DividendInfo>>)
    requires data.None? || data.value == []
    ensures EnrichWithDividends(positions, data) == positions
  {
    if |positions| != 0 && data.Some? {
      MergeFacts(positions, data.value);
    }
  }

  // ---------------------------------------------------------------
  // Spending averages for budget suggestions

  /** An expense dated after the day three calendar months before today. */
  predicate RecentExpense(t: Transaction, today: ValidCalDate) {
    var d := DateDay(t.date);
    t.kind == Expense && d.Some? && d.value > DayNumber(ShiftMonths(today, -3))
  }

  /** The recent expenses, in order. */
  function RecentExpenses(txs: seq<Transaction>, today: ValidCalDate): (r: seq<Transaction>)
    ensures forall i :: 0 <= i < |r| ==> RecentExpense(r[i], today) && r[i] in txs
    ensures forall t :: t in txs && RecentExpense(t, today) ==> t in r
  {
    if txs == [] then []
    else
      var rest := RecentExpenses(txs[..|txs| - 1], today);
      var last := txs[|txs| - 1];
      assert forall t :: t in txs[..|txs| - 1] ==> t in txs;
      assert forall t :: t in txs ==> t in txs[..|txs| - 1] || t == last;
      if RecentExpense(last, today) then rest + [last] else rest
  }

  /** A category is averaged exactly when some recent expense carries it. */
  lemma RecentCategories(txs: seq<Transaction>, today: ValidCalDate)
    ensures forall c :: c in BudgetView.CategoriesOf(RecentExpenses(txs, today)) <==>
      exists t :: t in txs && RecentExpense(t, today) && t.category == c
  {
    var recent := RecentExpenses(txs, today);
    forall c | c in BudgetView.CategoriesOf(recent)
      ensures exists t :: t in txs && RecentExpense(t, today) && t.category == c
    {
      var k :| 0 <= k < |recent| && recent[k].category == c;
      assert recent[k] in txs;
    }
    forall c | exists t :: t in txs && RecentExpense(t, today) && t.category == c
      ensures c in BudgetView.CategoriesOf(recent)
    {
      var t :| t in txs && RecentExpense(t, today) && t.category == c;
      var k :| 0 <= k < |recent| && recent[k] == t;
    }
  }

  /** `Object.keys(stats).forEach(cat => avg[cat] = Math.round(stats[cat] / 3))`. */
  function MonthlyAverages(stats: map<string, real>): (avg: map<string, int>)
    ensures avg.Keys == stats.Keys
  {
    map c | c in stats :: Round(stats[c] / 3.0)
  }

  /** Every averaged category holds a third of its total, rounded. */
  predicate AveragesOf(avg: map<string, int>, s: seq<Transaction>) {
    forall c :: c in avg ==> avg[c] == Round(BudgetView.CategoryTotal(s, c) / 3.0)
  }

  lemma AveragesOfTotals(stats: map<string, real>, s: seq<Transaction>)
    requires forall c :: BudgetView.SpendOf(stats, c) == BudgetView.CategoryTotal(s, c)
    ensures AveragesOf(MonthlyAverages(stats), s)
  {
    forall c | c in stats
      ensures MonthlyAverages(stats)[c] == Round(BudgetView.CategoryTotal(s, c) / 3.0)
    {
      assert BudgetView.SpendOf(stats, c) == stats[c];
    }
  }

  /**
   * The per-category totals of the last three months, then each divided by
   * three and rounded.
   */
  method BudgetAverages(txs: seq<Transaction>, today: ValidCalDate) returns (monthlyAvg: map<string, int>)
    ensures forall c :: c in monthlyAvg <==> exists t :: t in txs && RecentExpense(t, today) && t.category == c
    ensures AveragesOf(monthlyAvg, RecentExpenses(txs, today))
  {
    var recent := RecentExpenses(txs, today);
    var categoryStats := BudgetView.SpendByCategory(recent);
    monthlyAvg := MonthlyAverages(categoryStats);
    RecentCategories(txs, today);
    AveragesOfTotals(categoryStats, recent);
  }
}
