/**
 * The Transactions view (views/Transactions.tsx): the date range chosen in
 * the filter bar, the transactions kept for it, newest first, the income and
 * expense totals, the per-category and per-day accumulations, the daily trend
 * and the expense structure.
 *
 * Calendar days are day numbers (Dates.DayNumber); a range is a pair of
 * bounds, each of which may be an Invalid Date, which excludes nothing since
 * every comparison with it is false.
 */
module TransactionsView {

  import opened Text
  import opened Dates
  import opened Records
  import opened Seqs
  import BudgetView

  // ---------------------------------------------------------------
  // Date range

  datatype TimeRange = ThisWeek | ThisMonth | Last90Days | Custom

  /** First and last day of the range; None is an Invalid Date. */
  datatype Bounds = Bounds(start: Option<int>, end: Option<int>)

  /** Monday-based weekday: `getDay() || 7`. */
  function IsoWeekday(n: int): (d: int)
    ensures 1 <= d <= 7
  {
    if Weekday(n) == 0 then 7 else Weekday(n)
  }

  /**
   * The range for the selected tab, on the day `now`. Start is taken at 00:00
   * and end at 23:59:59.999, so each bound is a whole day.
   */
  function RangeBounds(range: TimeRange, now: ValidCalDate, customStart: Option<string>, customEnd: Option<string>): Bounds {
    var n := DayNumber(now);
    match range
    case ThisWeek =>
      var day := IsoWeekday(n);
      var start := if day != 1 then n - day + 1 else n;
      Bounds(Some(start), Some(start + 6))
    case ThisMonth =>
      Bounds(Some(DayNumber(FirstOfMonth(now))), Some(DayNumber(LastOfMonth(now))))
    case Last90Days =>
      Bounds(Some(n - 90), Some(n))
    case Custom =>
      Bounds(if TruthyStr(customStart) then DateDay(customStart.value) else Some(DayNumber(FirstOfMonth(now))),
             if TruthyStr(customEnd) then DateDay(customEnd.value) else Some(n))
  }

  /** The week runs from a Monday to the Sunday after it and contains today. */
  lemma ThisWeekFacts(now: ValidCalDate)
    ensures var b := RangeBounds(ThisWeek, now, None, None);
      b.start.Some? && b.end.Some? && b.end.value == b.start.value + 6 &&
      b.start.value <= DayNumber(now) <= b.end.value && Weekday(b.start.value) == 1
  {
    var n := DayNumber(now);
    var m := n + 6;
    var w := Weekday(n);
    var q := m / 7;
    assert w == m % 7;
    assert m == 7 * q + w;
    var start := n - IsoWeekday(n) + 1;
    if w == 0 {
      assert start + 6 == 7 * (q - 1) + 1;
    } else {
      assert start + 6 == 7 * q + 1;
    }
  }

  /** For a well-formed date, the month tab keeps exactly the days of the current month. */
  lemma ThisMonthFacts(now: ValidCalDate, d: CalDate)
    requires ValidDate(d)
    ensures var b := RangeBounds(ThisMonth, now, None, None);
      (b.start.value <= DayNumber(d) <= b.end.value <==> d.year == now.year && d.month == now.month)
  {
    MonthWindow(now, d);
  }

  /** The 90-day tab runs from 90 days before today to today; an empty custom range is this month to date. */
  lemma OtherRangeFacts(now: ValidCalDate)
    ensures RangeBounds(Last90Days, now, None, None) == Bounds(Some(DayNumber(now) - 90), Some(DayNumber(now)))
    ensures RangeBounds(Custom, now, None, Some("")) == Bounds(Some(DayNumber(FirstOfMonth(now))), Some(DayNumber(now)))
  {
  }

  // ---------------------------------------------------------------
  // Filter and order

  /** Neither comparison with a bound excludes the day. */
  predicate InBounds(n: int, b: Bounds) {
    !(b.start.Some? && n < b.start.value) && !(b.end.Some? && n > b.end.value)
  }

  /** The search box: empty, or found in the lower-cased item or category. */
  predicate MatchesFilter(t: Transaction, filter: string) {
    filter == [] || Contains(ToLower(t.item), ToLower(filter)) || Contains(ToLower(t.category), ToLower(filter))
  }

  /**
   * A transaction is kept when it has a date, its day is not outside the
   * bounds (an unparsable date compares false both ways and stays), and it
   * matches the search.
   */
  predicate Keep(t: Transaction, b: Bounds, filter: string) {
    t.date != [] && (DateDay(t.date).None? || InBounds(DateDay(t.date).value, b)) && MatchesFilter(t, filter)
  }

  /** Sorting key for "newest first". */
  function DateKey(t: Transaction): real {
    match DateDay(t.date)
    case Some(n) => -(n as real)
    case None => 0.0
  }

  /** `transactions.filter(keep).sort(newest first)`. */
  function Processed(txs: seq<Transaction>, b: Bounds, filter: string): seq<Transaction> {
    SortBy(Filter(txs, t => Keep(t, b, filter)), DateKey)
  }

  /**
   * The kept list holds exactly the input's kept transactions, each as often
   * as in the input, and of two dated ones the newer comes first.
   */
  lemma ProcessedFacts(txs: seq<Transaction>, b: Bounds, filter: string)
    ensures var r := Processed(txs, b, filter);
      (forall i :: 0 <= i < |r| ==> Keep(r[i], b, filter) && r[i] in txs) &&
      (forall t :: t in txs && Keep(t, b, filter) ==> t in r) &&
      (forall t :: multiset(r)[t] == if Keep(t, b, filter) then multiset(txs)[t] else 0) &&
      (forall i, j :: 0 <= i < j < |r| && DateDay(r[i].date).Some? && DateDay(r[j].date).Some? ==>
         DateDay(r[i].date).value >= DateDay(r[j].date).value)
  {
    var p := t => Keep(t, b, filter);
    var kept := Filter(txs, p);
    var r := Processed(txs, b, filter);
    forall i | 0 <= i < |r|
      ensures Keep(r[i], b, filter) && r[i] in txs
    {
      assert r[i] in multiset(kept);
    }
    forall t | t in txs && Keep(t, b, filter)
      ensures t in r
    {
      assert t in multiset(r);
    }
    forall t
      ensures multiset(r)[t] == if Keep(t, b, filter) then multiset(txs)[t] else 0
    {
      FilterMultiset(txs, p, t);
    }
    forall i, j | 0 <= i < j < |r| && DateDay(r[i].date).Some? && DateDay(r[j].date).Some?
      ensures DateDay(r[i].date).value >= DateDay(r[j].date).value
    {
      assert DateKey(r[i]) <= DateKey(r[j]);
    }
  }

  // ---------------------------------------------------------------
  // Totals and accumulations

  function TxCategory(t: Transaction): string {
    t.category
  }

  function TxDate(t: Transaction): string {
    t.date
  }

  /** Everything that is not INCOME is counted as expense. */
  predicate IsExpense(t: Transaction) {
    t.kind != Income
  }

  predicate AnyTx(t: Transaction) {
    true
  }

  function IncomeAmount(t: Transaction): real {
    if t.kind == Income then t.amount else 0.0
  }

  function ExpenseAmount(t: Transaction): real {
    if t.kind != Income then t.amount else 0.0
  }

  function IncomeTotal(s: seq<Transaction>): real {
    SumBy(s, IncomeAmount)
  }

  function ExpenseTotal(s: seq<Transaction>): real {
    SumBy(s, ExpenseAmount)
  }

  /** The categories of the expenses, in first-appearance order: `Object.keys(catMap)`. */
  function CatKeys(s: seq<Transaction>): seq<string> {
    KeysOf(s, TxCategory, IsExpense)
  }

  /** `catMap`: each expense category to the total of its expenses. */
  function CatMapOf(s: seq<Transaction>): map<string, real> {
    map c | c in CatKeys(s) :: KeyedSum(s, TxCategory, ExpenseAmount, c)
  }

  /** The dates seen, in first-appearance order: `Object.keys(dailyMap)`. */
  function DateKeys(s: seq<Transaction>): seq<string> {
    KeysOf(s, TxDate, AnyTx)
  }

  datatype DayTotals = DayTotals(income: real, expense: real)

  /** `dailyMap`: each date to its income and expense totals. */
  function DailyMapOf(s: seq<Transaction>): map<string, DayTotals> {
    map d | d in DateKeys(s) :: DayTotals(KeyedSum(s, TxDate, IncomeAmount, d), KeyedSum(s, TxDate, ExpenseAmount, d))
  }

  /** One more transaction: how the category keys and totals move. */
  lemma CatMapStep(s: seq<Transaction>, i: nat)
    requires i < |s|
    ensures var p, t := s[..i], s[i];
      CatKeys(s[..i + 1]) == (if IsExpense(t) && t.category !in CatKeys(p) then CatKeys(p) + [t.category] else CatKeys(p)) &&
      CatMapOf(s[..i + 1]) ==
        (if IsExpense(t) then CatMapOf(p)[t.category := BudgetView.SpendOf(CatMapOf(p), t.category) + t.amount] else CatMapOf(p))
  {
    var p, q, t := s[..i], s[..i + 1], s[i];
    assert q == p + [t];
    assert q[..i] == p;
    forall c
      ensures KeyedSum(q, TxCategory, ExpenseAmount, c) ==
        KeyedSum(p, TxCategory, ExpenseAmount, c) + (if t.category == c then ExpenseAmount(t) else 0.0)
    {
      KeyedSumSnoc(p, t, TxCategory, ExpenseAmount, c);
    }
    if IsExpense(t) && t.category !in CatKeys(p) {
      KeyedSumAbsent(p, TxCategory, IsExpense, ExpenseAmount, t.category);
    }
  }

  /** One more transaction: how the date keys and day totals move. */
  lemma DailyMapStep(s: seq<Transaction>, i: nat)
    requires i < |s|
    ensures var p, t := s[..i], s[i];
      var start := if t.date in DailyMapOf(p) then DailyMapOf(p)[t.date] else DayTotals(0.0, 0.0);
      DateKeys(s[..i + 1]) == (if t.date !in DateKeys(p) then DateKeys(p) + [t.date] else DateKeys(p)) &&
      DailyMapOf(s[..i + 1]) ==
        DailyMapOf(p)[t.date := if t.kind == Income then start.(income := start.income + t.amount)
                                else start.(expense := start.expense + t.amount)]
  {
    var p, q, t := s[..i], s[..i + 1], s[i];
    assert q == p + [t];
    assert q[..i] == p;
    forall d
      ensures KeyedSum(q, TxDate, IncomeAmount, d) ==
                KeyedSum(p, TxDate, IncomeAmount, d) + (if t.date == d then IncomeAmount(t) else 0.0)
      ensures KeyedSum(q, TxDate, ExpenseAmount, d) ==
                KeyedSum(p, TxDate, ExpenseAmount, d) + (if t.date == d then ExpenseAmount(t) else 0.0)
    {
      KeyedSumSnoc(p, t, TxDate, IncomeAmount, d);
      KeyedSumSnoc(p, t, TxDate, ExpenseAmount, d);
    }
    if t.date !in DateKeys(p) {
      KeyedSumAbsent(p, TxDate, AnyTx, IncomeAmount, t.date);
      KeyedSumAbsent(p, TxDate, AnyTx, ExpenseAmount, t.date);
    }
  }

  datatype RangeStats = RangeStats(income: real, expense: real, balance: real)

  lemma TotalsStep(s: seq<Transaction>, i: nat)
    requires i < |s|
    ensures IncomeTotal(s[..i + 1]) == IncomeTotal(s[..i]) + IncomeAmount(s[i])
    ensures ExpenseTotal(s[..i + 1]) == ExpenseTotal(s[..i]) + ExpenseAmount(s[i])
  {
    assert s[..i + 1][..i] == s[..i];
  }

  /** The first half of the loop body, on `s[i]`: the income and expense totals and `catMap`. */
  method AddToCategories(s: seq<Transaction>, i: nat, income: real, expense: real, catKeys: seq<string>, catMap: map<string, real>)
    returns (income': real, expense': real, catKeys': seq<string>, catMap': map<string, real>)
    requires i < |s|
    requires income == IncomeTotal(s[..i]) && expense == ExpenseTotal(s[..i])
    requires catKeys == CatKeys(s[..i]) && catMap == CatMapOf(s[..i])
    ensures income' == IncomeTotal(s[..i + 1]) && expense' == ExpenseTotal(s[..i + 1])
    ensures catKeys' == CatKeys(s[..i + 1]) && catMap' == CatMapOf(s[..i + 1])
  {
    TotalsStep(s, i);
    CatMapStep(s, i);
    var t := s[i];
    income', expense', catKeys', catMap' := income, expense, catKeys, catMap;
    if t.kind == Income {
      income' := income + t.amount;
    } else {
      expense' := expense + t.amount;
      if t.category !in catMap {
        catKeys' := catKeys + [t.category];
      }
      catMap' := catMap[t.category := (if t.category in catMap then catMap[t.category] else 0.0) + t.amount];
    }
  }

  /** The second half of the loop body, on `s[i]`: `dailyMap`. */
  method AddToDays(s: seq<Transaction>, i: nat, dateKeys: seq<string>, dailyMap: map<string, DayTotals>)
    returns (dateKeys': seq<string>, dailyMap': map<string, DayTotals>)
    requires i < |s|
    requires dateKeys == DateKeys(s[..i]) && dailyMap == DailyMapOf(s[..i])
    ensures dateKeys' == DateKeys(s[..i + 1]) && dailyMap' == DailyMapOf(s[..i + 1])
  {
    DailyMapStep(s, i);
    var t := s[i];
    dateKeys', dailyMap' := dateKeys, dailyMap;
    if t.date !in dailyMap {
      dateKeys' := dateKeys + [t.date];
      dailyMap' := dailyMap[t.date := DayTotals(0.0, 0.0)];
    }
    if t.kind == Income {
      dailyMap' := dailyMap'[t.date := dailyMap'[t.date].(income := dailyMap'[t.date].income + t.amount)];
    } else {
      dailyMap' := dailyMap'[t.date := dailyMap'[t.date].(expense := dailyMap'[t.date].expense + t.amount)];
    }
  }

  /**
   * The `processedTransactions.forEach` accumulation. The key lists record the
   * order in which keys were first set, which is what `Object.keys` returns.
   */
  method Accumulate(s: seq<Transaction>)
    returns (stats: RangeStats, catKeys: seq<string>, catMap: map<string, real>,
             dateKeys: seq<string>, dailyMap: map<string, DayTotals>)
    ensures stats == RangeStats(IncomeTotal(s), ExpenseTotal(s), IncomeTotal(s) - ExpenseTotal(s))
    ensures catKeys == CatKeys(s) && catMap == CatMapOf(s)
    ensures dateKeys == DateKeys(s) && dailyMap == DailyMapOf(s)
  {
    var income, expense := 0.0, 0.0;
    catKeys, catMap, dateKeys, dailyMap := [], map[], [], map[];
    var i := 0;
    while i < |s|
      invariant 0 <= i <= |s|
      invariant income == IncomeTotal(s[..i]) && expense == ExpenseTotal(s[..i])
      invariant catKeys == CatKeys(s[..i]) && catMap == CatMapOf(s[..i])
      invariant dateKeys == DateKeys(s[..i]) && dailyMap == DailyMapOf(s[..i])
    {
      income, expense, catKeys, catMap := AddToCategories(s, i, income, expense, catKeys, catMap);
      dateKeys, dailyMap := AddToDays(s, i, dateKeys, dailyMap);
      i := i + 1;
    }
    assert s[..i] == s;
    stats := RangeStats(income, expense, income - expense);
  }

  /** Income and expense split every amount between them. */
  lemma {:induction false} TotalsSplit(s: seq<Transaction>)
    ensures IncomeTotal(s) + ExpenseTotal(s) == SumBy(s, (t: Transaction) => t.amount)
  {
    if s != [] {
      TotalsSplit(s[..|s| - 1]);
    }
  }

  // ---------------------------------------------------------------
  // Daily trend

  datatype TrendPoint = TrendPoint(day: string, income: real, expense: real)

  /** One point per date, in the given order, labelled with the "MM-DD" suffix. */
  function TrendPoints(dates: seq<string>, daily: map<string, DayTotals>): (r: seq<TrendPoint>)
    ensures |r| == |dates|
  {
    if dates == [] then []
    else
      var d := dates[|dates| - 1];
      var v := if d in daily then daily[d] else DayTotals(0.0, 0.0);
      TrendPoints(dates[..|dates| - 1], daily) + [TrendPoint(DaySuffix(d), v.income, v.expense)]
  }

  /** The dates of the trend, ascending in string order. */
  function TrendDates(s: seq<Transaction>): seq<string> {
    SortStrings(DateKeys(s))
  }

  /** `Object.keys(dailyMap).sort().map(...)`. */
  function DailyTrend(s: seq<Transaction>): seq<TrendPoint> {
    TrendPoints(TrendDates(s), DailyMapOf(s))
  }

  lemma {:induction false} TrendPointsAt(dates: seq<string>, daily: map<string, DayTotals>, i: nat)
    requires i < |dates| && dates[i] in daily
    ensures TrendPoints(dates, daily)[i] == TrendPoint(DaySuffix(dates[i]), daily[dates[i]].income, daily[dates[i]].expense)
    decreases |dates|
  {
    var n := |dates| - 1;
    if i < n {
      assert dates[..n][i] == dates[i];
      TrendPointsAt(dates[..n], daily, i);
    }
  }

  /**
   * The trend's dates are ascending and without repeats, every transaction's
   * date is among them, and each of them is some transaction's date.
   */
  lemma TrendDatesFacts(s: seq<Transaction>)
    ensures var dates := TrendDates(s);
      StrSorted(dates) && Distinct(dates) &&
      (forall k :: 0 <= k < |s| ==> s[k].date in dates) &&
      (forall i :: 0 <= i < |dates| ==> exists k :: 0 <= k < |s| && s[k].date == dates[i])
  {
    var keys := DateKeys(s);
    var dates := TrendDates(s);
    KeysOfFacts(s, TxDate, AnyTx);
    forall k | 0 <= k < |s|
      ensures s[k].date in dates
    {
      assert TxDate(s[k]) in keys;
      assert s[k].date in multiset(keys);
    }
    forall i | 0 <= i < |dates|
      ensures exists k :: 0 <= k < |s| && s[k].date == dates[i]
    {
      assert dates[i] in multiset(dates);
      var j :| 0 <= j < |keys| && keys[j] == dates[i];
      var k :| 0 <= k < |s| && AnyTx(s[k]) && TxDate(s[k]) == keys[j];
    }
    DistinctPermutes(keys, dates);
  }

  /** The trend has one point per date, holding the date's "MM-DD" suffix and its income and expense totals. */
  lemma DailyTrendPoints(s: seq<Transaction>)
    ensures var dates := TrendDates(s);
      var trend := DailyTrend(s);
      |trend| == |dates| &&
      forall i :: 0 <= i < |dates| ==>
        trend[i] == TrendPoint(DaySuffix(dates[i]), KeyedSum(s, TxDate, IncomeAmount, dates[i]),
                               KeyedSum(s, TxDate, ExpenseAmount, dates[i]))
  {
    var dates := TrendDates(s);
    forall i | 0 <= i < |dates|
      ensures DailyTrend(s)[i] == TrendPoint(DaySuffix(dates[i]), KeyedSum(s, TxDate, IncomeAmount, dates[i]),
                                             KeyedSum(s, TxDate, ExpenseAmount, dates[i]))
    {
      assert dates[i] in multiset(dates);
      TrendPointsAt(dates, DailyMapOf(s), i);
    }
  }

  lemma DistinctPermutes(a: seq<string>, b: seq<string>)
    requires Distinct(a) && multiset(a) == multiset(b)
    ensures Distinct(b)
  {
    forall i, j | 0 <= i < j < |b|
      ensures b[i] != b[j]
    {
      DistinctPermutation(a, b, i, j);
    }
  }

  /** A list without repeats holds each value at most once. */
  lemma {:induction false} DistinctCount(a: seq<string>, x: string)
    requires Distinct(a)
    ensures multiset(a)[x] <= 1
    decreases |a|
  {
    if a != [] {
      var n := |a| - 1;
      assert a == a[..n] + [a[n]];
      DistinctCount(a[..n], x);
      if x == a[n] {
        forall m | 0 <= m < n
          ensures a[..n][m] != x
        {
          assert a[..n][m] == a[m];
        }
        assert x !in multiset(a[..n]);
      }
    }
  }

  /** A reordering of a list without repeats has no repeats. */
  lemma DistinctPermutation(a: seq<string>, b: seq<string>, i: nat, j: nat)
    requires Distinct(a) && multiset(a) == multiset(b) && i < j < |b|
    ensures b[i] != b[j]
  {
    DistinctCount(a, b[i]);
    assert b == b[..j] + [b[j]] + b[j + 1..];
    assert b[i] == b[..j][i];
    assert multiset(b)[b[i]] >= multiset(b[..j])[b[i]] + multiset{b[j]}[b[i]];
  }

  // ---------------------------------------------------------------
  // Expense structure

  datatype Slice = Slice(name: string, value: real, percent: real)

  /** `expense > 0 ? value / expense * 100 : 0`. */
  function Percent(value: real, expense: real): real {
    if expense > 0.0 then value / expense * 100.0 else 0.0
  }

  /** `Object.keys(catMap).map(cat => ...)`. */
  function Slices(keys: seq<string>, catMap: map<string, real>, expense: real): (r: seq<Slice>)
    ensures |r| == |keys|
  {
    if keys == [] then []
    else
      var c := keys[|keys| - 1];
      var v := if c in catMap then catMap[c] else 0.0;
      Slices(keys[..|keys| - 1], catMap, expense) + [Slice(c, v, Percent(v, expense))]
  }

  function SliceValue(x: Slice): real {
    x.value
  }

  function NegValue(x: Slice): real {
    -x.value
  }

  /** The slices sorted by value, largest first. */
  function ExpenseStructure(s: seq<Transaction>): seq<Slice> {
    SortBy(Slices(CatKeys(s), CatMapOf(s), ExpenseTotal(s)), NegValue)
  }

  lemma {:induction false} SlicesSum(keys: seq<string>, s: seq<Transaction>, expense: real)
    requires forall i :: 0 <= i < |keys| ==> keys[i] in CatMapOf(s)
    ensures SumBy(Slices(keys, CatMapOf(s), expense), SliceValue) == SumKeyed(keys, s, TxCategory, ExpenseAmount)
    decreases |keys|
  {
    if keys != [] {
      var n := |keys| - 1;
      var prev := Slices(keys[..n], CatMapOf(s), expense);
      var v := CatMapOf(s)[keys[n]];
      var last := Slice(keys[n], v, Percent(v, expense));
      assert Slices(keys, CatMapOf(s), expense) == prev + [last];
      SlicesSum(keys[..n], s, expense);
      SumByAppend(prev, [last], SliceValue);
      SumBySingle(last, SliceValue);
    }
  }

  /**
   * The structure is sorted by value, largest first, and its values add up
   * to the expense total: every expense is counted in exactly one slice.
   */
  lemma ExpenseStructureFacts(s: seq<Transaction>)
    ensures var r := ExpenseStructure(s);
      |r| == |CatKeys(s)| &&
      (forall i, j :: 0 <= i < j < |r| ==> r[i].value >= r[j].value) &&
      SumBy(r, SliceValue) == ExpenseTotal(s)
  {
    var keys := CatKeys(s);
    var slices := Slices(keys, CatMapOf(s), ExpenseTotal(s));
    var r := ExpenseStructure(s);
    forall i, j | 0 <= i < j < |r|
      ensures r[i].value >= r[j].value
    {
      assert NegValue(r[i]) <= NegValue(r[j]);
    }
    KeysOfFacts(s, TxCategory, IsExpense);
    SumByPermutation(r, slices, SliceValue);
    SlicesSum(keys, s, ExpenseTotal(s));
    forall i | 0 <= i < |s| && ExpenseAmount(s[i]) != 0.0
      ensures TxCategory(s[i]) in keys
    {
      assert IsExpense(s[i]);
    }
    SumKeyedCovers(keys, s, TxCategory, ExpenseAmount);
  }

  /** Each slice's percent is its share of the expense total, or 0 when there is no expense. */
  lemma SlicePercent(keys: seq<string>, catMap: map<string, real>, expense: real, i: nat)
    requires i < |keys|
    ensures var x := Slices(keys, catMap, expense)[i];
      x.name == keys[i] && x.percent == Percent(x.value, expense) &&
      (expense <= 0.0 ==> x.percent == 0.0)
    decreases |keys|
  {
    var n := |keys| - 1;
    if i < n {
      assert keys[..n][i] == keys[i];
      SlicePercent(keys[..n], catMap, expense, i);
    }
  }
}
