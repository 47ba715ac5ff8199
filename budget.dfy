/**
 * The Budget view (views/Budget.tsx): this month's spend per category, the
 * tracked spend against the budget limits, the five largest recent expenses,
 * the financial context handed to the purchase simulator, and the edits that
 * keep one budget entry per category.
 */
module BudgetView {

  import opened Text
  import opened Dates
  import opened Records
  import opened Seqs
  import opened Store

  // ---------------------------------------------------------------
  // Spend per category this month

  /** An EXPENSE dated from the first of the current month up to today. */
  predicate MonthExpense(t: Transaction, today: ValidCalDate) {
    var d := DateDay(t.date);
    t.kind == Expense && d.Some? && DayNumber(FirstOfMonth(today)) <= d.value <= DayNumber(today)
  }

  /** `transactions.filter(...)` for this month's expenses. */
  function MonthExpenses(txs: seq<Transaction>, today: ValidCalDate): (r: seq<Transaction>)
    ensures forall i :: 0 <= i < |r| ==> MonthExpense(r[i], today) && r[i] in txs
    ensures forall t :: t in txs && MonthExpense(t, today) ==> t in r
  {
    if txs == [] then []
    else
      var rest := MonthExpenses(txs[..|txs| - 1], today);
      var last := txs[|txs| - 1];
      assert forall t :: t in txs[..|txs| - 1] ==> t in txs;
      assert forall t :: t in txs ==> t in txs[..|txs| - 1] || t == last;
      if MonthExpense(last, today) then rest + [last] else rest
  }

  /**
   * For a well-formed date, the window is exactly "this month, up to today's
   * day of the month".
   */
  lemma MonthExpenseMeaning(t: Transaction, today: ValidCalDate, d: CalDate)
    requires ParseDate(t.date) == Some(d) && ValidDate(d)
    ensures MonthExpense(t, today) <==>
      t.kind == Expense && d.year == today.year && d.month == today.month && d.day <= today.day
  {
    MonthWindow(today, d);
    DayNumberOrder(d, today);
    DayNumberOrder(LastOfMonth(today), d);
  }

  function CategoriesOf(s: seq<Transaction>): set<string> {
    set i | 0 <= i < |s| :: s[i].category
  }

  /** Sum of the amounts in one category. */
  function CategoryTotal(s: seq<Transaction>, c: string): real {
    if s == [] then 0.0
    else CategoryTotal(s[..|s| - 1], c) + (if s[|s| - 1].category == c then s[|s| - 1].amount else 0.0)
  }

  /** `catSpend[c] || 0`. */
  function SpendOf(m: map<string, real>, c: string): real {
    if c in m then m[c] else 0.0
  }

  lemma {:induction false} CategoryTotalAbsent(s: seq<Transaction>, c: string)
    requires c !in CategoriesOf(s)
    ensures CategoryTotal(s, c) == 0.0
  {
    if s != [] {
      assert CategoriesOf(s[..|s| - 1]) <= CategoriesOf(s) by {
        forall x | x in CategoriesOf(s[..|s| - 1]) ensures x in CategoriesOf(s) {
          var i :| 0 <= i < |s| - 1 && s[..|s| - 1][i].category == x;
          assert s[i].category == x;
        }
      }
      assert s[|s| - 1].category in CategoriesOf(s);
      CategoryTotalAbsent(s[..|s| - 1], c);
    }
  }

  lemma CategoriesStep(s: seq<Transaction>, i: nat)
    requires i < |s|
    ensures CategoriesOf(s[..i + 1]) == CategoriesOf(s[..i]) + {s[i].category}
  {
    var a, b := s[..i], s[..i + 1];
    forall x | x in CategoriesOf(b) ensures x in CategoriesOf(a) + {s[i].category} {
      var j :| 0 <= j < |b| && b[j].category == x;
      if j < i {
        assert a[j] == b[j];
      }
    }
    forall x | x in CategoriesOf(a) ensures x in CategoriesOf(b) {
      var j :| 0 <= j < |a| && a[j].category == x;
      assert b[j] == a[j];
    }
    assert b[i] == s[i];
  }

  lemma CategoryTotalStep(s: seq<Transaction>, i: nat, c: string)
    requires i < |s|
    ensures CategoryTotal(s[..i + 1], c) == CategoryTotal(s[..i], c) + (if s[i].category == c then s[i].amount else 0.0)
  {
    assert s[..i + 1][..i] == s[..i];
  }

  /** Accumulating amounts per category over a list: one key per category seen, holding its total. */
  method SpendByCategory(s: seq<Transaction>) returns (catSpend: map<string, real>)
    ensures catSpend.Keys == CategoriesOf(s)
    ensures forall c :: SpendOf(catSpend, c) == CategoryTotal(s, c)
  {
    catSpend := map[];
    var i := 0;
    assert CategoriesOf(s[..0]) == {};
    while i < |s|
      invariant 0 <= i <= |s|
      invariant catSpend.Keys == CategoriesOf(s[..i])
      invariant forall c :: SpendOf(catSpend, c) == CategoryTotal(s[..i], c)
    {
      var t := s[i];
      CategoriesStep(s, i);
      ghost var before := catSpend;
      catSpend := catSpend[t.category := SpendOf(catSpend, t.category) + t.amount];
      forall c
        ensures SpendOf(catSpend, c) == CategoryTotal(s[..i + 1], c)
      {
        CategoryTotalStep(s, i, c);
        if c != t.category {
          assert SpendOf(catSpend, c) == SpendOf(before, c);
        }
      }
      i := i + 1;
    }
    assert s[..i] == s;
  }

  /** The `monthTransactions.forEach` accumulation over this month's expenses. */
  method CategorySpend(txs: seq<Transaction>, today: ValidCalDate) returns (catSpend: map<string, real>)
    ensures catSpend.Keys == CategoriesOf(MonthExpenses(txs, today))
    ensures forall c :: SpendOf(catSpend, c) == CategoryTotal(MonthExpenses(txs, today), c)
  {
    var monthTransactions := MonthExpenses(txs, today);
    catSpend := SpendByCategory(monthTransactions);
  }

  // ---------------------------------------------------------------
  // Budget execution rate

  /** Sum of the positive limits. */
  function LimitTotal(budgets: seq<BudgetConfig>): real {
    if budgets == [] then 0.0
    else
      var b := budgets[|budgets| - 1];
      LimitTotal(budgets[..|budgets| - 1]) + (if b.limit > 0.0 then b.limit else 0.0)
  }

  /** Sum of the spend of the categories whose budget limit is positive. */
  function TrackedTotal(budgets: seq<BudgetConfig>, catSpend: map<string, real>): real {
    if budgets == [] then 0.0
    else
      var b := budgets[|budgets| - 1];
      TrackedTotal(budgets[..|budgets| - 1], catSpend) + (if b.limit > 0.0 then SpendOf(catSpend, b.category) else 0.0)
  }

  /** The `budgets.forEach` accumulation of tracked spend and total limit. */
  method BudgetTotals(budgets: seq<BudgetConfig>, catSpend: map<string, real>)
    returns (trackedSpendSum: real, totalLimitSum: real)
    ensures trackedSpendSum == TrackedTotal(budgets, catSpend)
    ensures totalLimitSum == LimitTotal(budgets)
  {
    trackedSpendSum, totalLimitSum := 0.0, 0.0;
    var i := 0;
    while i < |budgets|
      invariant 0 <= i <= |budgets|
      invariant trackedSpendSum == TrackedTotal(budgets[..i], catSpend)
      invariant totalLimitSum == LimitTotal(budgets[..i])
    {
      var b := budgets[i];
      assert budgets[..i + 1][..i] == budgets[..i];
      if b.limit > 0.0 {
        totalLimitSum := totalLimitSum + b.limit;
        trackedSpendSum := trackedSpendSum + SpendOf(catSpend, b.category);
      }
      i := i + 1;
    }
    assert budgets[..i] == budgets;
  }

  /** Spend in categories without a positive budget does not count: only tracked categories are read. */
  lemma {:induction false} TrackedIgnoresUntracked(budgets: seq<BudgetConfig>, m1: map<string, real>, m2: map<string, real>)
    requires forall b :: b in budgets && b.limit > 0.0 ==> SpendOf(m1, b.category) == SpendOf(m2, b.category)
    ensures TrackedTotal(budgets, m1) == TrackedTotal(budgets, m2)
  {
    if budgets != [] {
      assert forall b :: b in budgets[..|budgets| - 1] ==> b in budgets;
      TrackedIgnoresUntracked(budgets[..|budgets| - 1], m1, m2);
    }
  }

  /** The total limit is not negative, and when no tracked category overspends, tracked spend stays within it. */
  lemma {:induction false} TrackedWithinLimit(budgets: seq<BudgetConfig>, catSpend: map<string, real>)
    requires forall b :: b in budgets && b.limit > 0.0 ==> SpendOf(catSpend, b.category) <= b.limit
    ensures 0.0 <= LimitTotal(budgets)
    ensures TrackedTotal(budgets, catSpend) <= LimitTotal(budgets)
  {
    if budgets != [] {
      assert forall b :: b in budgets[..|budgets| - 1] ==> b in budgets;
      TrackedWithinLimit(budgets[..|budgets| - 1], catSpend);
    }
  }

  /** `totalBudgetLimit > 0 ? trackedSpend / totalBudgetLimit * 100 : 0`. */
  function TotalPercent(trackedSpend: real, totalLimit: real): real {
    if totalLimit > 0.0 then trackedSpend / totalLimit * 100.0 else 0.0
  }

  datatype StatusColor = Emerald | Amber | Red

  /** The status colour: emerald, then amber above 80, then red above 100, each test overriding the previous. */
  function TotalStatusColor(percent: real): StatusColor {
    var color := Emerald;
    var color := if percent > 80.0 then Amber else color;
    if percent > 100.0 then Red else color
  }

  lemma StatusThresholds(percent: real)
    ensures TotalStatusColor(percent) == Emerald <==> percent <= 80.0
    ensures TotalStatusColor(percent) == Amber <==> 80.0 < percent <= 100.0
    ensures TotalStatusColor(percent) == Red <==> percent > 100.0
  {
  }

  /** No limit gives 0 %; spend within a positive limit never shows red. */
  lemma PercentFacts(trackedSpend: real, totalLimit: real, share: real)
    requires totalLimit > 0.0 ==> share == trackedSpend / totalLimit
    ensures totalLimit <= 0.0 ==> TotalPercent(trackedSpend, totalLimit) == 0.0
    ensures totalLimit > 0.0 && 0.0 <= trackedSpend <= totalLimit ==>
      0.0 <= TotalPercent(trackedSpend, totalLimit) <= 100.0 && TotalStatusColor(TotalPercent(trackedSpend, totalLimit)) != Red
  {
    if totalLimit > 0.0 && 0.0 <= trackedSpend <= totalLimit {
      assert share * totalLimit == trackedSpend;
      assert 0.0 <= share <= 1.0;
    }
  }

  // ---------------------------------------------------------------
  // Large expenses

  const InvestmentCategory: string := "投資"

  /**
   * A candidate large expense: an EXPENSE dated after the day thirty days ago
   * (that bound carries the current time of day), not an investment, and not
   * auto-posted by a recurring item.
   */
  predicate LargeCandidate(t: Transaction, today: ValidCalDate) {
    var d := DateDay(t.date);
    t.kind == Expense && d.Some? && d.value > DayNumber(today) - 30 &&
    t.category != InvestmentCategory && !(t.note.Some? && Contains(t.note.value, "Auto-Executed"))
  }

  function LargeCandidates(txs: seq<Transaction>, today: ValidCalDate): (r: seq<Transaction>)
    ensures forall i :: 0 <= i < |r| ==> LargeCandidate(r[i], today) && r[i] in txs
    ensures forall t :: t in txs && LargeCandidate(t, today) ==> t in r
  {
    if txs == [] then []
    else
      var rest := LargeCandidates(txs[..|txs| - 1], today);
      var last := txs[|txs| - 1];
      assert forall t :: t in txs[..|txs| - 1] ==> t in txs;
      assert forall t :: t in txs ==> t in txs[..|txs| - 1] || t == last;
      if LargeCandidate(last, today) then rest + [last] else rest
  }

  /** Sorting key for "largest first". */
  function NegAmount(t: Transaction): real {
    -t.amount
  }

  /** `.filter(...).sort((a, b) => b.amount - a.amount).slice(0, 5)`. */
  function LargeExpenses(txs: seq<Transaction>, today: ValidCalDate): seq<Transaction> {
    Take(SortBy(LargeCandidates(txs, today), NegAmount), 5)
  }

  /**
   * Five candidates, or all of them when there are fewer, each taken at most
   * as often as it occurs; largest first; and no candidate left out is
   * larger than one kept.
   */
  lemma LargeExpensesFacts(txs: seq<Transaction>, today: ValidCalDate)
    ensures var r := LargeExpenses(txs, today);
      var cands := LargeCandidates(txs, today);
      |r| == (if |cands| < 5 then |cands| else 5) && multiset(r) <= multiset(cands) &&
      (forall i, j :: 0 <= i < j < |r| ==> r[i].amount >= r[j].amount) &&
      (forall i :: 0 <= i < |r| ==> LargeCandidate(r[i], today) && r[i] in txs) &&
      (forall t :: t in txs && LargeCandidate(t, today) && t !in r ==>
         |r| == 5 && forall i :: 0 <= i < |r| ==> r[i].amount >= t.amount)
  {
    var cands := LargeCandidates(txs, today);
    TopFiveByAmount(cands);
  }

  /** The five largest of a list by amount, as LargeExpenses takes them from its candidates. */
  lemma TopFiveByAmount(cands: seq<Transaction>)
    ensures var r := Take(SortBy(cands, NegAmount), 5);
      |r| == (if |cands| < 5 then |cands| else 5) && multiset(r) <= multiset(cands) &&
      (forall i, j :: 0 <= i < j < |r| ==> r[i].amount >= r[j].amount) &&
      (forall i :: 0 <= i < |r| ==> r[i] in cands) &&
      (forall t :: t in cands && t !in r ==> |r| == 5 && forall i :: 0 <= i < |r| ==> r[i].amount >= t.amount)
  {
    var r := Take(SortBy(cands, NegAmount), 5);
    TakeSortedFacts(cands, NegAmount, 5);
    forall i, j | 0 <= i < j < |r|
      ensures r[i].amount >= r[j].amount
    {
      assert NegAmount(r[i]) <= NegAmount(r[j]);
    }
    forall t | t in cands && t !in r
      ensures |r| == 5 && forall i :: 0 <= i < |r| ==> r[i].amount >= t.amount
    {
      forall i | 0 <= i < |r|
        ensures r[i].amount >= t.amount
      {
        assert NegAmount(r[i]) <= NegAmount(t);
      }
    }
  }

  // ---------------------------------------------------------------
  // Financial context for the purchase simulator

  /** A recurring amount per month: a YEARLY amount divided by 12, unrounded. */
  function MonthlyEquivalent(r: RecurringItem): real {
    if r.frequency == Yearly then r.amount / 12.0 else r.amount
  }

  /** `recurring.filter(r => r.type === kind).reduce((sum, r) => sum + monthly(r), 0)`. */
  function MonthlySum(recurring: seq<RecurringItem>, kind: TxType): real {
    if recurring == [] then 0.0
    else
      var r := recurring[|recurring| - 1];
      MonthlySum(recurring[..|recurring| - 1], kind) + (if r.kind == kind then MonthlyEquivalent(r) else 0.0)
  }

  /** Sum of all amounts, with debts subtracted: the `reduce` behind netWorth. */
  function SignedTotal(assets: seq<Asset>): real {
    if assets == [] then 0.0
    else
      var a := assets[|assets| - 1];
      SignedTotal(assets[..|assets| - 1]) + (if a.kind == Debt then -a.amount else a.amount)
  }

  datatype FinancialContext = FinancialContext(monthlyIncome: real, monthlyFixedExpenses: real, currentCash: real, netWorth: real)

  /** The context: monthly income with a 5000 baseline, fixed expenses, cash, net worth. */
  function Context(recurring: seq<RecurringItem>, assets: seq<Asset>): FinancialContext {
    FinancialContext(MonthlySum(recurring, Income) + 5000.0, MonthlySum(recurring, Expense),
                     TypeTotal(assets, Cash), SignedTotal(assets))
  }

  /** Net worth here agrees with the snapshot's: non-debt total minus debt total. */
  lemma {:induction false} NetWorthAgrees(assets: seq<Asset>)
    ensures SignedTotal(assets) == AssetsTotal(assets) - DebtTotal(assets)
  {
    if assets != [] {
      NetWorthAgrees(assets[..|assets| - 1]);
    }
  }

  /** Every recurring item counts once, in its own kind: income plus expense is the sum of all monthly equivalents. */
  lemma {:induction false} MonthlySumSplit(recurring: seq<RecurringItem>)
    ensures MonthlySum(recurring, Income) + MonthlySum(recurring, Expense) == SumBy(recurring, MonthlyEquivalent)
  {
    if recurring != [] {
      MonthlySumSplit(recurring[..|recurring| - 1]);
    }
  }

  // ---------------------------------------------------------------
  // Budget edits

  function BudgetCategory(b: BudgetConfig): string {
    b.category
  }

  /** How many entries the category has. */
  function CountCategory(budgets: seq<BudgetConfig>, c: string): nat {
    if budgets == [] then 0
    else CountCategory(budgets[..|budgets| - 1], c) + (if budgets[|budgets| - 1].category == c then 1 else 0)
  }

  lemma {:induction false} CountCategoryZero(budgets: seq<BudgetConfig>, c: string)
    requires forall i :: 0 <= i < |budgets| ==> budgets[i].category != c
    ensures CountCategory(budgets, c) == 0
  {
    if budgets != [] {
      CountCategoryZero(budgets[..|budgets| - 1], c);
    }
  }

  /**
   * handleSetBudget, with `parsed` the result of parseInt (None for NaN):
   * None leaves the list alone; otherwise the category's entries are dropped
   * and one entry is appended when the limit is positive.
   */
  function SetBudget(budgets: seq<BudgetConfig>, category: string, parsed: Option<int>): seq<BudgetConfig> {
    match parsed
    case None => budgets
    case Some(limit) =>
      if limit > 0 then ApplySuggestion(budgets, BudgetConfig(category, limit as real))
      else RemoveKey(budgets, BudgetCategory, category)
  }

  /** No entry of the category is left once its entries are dropped. */
  lemma RemovedCategoryCount(budgets: seq<BudgetConfig>, c: string)
    ensures CountCategory(RemoveKey(budgets, BudgetCategory, c), c) == 0
  {
    var kept := RemoveKey(budgets, BudgetCategory, c);
    forall i | 0 <= i < |kept|
      ensures kept[i].category != c
    {
      assert BudgetCategory(kept[i]) != c;
    }
    CountCategoryZero(kept, c);
  }

  /** applyBudgetSuggestion: drop the category's entries and append the suggestion. */
  function ApplySuggestion(budgets: seq<BudgetConfig>, s: BudgetConfig): seq<BudgetConfig> {
    RemoveKey(budgets, BudgetCategory, s.category) + [s]
  }

  /** The suggestion is last and its category's only entry; the other entries stay, in order. */
  lemma ApplySuggestionFacts(budgets: seq<BudgetConfig>, s: BudgetConfig)
    ensures var r := ApplySuggestion(budgets, s);
      r[|r| - 1] == s && CountCategory(r, s.category) == 1 &&
      RemoveKey(r, BudgetCategory, s.category) == RemoveKey(budgets, BudgetCategory, s.category)
  {
    var kept := RemoveKey(budgets, BudgetCategory, s.category);
    var r := kept + [s];
    RemovedCategoryCount(budgets, s.category);
    assert r[..|r| - 1] == kept;
    assert CountCategory(r, s.category) == CountCategory(kept, s.category) + 1;
    RemoveKeyAppended(kept, BudgetCategory, s);
    RemoveKeyIdempotent(budgets, BudgetCategory, s.category);
  }

  /**
   * After setting a budget the category has one entry (the new limit, last)
   * when the limit is positive and none otherwise; the other categories'
   * entries stay, in order.
   */
  lemma SetBudgetFacts(budgets: seq<BudgetConfig>, category: string, limit: int)
    ensures var r := SetBudget(budgets, category, Some(limit));
      CountCategory(r, category) == (if limit > 0 then 1 else 0) &&
      (limit > 0 ==> r[|r| - 1] == BudgetConfig(category, limit as real)) &&
      RemoveKey(r, BudgetCategory, category) == RemoveKey(budgets, BudgetCategory, category)
  {
    if limit > 0 {
      ApplySuggestionFacts(budgets, BudgetConfig(category, limit as real));
    } else {
      RemovedCategoryCount(budgets, category);
      RemoveKeyIdempotent(budgets, BudgetCategory, category);
    }
  }

  /** `findIndex(b => b.category === c)`. */
  function FindCategory(budgets: seq<BudgetConfig>, c: string): (r: Option<nat>)
    ensures r.Some? ==> r.value < |budgets| && budgets[r.value].category == c
    ensures r.Some? ==> forall k :: 0 <= k < r.value ==> budgets[k].category != c
    ensures r.None? ==> forall i :: 0 <= i < |budgets| ==> budgets[i].category != c
  {
    if budgets == [] then None
    else if budgets[0].category == c then Some(0)
    else
      var r := FindCategory(budgets[1..], c);
      if r.Some? then Some(r.value + 1) else None
  }

  /** One suggestion: overwrite the first entry of its category, or append it. */
  function ApplyOne(budgets: seq<BudgetConfig>, s: BudgetConfig): seq<BudgetConfig> {
    match FindCategory(budgets, s.category)
    case Some(i) => budgets[i := s]
    case None => budgets + [s]
  }

  /** applyAllSuggestions as a value: the suggestions applied in order. */
  function ApplyAll(budgets: seq<BudgetConfig>, suggestions: seq<BudgetConfig>): seq<BudgetConfig> {
    if suggestions == [] then budgets
    else ApplyOne(ApplyAll(budgets, suggestions[..|suggestions| - 1]), suggestions[|suggestions| - 1])
  }

  /** The `suggestedBudgets.forEach` loop, updating in place or pushing. */
  method ApplyAllSuggestions(budgets: seq<BudgetConfig>, suggestions: seq<BudgetConfig>) returns (newBudgets: seq<BudgetConfig>)
    ensures newBudgets == ApplyAll(budgets, suggestions)
  {
    newBudgets := budgets;
    var i := 0;
    while i < |suggestions|
      invariant 0 <= i <= |suggestions|
      invariant newBudgets == ApplyAll(budgets, suggestions[..i])
    {
      var s := suggestions[i];
      assert suggestions[..i + 1][..i] == suggestions[..i];
      var idx := FindCategory(newBudgets, s.category);
      if idx.Some? {
        newBudgets := newBudgets[idx.value := s];
      } else {
        newBudgets := newBudgets + [s];
      }
      i := i + 1;
    }
    assert suggestions[..i] == suggestions;
  }

  predicate UniqueCategories(budgets: seq<BudgetConfig>) {
    forall i, j :: 0 <= i < j < |budgets| ==> budgets[i].category != budgets[j].category
  }

  /**
   * One suggestion keeps every position's category, changes only entries of
   * its own category, appends only when the category is new, and leaves the
   * suggestion in the list.
   */
  lemma ApplyOneFacts(budgets: seq<BudgetConfig>, s: BudgetConfig)
    ensures var r := ApplyOne(budgets, s);
      |r| >= |budgets| && s in r &&
      (forall i :: 0 <= i < |budgets| ==> r[i].category == budgets[i].category) &&
      (forall i :: 0 <= i < |budgets| && budgets[i].category != s.category ==> r[i] == budgets[i]) &&
      (forall i :: |budgets| <= i < |r| ==> r[i] == s && forall k :: 0 <= k < |budgets| ==> budgets[k].category != s.category)
  {
    var r := ApplyOne(budgets, s);
    match FindCategory(budgets, s.category)
    case Some(i) =>
      assert r[i] == s;
    case None =>
      assert r[|budgets|] == s;
  }

  /** One suggestion keeps categories unique. */
  lemma ApplyOneUnique(budgets: seq<BudgetConfig>, s: BudgetConfig)
    requires UniqueCategories(budgets)
    ensures UniqueCategories(ApplyOne(budgets, s))
  {
    ApplyOneFacts(budgets, s);
  }

  /** Applying all suggestions: existing positions keep their category, and nothing is removed. */
  lemma {:induction false} ApplyAllKeepsPositions(budgets: seq<BudgetConfig>, suggestions: seq<BudgetConfig>)
    ensures var r := ApplyAll(budgets, suggestions);
      |r| >= |budgets| && forall i :: 0 <= i < |budgets| ==> r[i].category == budgets[i].category
  {
    if suggestions != [] {
      var n := |suggestions| - 1;
      ApplyAllKeepsPositions(budgets, suggestions[..n]);
      ApplyOneFacts(ApplyAll(budgets, suggestions[..n]), suggestions[n]);
    }
  }

  /** Entries of categories never suggested are untouched. */
  lemma {:induction false} ApplyAllUntouched(budgets: seq<BudgetConfig>, suggestions: seq<BudgetConfig>, i: nat)
    requires i < |budgets|
    requires forall k :: 0 <= k < |suggestions| ==> suggestions[k].category != budgets[i].category
    ensures i < |ApplyAll(budgets, suggestions)| && ApplyAll(budgets, suggestions)[i] == budgets[i]
  {
    if suggestions != [] {
      var n := |suggestions| - 1;
      assert forall k :: 0 <= k < n ==> suggestions[..n][k] == suggestions[k];
      ApplyAllUntouched(budgets, suggestions[..n], i);
      ApplyOneFacts(ApplyAll(budgets, suggestions[..n]), suggestions[n]);
    }
  }

  /** Entries past the original ones are suggestions whose category was not there before. */
  lemma {:induction false} ApplyAllAppended(budgets: seq<BudgetConfig>, suggestions: seq<BudgetConfig>)
    ensures var r := ApplyAll(budgets, suggestions);
      forall i :: |budgets| <= i < |r| ==>
        r[i] in suggestions && forall k :: 0 <= k < |budgets| ==> budgets[k].category != r[i].category
  {
    if suggestions != [] {
      var n := |suggestions| - 1;
      var s := suggestions[n];
      var prev := ApplyAll(budgets, suggestions[..n]);
      var r := ApplyOne(prev, s);
      ApplyAllAppended(budgets, suggestions[..n]);
      ApplyAllKeepsPositions(budgets, suggestions[..n]);
      ApplyOneFacts(prev, s);
      forall i | |budgets| <= i < |r|
        ensures r[i] in suggestions && forall k :: 0 <= k < |budgets| ==> budgets[k].category != r[i].category
      {
        if i < |prev| {
          assert prev[i] in suggestions[..n];
          if r[i] != prev[i] {
            assert r[i] == s;
            assert r[i].category == prev[i].category;
          }
        } else {
          assert r[i] == s;
          forall k | 0 <= k < |budgets|
            ensures budgets[k].category != s.category
          {
            assert prev[k].category == budgets[k].category;
          }
        }
      }
    }
  }

  /**
   * The categories of the suggestions that no existing entry has, once each,
   * in the order they first appear among the suggestions.
   */
  function NewCategories(budgets: seq<BudgetConfig>, suggestions: seq<BudgetConfig>): (r: seq<string>)
    ensures Distinct(r)
    ensures forall c :: c in r ==> FindCategory(budgets, c).None? && exists k :: 0 <= k < |suggestions| && suggestions[k].category == c
  {
    if suggestions == [] then []
    else
      var n := |suggestions| - 1;
      var prev := NewCategories(budgets, suggestions[..n]);
      var c := suggestions[n].category;
      assert forall x :: x in prev ==> exists k :: 0 <= k < n && suggestions[..n][k].category == x && suggestions[k] == suggestions[..n][k];
      if c in prev || FindCategory(budgets, c).Some? then prev else prev + [c]
  }

  /**
   * The entries past the original ones carry exactly the new categories, in
   * the order they first appear among the suggestions, one entry each.
   */
  lemma {:induction false} ApplyAllAppendedOrder(budgets: seq<BudgetConfig>, suggestions: seq<BudgetConfig>)
    ensures var r := ApplyAll(budgets, suggestions);
      var added := NewCategories(budgets, suggestions);
      |r| == |budgets| + |added| &&
      forall i :: 0 <= i < |added| ==> r[|budgets| + i].category == added[i]
  {
    if suggestions != [] {
      var n := |suggestions| - 1;
      ApplyAllAppendedOrder(budgets, suggestions[..n]);
      ApplyAllKeepsPositions(budgets, suggestions[..n]);
      var prev, added, s := ApplyAll(budgets, suggestions[..n]), NewCategories(budgets, suggestions[..n]), suggestions[n];
      AppendedOrderStep(budgets, prev, added, s);
      assert ApplyAll(budgets, suggestions) == ApplyOne(prev, s);
      assert NewCategories(budgets, suggestions) ==
        if s.category in added || FindCategory(budgets, s.category).Some? then added else added + [s.category];
    }
  }

  /**
   * One suggestion keeps the appended tail in first-appearance order: it
   * extends the tail exactly when its category is in neither part.
   */
  lemma AppendedOrderStep(budgets: seq<BudgetConfig>, prev: seq<BudgetConfig>, added: seq<string>, s: BudgetConfig)
    requires |prev| == |budgets| + |added|
    requires forall i :: 0 <= i < |budgets| ==> prev[i].category == budgets[i].category
    requires forall i :: 0 <= i < |added| ==> prev[|budgets| + i].category == added[i]
    ensures var r := ApplyOne(prev, s);
      var next := if s.category in added || FindCategory(budgets, s.category).Some? then added else added + [s.category];
      |r| == |budgets| + |next| &&
      forall i :: 0 <= i < |next| ==> r[|budgets| + i].category == next[i]
  {
    match FindCategory(prev, s.category)
    case Some(p) =>
      if p < |budgets| {
        assert budgets[p].category == s.category;
      } else {
        assert added[p - |budgets|] == s.category;
      }
    case None =>
      forall k | 0 <= k < |budgets|
        ensures budgets[k].category != s.category
      {
        assert prev[k].category == budgets[k].category;
      }
      forall m | 0 <= m < |added|
        ensures added[m] != s.category
      {
        assert prev[|budgets| + m].category == added[m];
      }
  }

  /** The last suggestion of each category ends up in the list. */
  lemma {:induction false} ApplyAllLastPresent(budgets: seq<BudgetConfig>, suggestions: seq<BudgetConfig>, j: nat)
    requires j < |suggestions|
    requires forall k :: j < k < |suggestions| ==> suggestions[k].category != suggestions[j].category
    ensures suggestions[j] in ApplyAll(budgets, suggestions)
  {
    var n := |suggestions| - 1;
    var s := suggestions[n];
    var prev := ApplyAll(budgets, suggestions[..n]);
    ApplyOneFacts(prev, s);
    if j < n {
      assert forall k :: j < k < n ==> suggestions[..n][k] == suggestions[k];
      ApplyAllLastPresent(budgets, suggestions[..n], j);
      assert suggestions[j] == suggestions[..n][j];
      var p :| 0 <= p < |prev| && prev[p] == suggestions[j];
      assert ApplyOne(prev, s)[p] == prev[p];
    }
  }

  /** Unique categories stay unique after all suggestions. */
  lemma {:induction false} ApplyAllUnique(budgets: seq<BudgetConfig>, suggestions: seq<BudgetConfig>)
    requires UniqueCategories(budgets)
    ensures UniqueCategories(ApplyAll(budgets, suggestions))
  {
    if suggestions != [] {
      var n := |suggestions| - 1;
      ApplyAllUnique(budgets, suggestions[..n]);
      ApplyOneUnique(ApplyAll(budgets, suggestions[..n]), suggestions[n]);
    }
  }
}
