/**
 * The Recurring view (views/Recurring.tsx): monthly-equivalent totals and the
 * savings rate, the executed and overdue markers, keyword-based category
 * inference on the item name, and the normalisation of the add form.
 */
module RecurringView {

  import opened Text
  import opened Dates
  import opened Records
  import opened Finance
  import opened Store
  import Seqs
  import BudgetView

  // ---------------------------------------------------------------
  // Monthly totals

  /** A YEARLY item counts as its amount over twelve, rounded; a MONTHLY item as its amount. */
  function MonthlyAmount(item: RecurringItem): real {
    if item.frequency == Yearly then Round(item.amount / 12.0) as real else item.amount
  }

  /** Sum of the monthly amounts of the INCOME items. */
  function IncomeOf(items: seq<RecurringItem>): real {
    if items == [] then 0.0
    else
      var item := items[|items| - 1];
      IncomeOf(items[..|items| - 1]) + (if item.kind == Income then MonthlyAmount(item) else 0.0)
  }

  /** Sum of the monthly amounts of every other item. */
  function ExpenseOf(items: seq<RecurringItem>): real {
    if items == [] then 0.0
    else
      var item := items[|items| - 1];
      ExpenseOf(items[..|items| - 1]) + (if item.kind != Income then MonthlyAmount(item) else 0.0)
  }

  /** `income > 0 ? (income - expense) / income * 100 : 0`. */
  function SavingsRate(income: real, expense: real): real {
    if income > 0.0 then (income - expense) / income * 100.0 else 0.0
  }

  datatype Stats = Stats(income: real, expense: real, balance: real, savingsRate: real)

  /** The `items.forEach` accumulation behind the stats card. */
  method ComputeStats(items: seq<RecurringItem>) returns (stats: Stats)
    ensures stats.income == IncomeOf(items) && stats.expense == ExpenseOf(items)
    ensures stats.balance == stats.income - stats.expense
    ensures stats.savingsRate == SavingsRate(stats.income, stats.expense)
  {
    var income, expense := 0.0, 0.0;
    var i := 0;
    while i < |items|
      invariant 0 <= i <= |items|
      invariant income == IncomeOf(items[..i]) && expense == ExpenseOf(items[..i])
    {
      var item := items[i];
      assert items[..i + 1][..i] == items[..i];
      var monthlyAmount := if item.frequency == Yearly then Round(item.amount / 12.0) as real else item.amount;
      if item.kind == Income {
        income := income + monthlyAmount;
      } else {
        expense := expense + monthlyAmount;
      }
      i := i + 1;
    }
    assert items[..i] == items;
    stats := Stats(income, expense, income - expense, if income > 0.0 then (income - expense) / income * 100.0 else 0.0);
  }

  /** Every item counts exactly once, on one side: income plus expense is the sum of all monthly amounts. */
  lemma {:induction false} StatsCoverEveryItem(items: seq<RecurringItem>)
    ensures IncomeOf(items) + ExpenseOf(items) == Seqs.SumBy(items, MonthlyAmount)
  {
    if items != [] {
      StatsCoverEveryItem(items[..|items| - 1]);
    }
  }

  /** A yearly amount is spread to within half a unit of a twelfth. */
  lemma YearlyShareWithin(item: RecurringItem, twelfth: real)
    requires item.frequency == Yearly && twelfth * 12.0 == item.amount
    ensures twelfth - 0.5 < MonthlyAmount(item) <= twelfth + 0.5
  {
    assert item.amount / 12.0 == twelfth;
  }

  /**
   * With only MONTHLY items the view's income and expense equal the Budget
   * view's monthly sums (before that view's 5000 baseline).
   */
  lemma {:induction false} StatsAgreeWithBudgetContext(items: seq<RecurringItem>)
    requires forall i :: 0 <= i < |items| ==> items[i].frequency == Monthly
    ensures IncomeOf(items) == BudgetView.MonthlySum(items, Income)
    ensures ExpenseOf(items) == BudgetView.MonthlySum(items, Expense)
  {
    if items != [] {
      StatsAgreeWithBudgetContext(items[..|items| - 1]);
    }
  }

  /**
   * The savings rate is 0 without income; with income it is at most 100 iff
   * expenses are not negative, and at least 0 iff expenses do not exceed income.
   */
  lemma SavingsRateFacts(income: real, expense: real, share: real)
    requires income > 0.0 ==> share * income == income - expense
    ensures income <= 0.0 ==> SavingsRate(income, expense) == 0.0
    ensures income > 0.0 ==> (SavingsRate(income, expense) <= 100.0 <==> expense >= 0.0)
    ensures income > 0.0 ==> (SavingsRate(income, expense) >= 0.0 <==> expense <= income)
  {
    if income > 0.0 {
      assert (income - expense) / income == share;
      assert share <= 1.0 <==> expense >= 0.0;
      assert share >= 0.0 <==> expense <= income;
    }
  }

  // ---------------------------------------------------------------
  // Card markers

  /** `executedLog[id]?.includes(currentMonthKey)`. */
  predicate IsExecuted(log: map<string, seq<string>>, id: string, today: CalDate) {
    MonthKey(today) in LogOf(log, id)
  }

  /** A YEARLY item whose month is the current one. */
  predicate IsYearlyDue(item: RecurringItem, today: CalDate) {
    item.frequency == Yearly && item.monthOfYear == Some(today.month)
  }

  /** Not executed this month and today's day has reached the item's day, whatever the frequency. */
  predicate IsOverdue(log: map<string, seq<string>>, item: RecurringItem, today: CalDate) {
    !IsExecuted(log, item.id, today) && today.day >= item.dayOfMonth
  }

  /** In its own month, a yearly item is due for posting exactly from its day on. */
  lemma YearlyDueInMonth(item: RecurringItem, today: ValidCalDate)
    requires IsYearlyDue(item, today)
    ensures Due(item, today) <==> today.day >= item.dayOfMonth
  {
  }

  /**
   * After the load-time posting pass, no MONTHLY item shows as overdue: the
   * marker and the posting rule agree on monthly items.
   */
  lemma PostingClearsMonthlyOverdue(items: seq<RecurringItem>, log: map<string, seq<string>>, today: CalDate, ids: seq<string>)
    requires |ids| == |items|
    ensures forall j :: 0 <= j < |items| && items[j].frequency == Monthly ==>
      !IsOverdue(PostPlan(items, log, today, ids).log, items[j], today)
  {
    PostPlanLogCovers(items, log, today, ids);
  }

  /**
   * A YEARLY item outside its month, not posted this month, still shows as
   * overdue from its day of the month on.
   */
  lemma YearlyOverdueOutsideItsMonth(item: RecurringItem, log: map<string, seq<string>>, today: CalDate)
    requires item.frequency == Yearly && !IsYearlyDue(item, today)
    requires MonthKey(today) !in LogOf(log, item.id) && today.day >= item.dayOfMonth
    ensures IsOverdue(log, item, today)
  {
  }

  // ---------------------------------------------------------------
  // Category inference

  /** Keyword to category, in declaration order. */
  const CategoryKeywords: seq<(string, string)> := [
    ("netflix", "娛樂"), ("spotify", "娛樂"), ("youtube", "娛樂"), ("disney", "娛樂"), ("game", "娛樂"), ("steam", "娛樂"),
    ("房租", "居住"), ("水電", "居住"), ("瓦斯", "居住"), ("管理費", "居住"), ("房貸", "居住"),
    ("健身", "醫療"), ("保險", "醫療"), ("健保", "醫療"),
    ("手機", "帳單"), ("網路", "帳單"), ("電信", "帳單"), ("信用卡", "帳單"),
    ("薪水", "薪資"), ("薪資", "薪資"), ("獎金", "獎金"),
    ("股息", "股息"), ("配息", "股息"),
    ("捷運", "交通"), ("月票", "交通"), ("車貸", "交通"),
    ("老婆", "家庭"), ("家用", "家庭"), ("雜費", "家庭"), ("孝親", "家庭"), ("小孩", "家庭"), ("學費", "教育")
  ]

  /** The index of the first keyword that occurs in `lowerName`. */
  function KeywordIndex(lowerName: string, keywords: seq<(string, string)>): (r: Option<nat>)
    ensures r.Some? ==>
              r.value < |keywords| && Contains(lowerName, keywords[r.value].0) &&
              forall k :: 0 <= k < r.value ==> !Contains(lowerName, keywords[k].0)
    ensures r.None? ==> forall k :: 0 <= k < |keywords| ==> !Contains(lowerName, keywords[k].0)
  {
    if keywords == [] then None
    else if Contains(lowerName, keywords[0].0) then Some(0)
    else
      var r := KeywordIndex(lowerName, keywords[1..]);
      if r.Some? then Some(r.value + 1) else None
  }

  /** The category after the name field loses focus. */
  function InferCategory(name: Option<string>, category: string): string {
    if !TruthyStr(name) then category
    else
      match KeywordIndex(ToLower(name.value), CategoryKeywords)
      case Some(k) => CategoryKeywords[k].1
      case None => category
  }

  /** The `for…in` scan with `break`: the index of the first keyword found in the name. */
  method ScanKeywords(lowerName: string, keywords: seq<(string, string)>) returns (found: Option<nat>)
    ensures found == KeywordIndex(lowerName, keywords)
  {
    var i := 0;
    while i < |keywords|
      invariant 0 <= i <= |keywords|
      invariant forall k :: 0 <= k < i ==> !Contains(lowerName, keywords[k].0)
    {
      if Contains(lowerName, keywords[i].0) {
        return Some(i);
      }
      i := i + 1;
    }
    return None;
  }

  /** handleNameBlur: the category of the first keyword in the lower-cased name, if any. */
  method HandleNameBlur(name: Option<string>, category: string) returns (newCategory: string)
    ensures newCategory == InferCategory(name, category)
  {
    newCategory := category;
    if TruthyStr(name) {
      var lowerName := ToLower(name.value);
      var found := ScanKeywords(lowerName, CategoryKeywords);
      if found.Some? {
        newCategory := CategoryKeywords[found.value].1;
      }
    }
  }

  /**
   * The inferred category is the old one or a keyword's category; it changes
   * only when some keyword occurs in the lower-cased name.
   */
  lemma InferCategoryFacts(name: Option<string>, category: string)
    ensures var r := InferCategory(name, category);
      (r == category || exists k :: 0 <= k < |CategoryKeywords| && r == CategoryKeywords[k].1) &&
      (r != category ==>
         TruthyStr(name) &&
         exists k :: 0 <= k < |CategoryKeywords| && Contains(ToLower(name.value), CategoryKeywords[k].0))
  {
    if TruthyStr(name) {
      var m := KeywordIndex(ToLower(name.value), CategoryKeywords);
      if m.Some? {
        assert CategoryKeywords[m.value].1 == InferCategory(name, category);
      }
    }
  }

  /**
   * An illustration of the keyword table: a name spelled "Netflix" is filed
   * under entertainment. InferCategoryFacts states the general rule.
   */
  lemma NetflixIsEntertainment(category: string)
    ensures InferCategory(Some("Netflix"), category) == "娛樂"
  {
    var lower := ToLower("Netflix");
    assert lower == "netflix";
    assert OccursAt(lower, "netflix", 0);
  }

  // ---------------------------------------------------------------
  // Add form

  /** The add form's fields as typed; `kind` always holds one of the two types. */
  datatype RecurringForm = RecurringForm(
    name: Option<string>,
    amount: Option<real>,
    category: Option<string>,
    kind: TxType,
    frequency: Option<Frequency>,
    dayOfMonth: Option<int>,
    monthOfYear: Option<int>)

  const DefaultCategory: string := "其他"

  /**
   * handleSubmit: nothing without a name or with a falsy amount; otherwise the
   * item with its defaults filled in, `id` standing for crypto.randomUUID().
   */
  function SubmitRecurring(form: RecurringForm, id: string): (r: Option<RecurringItem>)
    ensures r.Some? <==> TruthyStr(form.name) && Truthy(form.amount)
    ensures r.Some? ==>
      r.value.id == id && r.value.name == form.name.value && r.value.amount == form.amount.value &&
      r.value.kind == form.kind && r.value.category != [] &&
      (TruthyStr(form.category) ==> r.value.category == form.category.value) &&
      (!TruthyStr(form.category) ==> r.value.category == DefaultCategory) &&
      r.value.dayOfMonth != 0 && r.value.dayOfMonth == OrElseInt(form.dayOfMonth, 1) &&
      r.value.frequency == (if form.frequency.Some? then form.frequency.value else Monthly) &&
      (r.value.monthOfYear.Some? <==> r.value.frequency == Yearly) &&
      r.value.monthOfYear == (if form.frequency == Some(Yearly) then Some(OrElseInt(form.monthOfYear, 1)) else None) &&
      (r.value.monthOfYear.Some? ==> r.value.monthOfYear.value != 0)
  {
    if !TruthyStr(form.name) || !Truthy(form.amount) then None
    else
      Some(RecurringItem(
        id, form.name.value, form.amount.value,
        if TruthyStr(form.category) then form.category.value else DefaultCategory,
        form.kind,
        if form.frequency.Some? then form.frequency.value else Monthly,
        OrElseInt(form.dayOfMonth, 1),
        if form.frequency == Some(Yearly) then Some(OrElseInt(form.monthOfYear, 1)) else None))
  }

  /** For a submitted YEARLY item, the posting rule's month is the month chosen in the form, or January. */
  lemma SubmittedYearlyTargetMonth(form: RecurringForm, id: string, today: CalDate)
    requires form.frequency == Some(Yearly) && SubmitRecurring(form, id).Some?
    ensures TargetMonth(SubmitRecurring(form, id).value, today) == OrElseInt(form.monthOfYear, 1)
  {
  }
}
