/**
 * The application store of App.tsx: the stored lists, the three passes run
 * over them when data loads (debt auto-sync, recurring auto-posting, the daily
 * portfolio snapshot) and the list handlers the views call. Every handler
 * writes the same list to React state and to browser storage, so each list
 * is one field here.
 */
module Store {

  import opened Text
  import opened Dates
  import opened Records
  import opened Finance
  import opened Seqs

  // ---------------------------------------------------------------
  // Debt auto-sync

  function Abs(x: real): real {
    if x < 0.0 then -x else x
  }

  /**
   * A debt the sync rewrites: it amortizes, and its recomputed balance is more
   * than 10 away from the stored amount.
   */
  predicate NeedsSync(a: Asset, today: CalDate) {
    Amortizes(Some(a.kind), a.startDate, a.originalAmount) && Abs(AppLoanBalance(a, today) - a.amount) > 10.0
  }

  function SyncOne(a: Asset, today: CalDate, now: int): Asset {
    if NeedsSync(a, today) then a.(amount := AppLoanBalance(a, today), lastUpdated := now) else a
  }

  /** The asset list the sync computes, before deciding whether to save it. */
  function SyncedAssets(s: seq<Asset>, today: CalDate, now: int): seq<Asset> {
    seq(|s|, i requires 0 <= i < |s| => SyncOne(s[i], today, now))
  }

  /** The number of assets the sync rewrites. */
  function SyncCount(s: seq<Asset>, today: CalDate): nat {
    if s == [] then 0 else SyncCount(s[..|s| - 1], today) + (if NeedsSync(s[|s| - 1], today) then 1 else 0)
  }

  /** The recomputed balance does not read `amount`, so a synced asset keeps its balance and needs no further sync. */
  lemma SyncSettles(a: Asset, today: CalDate, now: int)
    ensures AppLoanBalance(SyncOne(a, today, now), today) == AppLoanBalance(a, today)
    ensures !NeedsSync(SyncOne(a, today, now), today)
  {
  }

  /**
   * Exactly the assets that need a sync change, only in `amount` (to the
   * recomputed balance) and `lastUpdated`; length and order are kept.
   */
  lemma SyncChanges(s: seq<Asset>, today: CalDate, now: int)
    ensures |SyncedAssets(s, today, now)| == |s|
    ensures forall i :: 0 <= i < |s| ==>
      var r := SyncedAssets(s, today, now)[i];
      (r != s[i] <==> NeedsSync(s[i], today)) &&
      r.(amount := s[i].amount, lastUpdated := s[i].lastUpdated) == s[i] &&
      (NeedsSync(s[i], today) ==> r.amount == AppLoanBalance(s[i], today) && r.lastUpdated == now)
  {
  }

  /** The count is zero exactly when the sync would leave the list as it is. */
  lemma {:induction false} SyncCountZero(s: seq<Asset>, today: CalDate, now: int)
    ensures SyncCount(s, today) == 0 <==> SyncedAssets(s, today, now) == s
    decreases |s|
  {
    if s != [] {
      var init := s[..|s| - 1];
      SyncCountZero(init, today, now);
      assert SyncedAssets(s, today, now)[..|s| - 1] == SyncedAssets(init, today, now);
      if SyncedAssets(s, today, now) == s {
        assert SyncedAssets(s, today, now)[|s| - 1] == s[|s| - 1];
      }
    }
  }

  /** Re-running the sync on its own output on the same day rewrites nothing. */
  lemma SyncIdempotent(s: seq<Asset>, today: CalDate, now: int, later: int)
    ensures SyncCount(SyncedAssets(s, today, now), today) == 0
    ensures SyncedAssets(SyncedAssets(s, today, now), today, later) == SyncedAssets(s, today, now)
  {
    var r := SyncedAssets(s, today, now);
    forall i | 0 <= i < |r|
      ensures SyncedAssets(r, today, later)[i] == r[i]
    {
      SyncSettles(s[i], today, now);
    }
    SyncCountZero(r, today, later);
  }

  // ---------------------------------------------------------------
  // Recurring auto-posting

  const AutoItemPrefix: string := "[固定] "
  const AutoNote: string := "系統自動入帳 (Auto-Executed)"

  /** `log[id] || []`. */
  function LogOf(log: map<string, seq<string>>, id: string): seq<string> {
    if id in log then log[id] else []
  }

  /** The due rule: MONTHLY from its day on; YEARLY after its month, or in it from its day on. */
  predicate Due(item: RecurringItem, today: CalDate) {
    match item.frequency
    case Monthly => today.day >= item.dayOfMonth
    case Yearly =>
      var target := OrElseInt(item.monthOfYear, 1);
      today.month > target || (today.month == target && today.day >= item.dayOfMonth)
  }

  /** The month written into a posted transaction's date. */
  function TargetMonth(item: RecurringItem, today: CalDate): int {
    match item.frequency
    case Monthly => today.month
    case Yearly => OrElseInt(item.monthOfYear, 1)
  }

  /** The transaction posted for a due item, with `id` standing for crypto.randomUUID(). */
  function PostedTransaction(item: RecurringItem, today: CalDate, id: string): Transaction {
    Transaction(id, FormatDate(today.year, TargetMonth(item, today), item.dayOfMonth), item.amount,
                item.category, AutoItemPrefix + item.name, Some(AutoNote), item.kind, Some(Manual))
  }

  /** The transactions posted so far and the execution log. */
  datatype Plan = Plan(txs: seq<Transaction>, log: map<string, seq<string>>)

  /** An item is passed over when its log already holds this month's key or it is not due. */
  predicate Skipped(item: RecurringItem, log: map<string, seq<string>>, today: CalDate) {
    MonthKey(today) in LogOf(log, item.id) || !Due(item, today)
  }

  function PostStep(plan: Plan, item: RecurringItem, today: CalDate, id: string): Plan {
    if Skipped(item, plan.log, today) then plan
    else Plan(plan.txs + [PostedTransaction(item, today, id)],
              plan.log[item.id := LogOf(plan.log, item.id) + [MonthKey(today)]])
  }

  /** The pass over the items in order; `ids[j]` is the id a transaction for `items[j]` would get. */
  function PostPlan(items: seq<RecurringItem>, log: map<string, seq<string>>, today: CalDate, ids: seq<string>): Plan
    requires |ids| == |items|
  {
    if items == [] then Plan([], log)
    else PostStep(PostPlan(items[..|items| - 1], log, today, ids[..|ids| - 1]), items[|items| - 1], today, ids[|ids| - 1])
  }

  /** Each posted transaction is the one for some due item; at most one per item. */
  lemma {:induction false} PostPlanTransactions(items: seq<RecurringItem>, log: map<string, seq<string>>, today: CalDate, ids: seq<string>)
    requires |ids| == |items|
    ensures |PostPlan(items, log, today, ids).txs| <= |items|
    ensures forall t :: t in PostPlan(items, log, today, ids).txs ==>
      exists j :: 0 <= j < |items| && Due(items[j], today) && t == PostedTransaction(items[j], today, ids[j])
  {
    if items != [] {
      var n := |items| - 1;
      PostPlanTransactions(items[..n], log, today, ids[..n]);
      forall t | t in PostPlan(items, log, today, ids).txs
        ensures exists j :: 0 <= j < |items| && Due(items[j], today) && t == PostedTransaction(items[j], today, ids[j])
      {
        if t in PostPlan(items[..n], log, today, ids[..n]).txs {
          var j :| 0 <= j < n && Due(items[..n][j], today) && t == PostedTransaction(items[..n][j], today, ids[..n][j]);
          assert items[..n][j] == items[j] && ids[..n][j] == ids[j];
        } else {
          assert Due(items[n], today) && t == PostedTransaction(items[n], today, ids[n]);
        }
      }
    }
  }

  /** One step of the pass: logs only grow, only the item's own log changes, and a due item ends logged. */
  lemma PostStepLog(plan: Plan, item: RecurringItem, today: CalDate, id: string)
    ensures forall i, k :: k in LogOf(plan.log, i) ==> k in LogOf(PostStep(plan, item, today, id).log, i)
    ensures forall i :: i != item.id ==> LogOf(PostStep(plan, item, today, id).log, i) == LogOf(plan.log, i)
    ensures Due(item, today) ==> MonthKey(today) in LogOf(PostStep(plan, item, today, id).log, item.id)
  {
  }

  /** Over the whole pass, logs only grow. */
  lemma {:induction false} PostPlanLogGrows(items: seq<RecurringItem>, log: map<string, seq<string>>, today: CalDate, ids: seq<string>)
    requires |ids| == |items|
    ensures forall id, k :: k in LogOf(log, id) ==> k in LogOf(PostPlan(items, log, today, ids).log, id)
  {
    if items != [] {
      var n := |items| - 1;
      PostPlanLogGrows(items[..n], log, today, ids[..n]);
      PostStepLog(PostPlan(items[..n], log, today, ids[..n]), items[n], today, ids[n]);
    }
  }

  /** The log of an id that no item carries is untouched. */
  lemma {:induction false} PostPlanLogOthers(items: seq<RecurringItem>, log: map<string, seq<string>>, today: CalDate, ids: seq<string>, id: string)
    requires |ids| == |items|
    requires forall j :: 0 <= j < |items| ==> items[j].id != id
    ensures LogOf(PostPlan(items, log, today, ids).log, id) == LogOf(log, id)
  {
    if items != [] {
      var n := |items| - 1;
      assert forall j :: 0 <= j < n ==> items[..n][j] == items[j];
      PostPlanLogOthers(items[..n], log, today, ids[..n], id);
      PostStepLog(PostPlan(items[..n], log, today, ids[..n]), items[n], today, ids[n]);
    }
  }

  /** Every due item ends the pass with this month's key in its log. */
  lemma {:induction false} PostPlanLogCovers(items: seq<RecurringItem>, log: map<string, seq<string>>, today: CalDate, ids: seq<string>)
    requires |ids| == |items|
    ensures forall j :: 0 <= j < |items| && Due(items[j], today) ==>
      MonthKey(today) in LogOf(PostPlan(items, log, today, ids).log, items[j].id)
  {
    if items != [] {
      var n := |items| - 1;
      var prev := PostPlan(items[..n], log, today, ids[..n]);
      PostPlanLogCovers(items[..n], log, today, ids[..n]);
      PostStepLog(prev, items[n], today, ids[n]);
      forall j | 0 <= j < |items| && Due(items[j], today)
        ensures MonthKey(today) in LogOf(PostPlan(items, log, today, ids).log, items[j].id)
      {
        if j < n {
          assert items[..n][j] == items[j];
          assert MonthKey(today) in LogOf(prev.log, items[j].id);
        }
      }
    }
  }

  /** When every item is skipped under a log, the pass posts nothing and keeps the log. */
  lemma {:induction false} PostPlanNoop(items: seq<RecurringItem>, log: map<string, seq<string>>, today: CalDate, ids: seq<string>)
    requires |ids| == |items|
    requires forall j :: 0 <= j < |items| ==> Skipped(items[j], log, today)
    ensures PostPlan(items, log, today, ids) == Plan([], log)
  {
    if items != [] {
      var n := |items| - 1;
      assert forall j :: 0 <= j < n ==> items[..n][j] == items[j];
      PostPlanNoop(items[..n], log, today, ids[..n]);
      assert Skipped(items[n], log, today);
    }
  }

  /** A second pass in the same month, over the log the first one wrote, posts nothing. */
  lemma RerunPostsNothing(items: seq<RecurringItem>, log: map<string, seq<string>>, today: CalDate, ids: seq<string>, ids2: seq<string>)
    requires |ids| == |items| == |ids2|
    ensures var log2 := PostPlan(items, log, today, ids).log;
      PostPlan(items, log2, today, ids2) == Plan([], log2)
  {
    var log2 := PostPlan(items, log, today, ids).log;
    PostPlanLogCovers(items, log, today, ids);
    PostPlanNoop(items, log2, today, ids2);
  }

  /**
   * The transactions for the items that are due and not yet logged for this
   * month under the log the pass starts from, in item order.
   */
  function PendingTransactions(items: seq<RecurringItem>, log: map<string, seq<string>>, today: CalDate, ids: seq<string>): seq<Transaction>
    requires |ids| == |items|
  {
    if items == [] then []
    else
      var n := |items| - 1;
      PendingTransactions(items[..n], log, today, ids[..n]) +
        (if Skipped(items[n], log, today) then [] else [PostedTransaction(items[n], today, ids[n])])
  }

  /**
   * With distinct item ids, the pass posts exactly one transaction for each
   * item that is due and not yet logged this month when it starts, in item
   * order, whatever the month's log already holds.
   */
  lemma {:induction false} PostPlanExactlyDue(items: seq<RecurringItem>, log: map<string, seq<string>>, today: CalDate, ids: seq<string>)
    requires |ids| == |items|
    requires forall i, j :: 0 <= i < j < |items| ==> items[i].id != items[j].id
    ensures PostPlan(items, log, today, ids).txs == PendingTransactions(items, log, today, ids)
  {
    if items != [] {
      var n := |items| - 1;
      assert forall j :: 0 <= j < n ==> items[..n][j] == items[j];
      PostPlanExactlyDue(items[..n], log, today, ids[..n]);
      PostPlanLogOthers(items[..n], log, today, ids[..n], items[n].id);
    }
  }

  /**
   * The month key does not remember a YEARLY item's month: once posted, it is
   * posted again, with the same date, in any later month of the same year.
   */
  lemma YearlyPostedAgain(item: RecurringItem, log: map<string, seq<string>>, first: CalDate, later: CalDate, id1: string, id2: string)
    requires item.frequency == Yearly
    requires 1 <= first.month < later.month <= 12 && first.year == later.year
    requires MonthKey(later) !in LogOf(log, item.id)
    requires PostPlan([item], log, first, [id1]).txs != []
    ensures var log2 := PostPlan([item], log, first, [id1]).log;
      PostPlan([item], log2, later, [id2]).txs == [PostedTransaction(item, later, id2)]
    ensures PostedTransaction(item, later, id2).date == PostedTransaction(item, first, id1).date
  {
    var log2 := PostPlan([item], log, first, [id1]).log;
    assert [item][..0] == [] && [id1][..0] == [] && [id2][..0] == [];
    MonthKeyDistinct(first, later);
    assert LogOf(log2, item.id) == LogOf(log, item.id) + [MonthKey(first)];
  }

  /**
   * The intended key for the log: the month the posted transaction is dated
   * in. For a MONTHLY item this is the current month; for a YEARLY item it
   * is its own month of the current year.
   */
  function PostKey(item: RecurringItem, today: CalDate): string {
    MonthKey(today.(month := TargetMonth(item, today)))
  }

  /** The posting step with the log keyed by the posted month instead of the current one. */
  function CorrectedPostStep(plan: Plan, item: RecurringItem, today: CalDate, id: string): (r: Plan)
    ensures PostKey(item, today) in LogOf(plan.log, item.id) || !Due(item, today) ==> r == plan
    ensures Due(item, today) && PostKey(item, today) !in LogOf(plan.log, item.id) ==>
      r.txs == plan.txs + [PostedTransaction(item, today, id)] &&
      LogOf(r.log, item.id) == LogOf(plan.log, item.id) + [PostKey(item, today)]
  {
    if PostKey(item, today) in LogOf(plan.log, item.id) || !Due(item, today) then plan
    else Plan(plan.txs + [PostedTransaction(item, today, id)],
              plan.log[item.id := LogOf(plan.log, item.id) + [PostKey(item, today)]])
  }

  /** For MONTHLY items the corrected step is the step as written. */
  lemma CorrectedMonthlyAgrees(plan: Plan, item: RecurringItem, today: CalDate, id: string)
    requires item.frequency == Monthly
    ensures CorrectedPostStep(plan, item, today, id) == PostStep(plan, item, today, id)
  {
    assert today.(month := today.month) == today;
  }

  /**
   * With the corrected key a YEARLY item is posted once a year: after it has
   * been posted, no later day of the same year posts it again.
   */
  lemma CorrectedYearlyOncePerYear(item: RecurringItem, log: map<string, seq<string>>, first: CalDate, later: CalDate, id1: string, id2: string)
    requires item.frequency == Yearly && first.year == later.year
    requires CorrectedPostStep(Plan([], log), item, first, id1).txs != []
    ensures var p := CorrectedPostStep(Plan([], log), item, first, id1);
      CorrectedPostStep(p, item, later, id2) == p
  {
    var p := CorrectedPostStep(Plan([], log), item, first, id1);
    assert PostKey(item, later) == PostKey(item, first);
    assert PostKey(item, first) in LogOf(p.log, item.id);
  }

  /** A MONTHLY item on day 31 is never due, and so never posted, in a month with fewer days. */
  lemma MonthlyDay31Missed(item: RecurringItem, log: map<string, seq<string>>, today: CalDate, id: string)
    requires item.frequency == Monthly && item.dayOfMonth == 31
    requires ValidDate(today) && DaysInMonth(today.year, today.month) < 31
    ensures !Due(item, today)
    ensures PostPlan([item], log, today, [id]) == Plan([], log)
  {
    assert [item][..0] == [] && [id][..0] == [];
  }

  /** A posted date is a well-formed "YYYY-MM-DD" string naming the target day. */
  lemma PostedDateParses(item: RecurringItem, today: CalDate, id: string)
    requires 1000 <= today.year <= 9999 && 1 <= today.month <= 12 && 1 <= item.dayOfMonth <= 31
    requires 1 <= TargetMonth(item, today) <= 12
    ensures ParseDate(PostedTransaction(item, today, id).date)
         == Some(CalDate(today.year, TargetMonth(item, today), item.dayOfMonth))
  {
    FormatDateRoundTrip(today.year, TargetMonth(item, today), item.dayOfMonth);
  }

  /**
   * The body of the recurring pass for one item: skip it when this month's key
   * is logged, otherwise post it when due and log the key.
   */
  method PostItem(txs: seq<Transaction>, log: map<string, seq<string>>, item: RecurringItem, today: CalDate,
                  currentMonthKey: string, id: string)
    returns (txs': seq<Transaction>, log': map<string, seq<string>>, posted: bool)
    requires currentMonthKey == MonthKey(today)
    ensures Plan(txs', log') == PostStep(Plan(txs, log), item, today, id)
    ensures posted <==> |txs'| == |txs| + 1
    ensures !posted ==> txs' == txs
  {
    txs', log', posted := txs, log, false;
    var itemLogs := LogOf(log, item.id);
    if currentMonthKey in itemLogs {
      return;
    }
    var shouldExecute := false;
    var targetDate := "";
    if item.frequency == Monthly {
      if today.day >= item.dayOfMonth {
        shouldExecute := true;
        targetDate := FormatDate(today.year, today.month, item.dayOfMonth);
      }
    } else {
      var targetMonth := OrElseInt(item.monthOfYear, 1);
      if today.month > targetMonth || (today.month == targetMonth && today.day >= item.dayOfMonth) {
        shouldExecute := true;
        targetDate := FormatDate(today.year, targetMonth, item.dayOfMonth);
      }
    }
    if shouldExecute {
      var t := Transaction(id, targetDate, item.amount, item.category, AutoItemPrefix + item.name,
                           Some(AutoNote), item.kind, Some(Manual));
      txs' := txs + [t];
      log' := log[item.id := LogOf(log, item.id) + [currentMonthKey]];
      posted := true;
    }
  }

  /** The pass over one more item is one more step. */
  lemma PostPlanSnoc(items: seq<RecurringItem>, log: map<string, seq<string>>, today: CalDate, ids: seq<string>, i: nat)
    requires |ids| == |items| && i < |items|
    ensures PostPlan(items[..i + 1], log, today, ids[..i + 1])
         == PostStep(PostPlan(items[..i], log, today, ids[..i]), items[i], today, ids[i])
  {
    assert items[..i + 1][..i] == items[..i] && ids[..i + 1][..i] == ids[..i];
  }

  /** The `recurring.forEach` pass: the new transactions, the new log and their count. */
  method PostPass(items: seq<RecurringItem>, log: map<string, seq<string>>, today: CalDate, ids: seq<string>)
    returns (newTransactions: seq<Transaction>, newLog: map<string, seq<string>>, executedCount: nat)
    requires |ids| == |items|
    ensures Plan(newTransactions, newLog) == PostPlan(items, log, today, ids)
    ensures executedCount == |newTransactions|
  {
    var currentMonthKey := MonthKey(today);
    newTransactions, newLog, executedCount := [], log, 0;
    var i := 0;
    while i < |items|
      invariant 0 <= i <= |items|
      invariant Plan(newTransactions, newLog) == PostPlan(items[..i], log, today, ids[..i])
      invariant executedCount == |newTransactions|
    {
      var item := items[i];
      PostPlanSnoc(items, log, today, ids, i);
      var posted;
      newTransactions, newLog, posted := PostItem(newTransactions, newLog, item, today, currentMonthKey, ids[i]);
      if posted {
        executedCount := executedCount + 1;
      }
      i := i + 1;
    }
    assert items[..i] == items && ids[..i] == ids;
  }

  // ---------------------------------------------------------------
  // Daily portfolio snapshot

  /** Sum of the amounts of the assets that are not debts. */
  function AssetsTotal(s: seq<Asset>): real {
    if s == [] then 0.0 else AssetsTotal(s[..|s| - 1]) + (if s[|s| - 1].kind != Debt then s[|s| - 1].amount else 0.0)
  }

  /** Sum of the amounts of the debts. */
  function DebtTotal(s: seq<Asset>): real {
    if s == [] then 0.0 else DebtTotal(s[..|s| - 1]) + (if s[|s| - 1].kind == Debt then s[|s| - 1].amount else 0.0)
  }

  /** Sum of the amounts of one asset type. */
  function TypeTotal(s: seq<Asset>, k: AssetType): real {
    if s == [] then 0.0 else TypeTotal(s[..|s| - 1], k) + (if s[|s| - 1].kind == k then s[|s| - 1].amount else 0.0)
  }

  function KindsOf(s: seq<Asset>): set<AssetType> {
    set i | 0 <= i < |s| :: s[i].kind
  }

  /** The distribution object: one key per type present, holding that type's total. */
  function Distribution(s: seq<Asset>): map<AssetType, real> {
    map k | k in KindsOf(s) :: TypeTotal(s, k)
  }

  function Snapshot(s: seq<Asset>, date: string): PortfolioSnapshot {
    PortfolioSnapshot(date, AssetsTotal(s), DebtTotal(s), AssetsTotal(s) - DebtTotal(s), Distribution(s))
  }

  /** `m[k] || 0`. */
  function DistValue(m: map<AssetType, real>, k: AssetType): real {
    if k in m then m[k] else 0.0
  }

  function SumOverTypes(m: map<AssetType, real>, ks: seq<AssetType>): real {
    if ks == [] then 0.0 else DistValue(m, ks[0]) + SumOverTypes(m, ks[1..])
  }

  lemma {:induction false} TypeTotalsSum(s: seq<Asset>)
    ensures TypeTotal(s, Cash) + TypeTotal(s, Stock) + TypeTotal(s, Fund) + TypeTotal(s, RealEstate)
          + TypeTotal(s, Crypto) + TypeTotal(s, Debt) + TypeTotal(s, Other)
         == AssetsTotal(s) + DebtTotal(s)
    ensures TypeTotal(s, Debt) == DebtTotal(s)
  {
    if s != [] {
      TypeTotalsSum(s[..|s| - 1]);
    }
  }

  lemma {:induction false} TypeTotalAbsent(s: seq<Asset>, k: AssetType)
    requires k !in KindsOf(s)
    ensures TypeTotal(s, k) == 0.0
  {
    if s != [] {
      assert KindsOf(s[..|s| - 1]) <= KindsOf(s) by {
        forall x | x in KindsOf(s[..|s| - 1]) ensures x in KindsOf(s) {
          var i :| 0 <= i < |s| - 1 && s[..|s| - 1][i].kind == x;
          assert s[i].kind == x;
        }
      }
      assert s[|s| - 1].kind in KindsOf(s);
      TypeTotalAbsent(s[..|s| - 1], k);
    }
  }

  /** Reading a type from the distribution, absent as 0, gives that type's total. */
  lemma DistValueIsTypeTotal(s: seq<Asset>, k: AssetType)
    ensures DistValue(Distribution(s), k) == TypeTotal(s, k)
  {
    if k !in KindsOf(s) {
      TypeTotalAbsent(s, k);
    }
  }

  /** The distribution's values add up to total assets plus total liabilities; its DEBT entry is the liabilities. */
  lemma DistributionTotal(s: seq<Asset>)
    ensures SumOverTypes(Distribution(s), AllAssetTypes) == AssetsTotal(s) + DebtTotal(s)
    ensures DistValue(Distribution(s), Debt) == DebtTotal(s)
  {
    var m := Distribution(s);
    forall k
      ensures DistValue(m, k) == TypeTotal(s, k)
    {
      DistValueIsTypeTotal(s, k);
    }
    TypeTotalsSum(s);
    assert SumOverTypes(m, [Other]) == DistValue(m, Other) by {
      assert [Other][1..] == [];
    }
    assert SumOverTypes(m, [Debt, Other]) == DistValue(m, Debt) + SumOverTypes(m, [Other]) by {
      assert [Debt, Other][1..] == [Other];
    }
    assert SumOverTypes(m, [Crypto, Debt, Other]) == DistValue(m, Crypto) + SumOverTypes(m, [Debt, Other]) by {
      assert [Crypto, Debt, Other][1..] == [Debt, Other];
    }
    assert SumOverTypes(m, [RealEstate, Crypto, Debt, Other])
        == DistValue(m, RealEstate) + SumOverTypes(m, [Crypto, Debt, Other]) by {
      assert [RealEstate, Crypto, Debt, Other][1..] == [Crypto, Debt, Other];
    }
    assert SumOverTypes(m, [Fund, RealEstate, Crypto, Debt, Other])
        == DistValue(m, Fund) + SumOverTypes(m, [RealEstate, Crypto, Debt, Other]) by {
      assert [Fund, RealEstate, Crypto, Debt, Other][1..] == [RealEstate, Crypto, Debt, Other];
    }
    assert SumOverTypes(m, [Stock, Fund, RealEstate, Crypto, Debt, Other])
        == DistValue(m, Stock) + SumOverTypes(m, [Fund, RealEstate, Crypto, Debt, Other]) by {
      assert [Stock, Fund, RealEstate, Crypto, Debt, Other][1..] == [Fund, RealEstate, Crypto, Debt, Other];
    }
    assert SumOverTypes(m, AllAssetTypes)
        == DistValue(m, Cash) + SumOverTypes(m, [Stock, Fund, RealEstate, Crypto, Debt, Other]) by {
      assert AllAssetTypes[1..] == [Stock, Fund, RealEstate, Crypto, Debt, Other];
    }
  }

  /** One step of the per-type accumulation: `distribution[type] = (distribution[type] || 0) + val`. */
  lemma DistributionStep(s: seq<Asset>, i: nat)
    requires i < |s|
    ensures Distribution(s[..i + 1])
         == Distribution(s[..i])[s[i].kind := DistValue(Distribution(s[..i]), s[i].kind) + s[i].amount]
  {
    var a, b := s[..i], s[..i + 1];
    assert b[..|b| - 1] == a;
    assert KindsOf(b) == KindsOf(a) + {s[i].kind} by {
      forall x | x in KindsOf(b) ensures x in KindsOf(a) + {s[i].kind} {
        var j :| 0 <= j < |b| && b[j].kind == x;
        if j < i {
          assert a[j] == b[j];
        }
      }
      forall x | x in KindsOf(a) ensures x in KindsOf(b) {
        var j :| 0 <= j < |a| && a[j].kind == x;
        assert b[j] == a[j];
      }
      assert b[i] == s[i];
    }
    if s[i].kind !in KindsOf(a) {
      TypeTotalAbsent(a, s[i].kind);
    }
  }

  /** The skip condition of checkAndTakeSnapshot: no assets, or the last entry is already today's. */
  predicate SnapshotSkipped(assets: seq<Asset>, history: seq<PortfolioSnapshot>, todayKey: string) {
    |assets| == 0 || (|history| > 0 && history[|history| - 1].date == todayKey)
  }

  /** `history.filter(h => h.date !== d)`. */
  function WithoutDate(h: seq<PortfolioSnapshot>, d: string): (r: seq<PortfolioSnapshot>)
    ensures |r| <= |h|
  {
    if h == [] then []
    else if h[0].date != d then [h[0]] + WithoutDate(h[1..], d)
    else WithoutDate(h[1..], d)
  }

  /** Drop today's entries, append the new snapshot, and evict the oldest entry when over 365. */
  function UpdatedHistory(h: seq<PortfolioSnapshot>, snap: PortfolioSnapshot): seq<PortfolioSnapshot> {
    var kept := WithoutDate(h, snap.date) + [snap];
    if |kept| > 365 then kept[1..] else kept
  }

  /** How many entries carry date d. */
  function CountDate(h: seq<PortfolioSnapshot>, d: string): nat {
    if h == [] then 0 else (if h[0].date == d then 1 else 0) + CountDate(h[1..], d)
  }

  lemma {:induction false} CountDateWithout(h: seq<PortfolioSnapshot>, d: string, e: string)
    ensures CountDate(WithoutDate(h, d), e) == if e == d then 0 else CountDate(h, e)
  {
    if h != [] {
      CountDateWithout(h[1..], d, e);
    }
  }

  lemma {:induction false} CountDateAppend(h: seq<PortfolioSnapshot>, x: PortfolioSnapshot, e: string)
    ensures CountDate(h + [x], e) == CountDate(h, e) + (if x.date == e then 1 else 0)
  {
    if h != [] {
      assert (h + [x])[1..] == h[1..] + [x];
      CountDateAppend(h[1..], x, e);
    }
  }

  /**
   * The history update: the new snapshot is last and the only entry for its
   * date; other dates lose entries only by eviction; the entries before it
   * are the kept old ones, minus the oldest exactly when there would be more
   * than 365; so a history of at most 365 entries stays within 365.
   */
  lemma HistoryUpdate(h: seq<PortfolioSnapshot>, snap: PortfolioSnapshot)
    ensures var r := UpdatedHistory(h, snap);
      var w := WithoutDate(h, snap.date);
      |r| > 0 && r[|r| - 1] == snap &&
      CountDate(r, snap.date) == 1 &&
      (forall e :: e != snap.date ==> CountDate(r, e) <= CountDate(h, e)) &&
      r[..|r| - 1] == (if |w| + 1 > 365 then w[1..] else w) &&
      (|h| <= 365 ==> |r| <= 365)
  {
    var w := WithoutDate(h, snap.date);
    var kept := w + [snap];
    forall e
      ensures CountDate(kept, e) == (if e == snap.date then 1 else CountDate(h, e))
    {
      CountDateAppend(w, snap, e);
      CountDateWithout(h, snap.date, e);
    }
    if |kept| > 365 {
      assert kept[0] == w[0];
      CountDateWithout(h, snap.date, snap.date);
      assert w[0] in w;
      assert CountDate(w, snap.date) == 0;
      CountDateZero(w, snap.date, 0);
      assert kept[0].date != snap.date;
      forall e
        ensures CountDate(kept[1..], e) <= CountDate(kept, e)
        ensures e == snap.date ==> CountDate(kept[1..], e) == CountDate(kept, e)
      {
      }
      assert kept[1..][..|kept| - 2] == w[1..];
    }
  }

  lemma CountDateZero(h: seq<PortfolioSnapshot>, d: string, i: nat)
    requires i < |h| && CountDate(h, d) == 0
    ensures h[i].date != d
    decreases i
  {
    if i > 0 {
      CountDateZero(h[1..], d, i - 1);
    }
  }

  /** When no date occurs twice before the update, none does after it. */
  lemma HistoryDatesUnique(h: seq<PortfolioSnapshot>, snap: PortfolioSnapshot)
    requires forall e :: CountDate(h, e) <= 1
    ensures forall e :: CountDate(UpdatedHistory(h, snap), e) <= 1
  {
    HistoryUpdate(h, snap);
  }

  /** Right after a snapshot, checkAndTakeSnapshot on the same day does nothing. */
  lemma SnapshotOncePerDay(s: seq<Asset>, h: seq<PortfolioSnapshot>, todayKey: string)
    ensures SnapshotSkipped(s, UpdatedHistory(h, Snapshot(s, todayKey)), todayKey)
  {
    HistoryUpdate(h, Snapshot(s, todayKey));
  }

  // ---------------------------------------------------------------
  // List handlers

  function AssetId(a: Asset): string { a.id }
  function TxId(t: Transaction): string { t.id }
  function RecurringId(r: RecurringItem): string { r.id }

  /** `assets.map(a => a.id === asset.id ? asset : a)`. */
  function ReplaceById(s: seq<Asset>, a: Asset): seq<Asset> {
    seq(|s|, i requires 0 <= i < |s| => if s[i].id == a.id then a else s[i])
  }

  /** The updated asset is present afterwards exactly when some asset carried its id. */
  lemma ReplaceByIdPresent(s: seq<Asset>, a: Asset)
    ensures (a in ReplaceById(s, a)) <==> exists i :: 0 <= i < |s| && s[i].id == a.id
  {
    var r := ReplaceById(s, a);
    if a in r {
      var i :| 0 <= i < |r| && r[i] == a;
      assert s[i].id == a.id;
    } else {
      forall i | 0 <= i < |s| ensures s[i].id != a.id {
        assert r[i] != a;
      }
    }
  }

  /** Updating touches only assets with the id: deleting the id afterwards is deleting it before. */
  lemma {:induction false} ReplaceThenRemove(s: seq<Asset>, a: Asset)
    ensures RemoveKey(ReplaceById(s, a), AssetId, a.id) == RemoveKey(s, AssetId, a.id)
    decreases |s|
  {
    if s != [] {
      var n := |s| - 1;
      var r := ReplaceById(s, a);
      ReplaceThenRemove(s[..n], a);
      assert r[..|r| - 1] == ReplaceById(s[..n], a);
      assert r[n].id != a.id ==> r[n] == s[n];
      assert (r[n].id != a.id) == (s[n].id != a.id);
    }
  }

  predicate IsStock(a: Asset) {
    a.kind == Stock
  }

  /** The asset handleUpdateStockAssetValue creates when there is no STOCK asset. */
  function NewStockAsset(id: string, value: real, now: int): Asset {
    Asset(id, "股票投資帳戶 (Auto)", Stock, value, Some(value), TWD, 1.0, now, None, None, None, None)
  }

  /** The asset list after handleUpdateStockAssetValue. */
  function StockSynced(s: seq<Asset>, value: real, now: int, newId: string): seq<Asset> {
    match FindIndex(s, IsStock)
    case Some(i) => ReplaceById(s, s[i].(amount := value, lastUpdated := now))
    case None => s + [NewStockAsset(newId, value, now)]
  }

  /** Afterwards the first STOCK asset holds the new value, whether it was updated or created. */
  lemma StockSyncSetsValue(s: seq<Asset>, value: real, now: int, newId: string)
    ensures var r := StockSynced(s, value, now, newId);
      FindIndex(r, IsStock).Some? && r[FindIndex(r, IsStock).value].amount == value
  {
    var r := StockSynced(s, value, now, newId);
    match FindIndex(s, IsStock)
    case Some(i) =>
      var u := s[i].(amount := value, lastUpdated := now);
      assert r[i] == u && IsStock(r[i]);
      var first := FindIndex(r, IsStock).value;
      assert first <= i;
      assert s[first].id == u.id;
      assert r[first] == u;
    case None =>
      assert r[|s|] == NewStockAsset(newId, value, now);
      assert forall j :: 0 <= j < |s| ==> r[j] == s[j];
  }

  // ---------------------------------------------------------------
  // The store

  class FinanceStore {
    var assets: seq<Asset>
    var transactions: seq<Transaction>
    var recurring: seq<RecurringItem>
    var executedLog: map<string, seq<string>>
    var history: seq<PortfolioSnapshot>
    var stockSnapshots: seq<StockSnapshot>
    var budgets: seq<BudgetConfig>

    /** refreshData: the lists as loaded from storage. */
    constructor(assets0: seq<Asset>, transactions0: seq<Transaction>, recurring0: seq<RecurringItem>,
                log0: map<string, seq<string>>, history0: seq<PortfolioSnapshot>,
                stockSnapshots0: seq<StockSnapshot>, budgets0: seq<BudgetConfig>)
      ensures assets == assets0 && transactions == transactions0 && recurring == recurring0
      ensures executedLog == log0 && history == history0
      ensures stockSnapshots == stockSnapshots0 && budgets == budgets0
    {
      assets := assets0;
      transactions := transactions0;
      recurring := recurring0;
      executedLog := log0;
      history := history0;
      stockSnapshots := stockSnapshots0;
      budgets := budgets0;
    }

    /**
     * The debt auto-sync effect, with `now` for Date.now(). The new list is
     * saved only when something changed.
     */
    method SyncDebts(today: CalDate, now: int) returns (updatedCount: nat)
      modifies this
      ensures updatedCount == SyncCount(old(assets), today)
      ensures assets == (if updatedCount > 0 then SyncedAssets(old(assets), today, now) else old(assets))
      ensures transactions == old(transactions) && recurring == old(recurring) && executedLog == old(executedLog)
      ensures history == old(history) && stockSnapshots == old(stockSnapshots) && budgets == old(budgets)
    {
      updatedCount := 0;
      if |assets| == 0 {
        return;
      }
      var newAssets: seq<Asset> := [];
      var i := 0;
      while i < |assets|
        invariant 0 <= i <= |assets|
        invariant |newAssets| == i
        invariant forall j :: 0 <= j < i ==> newAssets[j] == SyncOne(assets[j], today, now)
        invariant updatedCount == SyncCount(assets[..i], today)
      {
        var asset := assets[i];
        var next := asset;
        if asset.kind == Debt && asset.startDate.Some? && Truthy(asset.originalAmount) {
          var calculatedBalance := AppLoanBalance(asset, today);
          if Abs(calculatedBalance - asset.amount) > 10.0 {
            updatedCount := updatedCount + 1;
            next := asset.(amount := calculatedBalance, lastUpdated := now);
          }
        }
        assert assets[..i + 1][..i] == assets[..i];
        newAssets := newAssets + [next];
        i := i + 1;
      }
      assert assets[..i] == assets;
      if updatedCount > 0 {
        assets := newAssets;
      }
    }

    /**
     * The recurring auto-execute effect. `ids[j]` is the id a transaction for
     * `recurring[j]` gets. When anything was posted, the new transactions are
     * appended to the stored ones and the log is saved.
     */
    method PostRecurring(today: CalDate, ids: seq<string>) returns (executedCount: nat)
      requires |ids| == |recurring|
      modifies this
      ensures executedCount == |PostPlan(old(recurring), old(executedLog), today, ids).txs|
      ensures transactions == old(transactions) + PostPlan(old(recurring), old(executedLog), today, ids).txs
      ensures executedLog == if executedCount > 0 then PostPlan(old(recurring), old(executedLog), today, ids).log
                             else old(executedLog)
      ensures assets == old(assets) && recurring == old(recurring) && history == old(history)
      ensures stockSnapshots == old(stockSnapshots) && budgets == old(budgets)
    {
      ghost var plan := PostPlan(recurring, executedLog, today, ids);
      executedCount := 0;
      if |recurring| == 0 {
        assert plan == Plan([], executedLog);
        return;
      }
      var newTransactions, newLog;
      newTransactions, newLog, executedCount := PostPass(recurring, executedLog, today, ids);
      assert newTransactions == plan.txs && newLog == plan.log;
      if executedCount > 0 {
        transactions := transactions + newTransactions;
        executedLog := newLog;
      } else {
        assert newTransactions == [];
      }
    }

    /** The accumulation loop of takeSnapshot. */
    method SnapshotTotals(s: seq<Asset>) returns (assetsVal: real, liabilitiesVal: real, distribution: map<AssetType, real>)
      ensures assetsVal == AssetsTotal(s) && liabilitiesVal == DebtTotal(s)
      ensures distribution == Distribution(s)
    {
      assetsVal, liabilitiesVal := 0.0, 0.0;
      distribution := map[];
      var i := 0;
      assert KindsOf(s[..0]) == {};
      while i < |s|
        invariant 0 <= i <= |s|
        invariant assetsVal == AssetsTotal(s[..i]) && liabilitiesVal == DebtTotal(s[..i])
        invariant distribution == Distribution(s[..i])
      {
        var a := s[i];
        var val := a.amount;
        assert s[..i + 1][..i] == s[..i];
        if a.kind == Debt {
          liabilitiesVal := liabilitiesVal + val;
        } else {
          assetsVal := assetsVal + val;
        }
        DistributionStep(s, i);
        distribution := distribution[a.kind := DistValue(distribution, a.kind) + val];
        i := i + 1;
      }
      assert s[..i] == s;
    }

    /** takeSnapshot, with `today` the current date. */
    method TakeSnapshot(today: CalDate)
      modifies this
      ensures history == UpdatedHistory(old(history), Snapshot(old(assets), IsoDate(today)))
      ensures assets == old(assets) && transactions == old(transactions) && recurring == old(recurring)
      ensures executedLog == old(executedLog) && stockSnapshots == old(stockSnapshots) && budgets == old(budgets)
    {
      var assetsVal, liabilitiesVal, distribution := SnapshotTotals(assets);
      var snapshot := PortfolioSnapshot(IsoDate(today), assetsVal, liabilitiesVal, assetsVal - liabilitiesVal, distribution);
      var filteredHistory := WithoutDate(history, IsoDate(today));
      filteredHistory := filteredHistory + [snapshot];
      if |filteredHistory| > 365 {
        filteredHistory := filteredHistory[1..];
      }
      history := filteredHistory;
    }

    /** checkAndTakeSnapshot: at most one snapshot per day, none without assets. */
    method CheckAndTakeSnapshot(today: CalDate)
      modifies this
      ensures history == if SnapshotSkipped(old(assets), old(history), IsoDate(today)) then old(history)
                         else UpdatedHistory(old(history), Snapshot(old(assets), IsoDate(today)))
      ensures assets == old(assets) && transactions == old(transactions) && recurring == old(recurring)
      ensures executedLog == old(executedLog) && stockSnapshots == old(stockSnapshots) && budgets == old(budgets)
    {
      if |assets| == 0 {
        return;
      }
      if |history| == 0 || history[|history| - 1].date != IsoDate(today) {
        TakeSnapshot(today);
      }
    }

    method AddAsset(a: Asset)
      modifies this
      ensures assets == old(assets) + [a]
      ensures transactions == old(transactions) && recurring == old(recurring) && executedLog == old(executedLog)
      ensures history == old(history) && stockSnapshots == old(stockSnapshots) && budgets == old(budgets)
    {
      assets := assets + [a];
    }

    method UpdateAsset(a: Asset)
      modifies this
      ensures assets == ReplaceById(old(assets), a)
      ensures transactions == old(transactions) && recurring == old(recurring) && executedLog == old(executedLog)
      ensures history == old(history) && stockSnapshots == old(stockSnapshots) && budgets == old(budgets)
    {
      assets := ReplaceById(assets, a);
    }

    method DeleteAsset(id: string)
      modifies this
      ensures assets == RemoveKey(old(assets), AssetId, id)
      ensures transactions == old(transactions) && recurring == old(recurring) && executedLog == old(executedLog)
      ensures history == old(history) && stockSnapshots == old(stockSnapshots) && budgets == old(budgets)
    {
      assets := RemoveKey(assets, AssetId, id);
    }

    /** handleUpdateStockAssetValue, with `now` for Date.now() and `newId` for crypto.randomUUID(). */
    method UpdateStockAssetValue(value: real, now: int, newId: string)
      modifies this
      ensures assets == StockSynced(old(assets), value, now, newId)
      ensures transactions == old(transactions) && recurring == old(recurring) && executedLog == old(executedLog)
      ensures history == old(history) && stockSnapshots == old(stockSnapshots) && budgets == old(budgets)
    {
      var stockIndex := FindIndex(assets, IsStock);
      if stockIndex.Some? {
        UpdateAsset(assets[stockIndex.value].(amount := value, lastUpdated := now));
      } else {
        AddAsset(NewStockAsset(newId, value, now));
      }
    }

    method AddTransaction(t: Transaction)
      modifies this
      ensures transactions == old(transactions) + [t]
      ensures assets == old(assets) && recurring == old(recurring) && executedLog == old(executedLog)
      ensures history == old(history) && stockSnapshots == old(stockSnapshots) && budgets == old(budgets)
    {
      transactions := transactions + [t];
    }

    method BulkAddTransactions(ts: seq<Transaction>)
      modifies this
      ensures transactions == old(transactions) + ts
      ensures assets == old(assets) && recurring == old(recurring) && executedLog == old(executedLog)
      ensures history == old(history) && stockSnapshots == old(stockSnapshots) && budgets == old(budgets)
    {
      transactions := transactions + ts;
    }

    method DeleteTransaction(id: string)
      modifies this
      ensures transactions == RemoveKey(old(transactions), TxId, id)
      ensures assets == old(assets) && recurring == old(recurring) && executedLog == old(executedLog)
      ensures history == old(history) && stockSnapshots == old(stockSnapshots) && budgets == old(budgets)
    {
      transactions := RemoveKey(transactions, TxId, id);
    }

    method AddRecurring(item: RecurringItem)
      modifies this
      ensures recurring == old(recurring) + [item]
      ensures assets == old(assets) && transactions == old(transactions) && executedLog == old(executedLog)
      ensures history == old(history) && stockSnapshots == old(stockSnapshots) && budgets == old(budgets)
    {
      recurring := recurring + [item];
    }

    method DeleteRecurring(id: string)
      modifies this
      ensures recurring == RemoveKey(old(recurring), RecurringId, id)
      ensures assets == old(assets) && transactions == old(transactions) && executedLog == old(executedLog)
      ensures history == old(history) && stockSnapshots == old(stockSnapshots) && budgets == old(budgets)
    {
      recurring := RemoveKey(recurring, RecurringId, id);
    }

    method AddStockSnapshot(snapshot: StockSnapshot)
      modifies this
      ensures stockSnapshots == old(stockSnapshots) + [snapshot]
      ensures assets == old(assets) && transactions == old(transactions) && recurring == old(recurring)
      ensures executedLog == old(executedLog) && history == old(history) && budgets == old(budgets)
    {
      stockSnapshots := stockSnapshots + [snapshot];
    }

    method UpdateBudgets(newBudgets: seq<BudgetConfig>)
      modifies this
      ensures budgets == newBudgets
      ensures assets == old(assets) && transactions == old(transactions) && recurring == old(recurring)
      ensures executedLog == old(executedLog) && history == old(history) && stockSnapshots == old(stockSnapshots)
    {
      budgets := newBudgets;
    }
  }
}
