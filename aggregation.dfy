/**
 * The derived data of App.tsx, recomputed from the transaction list on every render:
 * the monthly filter, the monthly totals, the ledger's lifetime balance, the day groups
 * of the home screen and the expense ranking of the statistics screen.
 */
module Aggregation {
  import opened Types
  import opened Seqs
  import opened Sorting

  // ---------------------------------------------------------------------------
  // Monthly filter (filteredTransactions)

  /** The part of a transaction the monthly filter compares: ledger, year and month. */
  function MonthKey(t: Transaction): (string, int, int) { (t.ledgerId, t.date.year, t.date.month) }

  /** Comparator `b.timestamp - a.timestamp`: the more recently created transaction first. */
  predicate NewerOrSame(a: Transaction, b: Transaction) { a.timestamp >= b.timestamp }

  /** The list is ordered by creation time, the most recent first. */
  ghost predicate NewestFirst(s: seq<Transaction>)
  {
    forall i, j :: 0 <= i < j < |s| ==> s[i].timestamp >= s[j].timestamp
  }

  /** The active ledger's transactions dated in the displayed year and month, newest first. */
  function MonthlyTransactions(ts: seq<Transaction>, ledgerId: string, year: int, month: int): (r: seq<Transaction>)
    ensures forall t :: t in r <==> t in ts && t.ledgerId == ledgerId && t.date.year == year && t.date.month == month
    ensures multiset(r) == multiset(WhereKey(ts, MonthKey, (ledgerId, year, month)))
    ensures NewestFirst(r)
  {
    var inMonth := WhereKey(ts, MonthKey, (ledgerId, year, month));
    assert TotalPreorder(NewerOrSame);
    SortBySorted(inMonth, NewerOrSame);
    var r := SortBy(inMonth, NewerOrSame);
    WhereKeyMembers(ts, MonthKey, (ledgerId, year, month));
    assert forall t :: t in r <==> t in multiset(r);
    assert forall t :: t in inMonth <==> t in multiset(inMonth);
    r
  }

  /** Filtering a newest-first list keeps it newest first (each day group inherits the list's order). */
  lemma {:induction false} FilterKeepsNewestFirst<K>(s: seq<Transaction>, key: Transaction -> K, k: K)
    requires NewestFirst(s)
    ensures NewestFirst(WhereKey(s, key, k))
  {
    if s != [] {
      var p, x := s[..|s| - 1], s[|s| - 1];
      assert forall i :: 0 <= i < |p| ==> p[i] == s[i];
      FilterKeepsNewestFirst(p, key, k);
      var rp := WhereKey(p, key, k);
      if key(x) == k {
        var r := rp + [x];
        assert WhereKey(s, key, k) == r;
        WhereKeyMembers(p, key, k);
        forall i, j | 0 <= i < j < |r| ensures r[i].timestamp >= r[j].timestamp {
          if j == |rp| {
            assert r[i] == rp[i];
            assert r[i] in p;
            var m :| 0 <= m < |p| && p[m] == r[i];
            assert s[m] == r[i] && s[|s| - 1] == r[j];
          } else {
            assert r[i] == rp[i] && r[j] == rp[j];
          }
        }
      }
    }
  }

  // ---------------------------------------------------------------------------
  // Monthly totals (stats)

  datatype MonthStats = MonthStats(income: real, expense: real, balance: real)

  /** The forEach loop over the month's transactions: income and everything else, then the balance. */
  method ComputeStats(filtered: seq<Transaction>) returns (stats: MonthStats)
    ensures stats.income == SumBy(filtered, IncomeAmount)
    ensures stats.expense == SumBy(filtered, ExpenseAmount)
    ensures stats.balance == stats.income - stats.expense
  {
    var income, expense := 0.0, 0.0;
    for i := 0 to |filtered|
      invariant income == SumBy(filtered[..i], IncomeAmount)
      invariant expense == SumBy(filtered[..i], ExpenseAmount)
    {
      var t := filtered[i];
      assert filtered[..i + 1] == filtered[..i] + [t];
      SumBySnoc(filtered[..i], t, IncomeAmount);
      SumBySnoc(filtered[..i], t, ExpenseAmount);
      if t.txType == Income {
        income := income + t.amount;
      } else {
        expense := expense + t.amount;
      }
    }
    assert filtered[..|filtered|] == filtered;
    stats := MonthStats(income, expense, income - expense);
  }

  /** `income` is the total amount of the income transactions. */
  lemma {:induction false} IncomeIsIncomeTransactions(s: seq<Transaction>)
    ensures SumBy(s, IncomeAmount) == SumBy(WhereKey(s, TypeOf, Income), AmountOf)
  {
    if s != [] {
      var p, x := s[..|s| - 1], s[|s| - 1];
      IncomeIsIncomeTransactions(p);
      var w := WhereKey(p, TypeOf, Income);
      assert WhereKey(s, TypeOf, Income) == if x.txType == Income then w + [x] else w;
      SumBySnoc(w, x, AmountOf);
    }
  }

  /** `expense` is the total amount of the expense transactions. */
  lemma {:induction false} ExpenseIsExpenseTransactions(s: seq<Transaction>)
    ensures SumBy(s, ExpenseAmount) == SumBy(WhereKey(s, TypeOf, Expense), AmountOf)
  {
    if s != [] {
      var p, x := s[..|s| - 1], s[|s| - 1];
      ExpenseIsExpenseTransactions(p);
      var w := WhereKey(p, TypeOf, Expense);
      assert WhereKey(s, TypeOf, Expense) == if x.txType == Expense then w + [x] else w;
      SumBySnoc(w, x, AmountOf);
    }
  }

  /** The totals do not depend on the order of the month's list: sorting it changes nothing. */
  lemma MonthTotalsIgnoreOrder(ts: seq<Transaction>, ledgerId: string, year: int, month: int)
    ensures SumBy(MonthlyTransactions(ts, ledgerId, year, month), IncomeAmount)
         == SumBy(WhereKey(ts, MonthKey, (ledgerId, year, month)), IncomeAmount)
    ensures SumBy(MonthlyTransactions(ts, ledgerId, year, month), ExpenseAmount)
         == SumBy(WhereKey(ts, MonthKey, (ledgerId, year, month)), ExpenseAmount)
  {
    var r, s := MonthlyTransactions(ts, ledgerId, year, month), WhereKey(ts, MonthKey, (ledgerId, year, month));
    SumByPermutation(r, s, IncomeAmount);
    SumByPermutation(r, s, ExpenseAmount);
  }

  // ---------------------------------------------------------------------------
  // Lifetime ledger balance (totalBalance)

  /** The reduce over every transaction of the ledger, whatever its month. */
  function LedgerBalance(ts: seq<Transaction>, ledgerId: string): real
  {
    SumBy(WhereKey(ts, LedgerOf, ledgerId), SignedAmount)
  }

  lemma {:induction false} SignedIsIncomeMinusExpense(s: seq<Transaction>)
    ensures SumBy(s, SignedAmount) == SumBy(s, IncomeAmount) - SumBy(s, ExpenseAmount)
  {
    if s != [] {
      SignedIsIncomeMinusExpense(s[..|s| - 1]);
    }
  }

  /** The lifetime balance is the ledger's income minus its expense. */
  lemma LedgerBalanceIsIncomeMinusExpense(ts: seq<Transaction>, ledgerId: string)
    ensures LedgerBalance(ts, ledgerId)
         == SumBy(WhereKey(ts, LedgerOf, ledgerId), IncomeAmount) - SumBy(WhereKey(ts, LedgerOf, ledgerId), ExpenseAmount)
  {
    SignedIsIncomeMinusExpense(WhereKey(ts, LedgerOf, ledgerId));
  }

  // ---------------------------------------------------------------------------
  // Daily grouping (groupedTransactions)

  /** The group for day `d`: the month's transactions on that day, in list order, with their subtotals. */
  function DayGroup(filtered: seq<Transaction>, d: Date): DailyGroup
  {
    var onDay := WhereKey(filtered, DateOf, d);
    DailyGroup(d, SumBy(onDay, IncomeAmount), SumBy(onDay, ExpenseAmount), onDay)
  }

  /** Object.values of the dictionary: one group per day, in the order the days were first met. */
  function DayGroupsInOrder(filtered: seq<Transaction>, days: seq<Date>): seq<DailyGroup>
  {
    seq(|days|, i requires 0 <= i < |days| => DayGroup(filtered, days[i]))
  }

  function GroupDate(g: DailyGroup): Date { g.date }
  function GroupIncome(g: DailyGroup): real { g.totalIncome }
  function GroupExpense(g: DailyGroup): real { g.totalExpense }

  /** Comparator on `getTime()` of the dates: the later day first. */
  predicate LaterDayOrSame(a: DailyGroup, b: DailyGroup) { !DateAfter(b.date, a.date) }

  function DailyGroups(filtered: seq<Transaction>): seq<DailyGroup>
  {
    SortBy(DayGroupsInOrder(filtered, KeysInOrder(filtered, DateOf)), LaterDayOrSame)
  }

  /** The groups' transaction lists, one after another. */
  function Concat(groups: seq<DailyGroup>): seq<Transaction>
  {
    if groups == [] then [] else Concat(groups[..|groups| - 1]) + groups[|groups| - 1].transactions
  }

  /**
   * What the home screen shows of a month: one non-empty group per day that has a transaction,
   * days strictly newest first, each group holding exactly that day's transactions in
   * list order and their income and expense subtotals.
   */
  ghost predicate IsDayGrouping(filtered: seq<Transaction>, groups: seq<DailyGroup>)
  {
    && (forall i :: 0 <= i < |groups| ==> groups[i] == DayGroup(filtered, groups[i].date) && groups[i].transactions != [])
    && (forall i, j :: 0 <= i < j < |groups| ==> DateAfter(groups[i].date, groups[j].date))
    && (forall t :: t in filtered ==> exists i :: 0 <= i < |groups| && groups[i].date == t.date)
  }

  /** Every group is the day group of its own date, and none is empty. */
  lemma DailyGroupsAreDayGroups(filtered: seq<Transaction>)
    ensures var groups := DailyGroups(filtered);
            forall i :: 0 <= i < |groups| ==> groups[i] == DayGroup(filtered, groups[i].date) && groups[i].transactions != []
  {
    var days := KeysInOrder(filtered, DateOf);
    var values := DayGroupsInOrder(filtered, days);
    var groups := DailyGroups(filtered);
    forall i | 0 <= i < |groups| ensures groups[i] == DayGroup(filtered, groups[i].date) && groups[i].transactions != [] {
      var g := groups[i];
      assert g in multiset(groups);
      var k :| 0 <= k < |values| && values[k] == g;
      assert days[k] in days;
      var x :| x in filtered && DateOf(x) == days[k];
      WhereKeyMembers(filtered, DateOf, days[k]);
      assert x in g.transactions;
    }
  }

  /** A day group holds only transactions of the month's list dated on that day. */
  lemma DayGroupMember(filtered: seq<Transaction>, d: Date, t: Transaction)
    requires t in DayGroup(filtered, d).transactions
    ensures t in filtered && t.date == d
  {
    WhereKeyMembers(filtered, DateOf, d);
  }

  /** In a day grouping, a group holds only transactions of the month's list dated on the group's day. */
  lemma GroupsHoldTheirDays(filtered: seq<Transaction>, groups: seq<DailyGroup>)
    requires IsDayGrouping(filtered, groups)
    ensures forall i, t :: 0 <= i < |groups| && t in groups[i].transactions ==> t in filtered && t.date == groups[i].date
  {
    forall i, t | 0 <= i < |groups| && t in groups[i].transactions ensures t in filtered && t.date == groups[i].date {
      DayGroupMember(filtered, groups[i].date, t);
    }
  }

  /** The groups' dates are strictly decreasing: one group per day, newest first. */
  lemma DailyGroupsNewestFirst(filtered: seq<Transaction>)
    ensures forall i, j :: 0 <= i < j < |DailyGroups(filtered)| ==>
              DateAfter(DailyGroups(filtered)[i].date, DailyGroups(filtered)[j].date)
  {
    var days := KeysInOrder(filtered, DateOf);
    var values := DayGroupsInOrder(filtered, days);
    var groups := DailyGroups(filtered);
    assert TotalPreorder(LaterDayOrSame);
    SortBySorted(values, LaterDayOrSame);
    assert DistinctBy(values, GroupDate) by {
      forall i, j | 0 <= i < j < |values| ensures GroupDate(values[i]) != GroupDate(values[j]) {
        assert values[i].date == days[i] && values[j].date == days[j];
      }
    }
    DistinctByPermutation(values, groups, GroupDate);
    forall i, j | 0 <= i < j < |groups| ensures DateAfter(groups[i].date, groups[j].date) {
      assert LaterDayOrSame(groups[i], groups[j]);
      assert GroupDate(groups[i]) != GroupDate(groups[j]);
    }
  }

  /** Every day of the month's list has a group. */
  lemma DailyGroupsCoverMonth(filtered: seq<Transaction>)
    ensures forall t :: t in filtered ==> exists i :: 0 <= i < |DailyGroups(filtered)| && DailyGroups(filtered)[i].date == t.date
  {
    var days := KeysInOrder(filtered, DateOf);
    var values := DayGroupsInOrder(filtered, days);
    var groups := DailyGroups(filtered);
    forall t | t in filtered ensures exists i :: 0 <= i < |groups| && groups[i].date == t.date {
      assert DateOf(t) in days;
      var k :| 0 <= k < |days| && days[k] == t.date;
      assert values[k] in multiset(groups);
      var i :| 0 <= i < |groups| && groups[i] == values[k];
      assert groups[i].date == t.date;
    }
  }

  lemma DailyGroupsAreGrouping(filtered: seq<Transaction>)
    ensures IsDayGrouping(filtered, DailyGroups(filtered))
  {
    var groups := DailyGroups(filtered);
    DailyGroupsAreDayGroups(filtered);
    DailyGroupsNewestFirst(filtered);
    DailyGroupsCoverMonth(filtered);
    assert forall i :: 0 <= i < |groups| ==> groups[i] in groups;
  }

  /** Appending `t` to the month's list adds it to its own day's group and leaves the other days alone. */
  lemma DayGroupSnoc(s: seq<Transaction>, t: Transaction, d: Date)
    ensures d != t.date ==> DayGroup(s + [t], d) == DayGroup(s, d)
    ensures d == t.date ==>
      var g := DayGroup(s, d);
      DayGroup(s + [t], d) == DailyGroup(d, g.totalIncome + IncomeAmount(t), g.totalExpense + ExpenseAmount(t), g.transactions + [t])
  {
    var onDay, onDay' := WhereKey(s, DateOf, d), WhereKey(s + [t], DateOf, d);
    WhereKeySnoc(s, t, DateOf, d);
    assert DayGroup(s + [t], d) == DailyGroup(d, SumBy(onDay', IncomeAmount), SumBy(onDay', ExpenseAmount), onDay');
    if d == t.date {
      assert onDay' == onDay + [t];
      SumBySnoc(onDay, t, IncomeAmount);
      SumBySnoc(onDay, t, ExpenseAmount);
    } else {
      assert onDay' == onDay;
    }
  }

  /** The day dictionary's keys are the days of `s`, in order of first occurrence. */
  ghost predicate DayKeys(s: seq<Transaction>, byDate: map<Date, DailyGroup>, order: seq<Date>)
  {
    && order == KeysInOrder(s, DateOf)
    && (forall d :: d in byDate <==> d in order)
  }

  /** Each entry of the day dictionary is that day's group over `s`. */
  ghost predicate DayValues(s: seq<Transaction>, byDate: map<Date, DailyGroup>)
  {
    forall d :: d in byDate ==> byDate[d] == DayGroup(s, d)
  }

  lemma DayKeysSnoc(s: seq<Transaction>, t: Transaction, s': seq<Transaction>,
                    byDate: map<Date, DailyGroup>, order: seq<Date>, g: DailyGroup, order': seq<Date>)
    requires s' == s + [t]
    requires DayKeys(s, byDate, order)
    requires order' == if t.date in byDate then order else order + [t.date]
    ensures DayKeys(s', byDate[t.date := g], order')
  {
    KeysInOrderSnoc(s, t, DateOf);
  }

  /** A day not yet in the dictionary starts from an empty group. */
  lemma NewDayIsEmpty(s: seq<Transaction>, byDate: map<Date, DailyGroup>, order: seq<Date>, d: Date)
    requires DayKeys(s, byDate, order)
    requires d !in byDate
    ensures DayGroup(s, d) == DailyGroup(d, 0.0, 0.0, [])
  {
    WhereKeyAbsent(s, DateOf, d);
  }

  lemma DayValuesSnoc(s: seq<Transaction>, t: Transaction, s': seq<Transaction>,
                      byDate: map<Date, DailyGroup>, g0: DailyGroup, g: DailyGroup)
    requires s' == s + [t]
    requires DayValues(s, byDate)
    requires g0 == DayGroup(s, t.date)
    requires g.date == t.date
    requires g.transactions == g0.transactions + [t]
    requires g.totalIncome == g0.totalIncome + IncomeAmount(t)
    requires g.totalExpense == g0.totalExpense + ExpenseAmount(t)
    ensures DayValues(s', byDate[t.date := g])
  {
    forall d | d in byDate[t.date := g] ensures byDate[t.date := g][d] == DayGroup(s', d) {
      DayGroupSnoc(s, t, d);
    }
  }

  /** One pass of the forEach body keeps both halves of the dictionary invariant. */
  lemma DayStep(s: seq<Transaction>, t: Transaction, s': seq<Transaction>,
                byDate: map<Date, DailyGroup>, order: seq<Date>, g0: DailyGroup, g: DailyGroup, order': seq<Date>)
    requires s' == s + [t]
    requires DayKeys(s, byDate, order) && DayValues(s, byDate)
    requires g0 == if t.date in byDate then byDate[t.date] else DailyGroup(t.date, 0.0, 0.0, [])
    requires order' == if t.date in byDate then order else order + [t.date]
    requires g.date == t.date && g.transactions == g0.transactions + [t]
    requires g.totalIncome == g0.totalIncome + IncomeAmount(t) && g.totalExpense == g0.totalExpense + ExpenseAmount(t)
    ensures DayKeys(s', byDate[t.date := g], order') && DayValues(s', byDate[t.date := g])
  {
    if t.date !in byDate {
      NewDayIsEmpty(s, byDate, order, t.date);
    }
    DayKeysSnoc(s, t, s', byDate, order, g, order');
    DayValuesSnoc(s, t, s', byDate, g0, g);
  }

  /**
   * The forEach body for one transaction: creates the day's group when the day is new,
   * then appends the transaction and adds its amount to the matching subtotal.
   */
  method RecordInDay(ghost s: seq<Transaction>, t: Transaction, ghost s': seq<Transaction>,
                     byDate: map<Date, DailyGroup>, order: seq<Date>)
    returns (byDate': map<Date, DailyGroup>, order': seq<Date>)
    requires s' == s + [t]
    requires DayKeys(s, byDate, order) && DayValues(s, byDate)
    ensures DayKeys(s', byDate', order') && DayValues(s', byDate')
    ensures order' == if t.date in byDate then order else order + [t.date]
  {
    var g := DailyGroup(t.date, 0.0, 0.0, []);
    order' := order;
    if t.date in byDate {
      g := byDate[t.date];
    } else {
      order' := order + [t.date];
    }
    ghost var g0 := g;
    g := g.(transactions := g.transactions + [t]);
    if t.txType == Income {
      g := g.(totalIncome := g.totalIncome + t.amount);
    } else {
      g := g.(totalExpense := g.totalExpense + t.amount);
    }
    DayStep(s, t, s', byDate, order, g0, g, order');
    byDate' := byDate[t.date := g];
  }

  /** The forEach loop of groupedTransactions: the day dictionary and its key order. */
  method CollectDays(filtered: seq<Transaction>) returns (byDate: map<Date, DailyGroup>, order: seq<Date>)
    ensures DayKeys(filtered, byDate, order)
    ensures DayValues(filtered, byDate)
  {
    byDate, order := map[], [];
    for i := 0 to |filtered|
      invariant DayKeys(filtered[..i], byDate, order)
      invariant DayValues(filtered[..i], byDate)
    {
      PrefixSnoc(filtered, i);
      byDate, order := RecordInDay(filtered[..i], filtered[i], filtered[..i + 1], byDate, order);
    }
    PrefixAll(filtered);
  }

  /** Object.values of the finished day dictionary lists the day groups in first-occurrence order. */
  lemma DictionaryValuesInOrder(filtered: seq<Transaction>, byDate: map<Date, DailyGroup>, order: seq<Date>,
                                values: seq<DailyGroup>)
    requires DayKeys(filtered, byDate, order) && DayValues(filtered, byDate)
    requires |values| == |order| && forall k :: 0 <= k < |order| ==> order[k] in byDate && values[k] == byDate[order[k]]
    ensures values == DayGroupsInOrder(filtered, KeysInOrder(filtered, DateOf))
  {
    assert forall k :: 0 <= k < |order| ==> values[k] == DayGroup(filtered, order[k]);
  }

  /** groupedTransactions: Object.values of the day dictionary, sorted newest day first. */
  method GroupByDay(filtered: seq<Transaction>) returns (groups: seq<DailyGroup>)
    ensures groups == DailyGroups(filtered)
    ensures IsDayGrouping(filtered, groups)
  {
    var byDate, order := CollectDays(filtered);
    var values := seq(|order|, k requires 0 <= k < |order| => byDate[order[k]]);
    DictionaryValuesInOrder(filtered, byDate, order, values);
    groups := SortBy(values, LaterDayOrSame);
    DailyGroupsAreGrouping(filtered);
  }

  function GroupDates(groups: seq<DailyGroup>): seq<Date>
  {
    seq(|groups|, i requires 0 <= i < |groups| => groups[i].date)
  }

  lemma {:induction false} ConcatIsRegrouping(filtered: seq<Transaction>, groups: seq<DailyGroup>)
    requires forall i :: 0 <= i < |groups| ==> groups[i].transactions == WhereKey(filtered, DateOf, groups[i].date)
    ensures Concat(groups) == GroupedByKeys(filtered, DateOf, GroupDates(groups))
  {
    if groups != [] {
      var front := groups[..|groups| - 1];
      assert GroupDates(groups)[..|groups| - 1] == GroupDates(front);
      ConcatIsRegrouping(filtered, front);
    }
  }

  /** Concatenating the groups' lists gives back the month's list, rearranged by day. */
  lemma GroupsPartitionMonth(filtered: seq<Transaction>, groups: seq<DailyGroup>)
    requires IsDayGrouping(filtered, groups)
    ensures multiset(Concat(groups)) == multiset(filtered)
  {
    var days := GroupDates(groups);
    ConcatIsRegrouping(filtered, groups);
    assert Distinct(days) by {
      forall i, j | 0 <= i < j < |days| ensures days[i] != days[j] {
        assert DateAfter(groups[i].date, groups[j].date);
      }
    }
    forall x | x in filtered ensures DateOf(x) in days {
      var i :| 0 <= i < |groups| && groups[i].date == x.date;
      assert days[i] == x.date;
    }
    PartitionByKeys(filtered, DateOf, days);
  }

  /** Each group lists its transactions in the order of the month's list: newest first. */
  lemma GroupsKeepNewestFirst(filtered: seq<Transaction>, groups: seq<DailyGroup>)
    requires IsDayGrouping(filtered, groups)
    requires NewestFirst(filtered)
    ensures forall k :: 0 <= k < |groups| ==> NewestFirst(groups[k].transactions)
  {
    forall k | 0 <= k < |groups| ensures NewestFirst(groups[k].transactions) {
      assert groups[k].transactions == WhereKey(filtered, DateOf, groups[k].date);
      FilterKeepsNewestFirst(filtered, DateOf, groups[k].date);
    }
  }

  lemma {:induction false} GroupTotalsAreConcatTotals(groups: seq<DailyGroup>)
    requires forall i :: 0 <= i < |groups| ==>
               groups[i].totalIncome == SumBy(groups[i].transactions, IncomeAmount) &&
               groups[i].totalExpense == SumBy(groups[i].transactions, ExpenseAmount)
    ensures SumBy(groups, GroupIncome) == SumBy(Concat(groups), IncomeAmount)
    ensures SumBy(groups, GroupExpense) == SumBy(Concat(groups), ExpenseAmount)
  {
    if groups != [] {
      var front, last := groups[..|groups| - 1], groups[|groups| - 1];
      GroupTotalsAreConcatTotals(front);
      SumByConcat(Concat(front), last.transactions, IncomeAmount);
      SumByConcat(Concat(front), last.transactions, ExpenseAmount);
    }
  }

  /** The day subtotals add up to the month's totals. */
  lemma GroupTotalsMatchStats(filtered: seq<Transaction>, groups: seq<DailyGroup>)
    requires IsDayGrouping(filtered, groups)
    ensures SumBy(groups, GroupIncome) == SumBy(filtered, IncomeAmount)
    ensures SumBy(groups, GroupExpense) == SumBy(filtered, ExpenseAmount)
  {
    GroupTotalsAreConcatTotals(groups);
    GroupsPartitionMonth(filtered, groups);
    SumByPermutation(Concat(groups), filtered, IncomeAmount);
    SumByPermutation(Concat(groups), filtered, ExpenseAmount);
  }

  // ---------------------------------------------------------------------------
  // Expense ranking by category (dataMap / data in renderStats)

  /** One slice of the pie chart and one line of the ranking. */
  datatype ChartEntry = ChartEntry(name: string, value: real, color: string)

  function EntryValue(e: ChartEntry): real { e.value }

  /** Comparator `b.value - a.value`: the larger total first. */
  predicate LargerOrSame(a: ChartEntry, b: ChartEntry) { a.value >= b.value }

  /** String.prototype.replace with a string pattern: drops the first occurrence of `pattern`. */
  function RemoveFirst(s: string, pattern: string): string
  {
    if |s| < |pattern| then s
    else if s[..|pattern|] == pattern then s[|pattern|..]
    else [s[0]] + RemoveFirst(s[1..], pattern)
  }

  /** The join with the category list; a missing category or an empty name or color falls back. */
  function EntryFor(categories: seq<Category>, id: string, value: real): ChartEntry
  {
    var cat := FindFirst(categories, CategoryIdOf, id);
    var color := if cat.Some? then RemoveFirst(cat.value.color, "bg-") else "";
    ChartEntry(if cat.Some? && cat.value.name != "" then cat.value.name else "Unknown",
               value,
               if color != "" then color else "gray-400")
  }

  function Expenses(filtered: seq<Transaction>): seq<Transaction>
  {
    WhereKey(filtered, TypeOf, Expense)
  }

  /** dataMap[id]: the summed amount of the expense transactions of category `id`. */
  function CategoryTotal(expenses: seq<Transaction>, id: string): real
  {
    SumBy(WhereKey(expenses, CategoryOf, id), AmountOf)
  }

  /** Object.entries(dataMap) joined with the categories, in key order. */
  function EntriesFor(categories: seq<Category>, expenses: seq<Transaction>, ids: seq<string>): seq<ChartEntry>
  {
    seq(|ids|, i requires 0 <= i < |ids| => EntryFor(categories, ids[i], CategoryTotal(expenses, ids[i])))
  }

  function ExpenseRanking(filtered: seq<Transaction>, categories: seq<Category>): seq<ChartEntry>
  {
    var expenses := Expenses(filtered);
    SortBy(EntriesFor(categories, expenses, KeysInOrder(expenses, CategoryOf)), LargerOrSame)
  }

  /** Appending an expense adds its amount to its own category's total only. */
  lemma CategoryTotalSnoc(s: seq<Transaction>, t: Transaction, id: string)
    ensures CategoryTotal(s + [t], id) == CategoryTotal(s, id) + (if t.categoryId == id then t.amount else 0.0)
  {
    WhereKeySnoc(s, t, CategoryOf, id);
    SumBySnoc(WhereKey(s, CategoryOf, id), t, AmountOf);
  }

  /** The dataMap dictionary's keys are the category ids of `s`, in order of first occurrence. */
  ghost predicate TotalsKeys(s: seq<Transaction>, totals: map<string, real>, ids: seq<string>)
  {
    && ids == KeysInOrder(s, CategoryOf)
    && (forall id :: id in totals <==> id in ids)
  }

  /** Each entry of dataMap is that category's total over `s`. */
  ghost predicate TotalsValues(s: seq<Transaction>, totals: map<string, real>)
  {
    forall id :: id in totals ==> totals[id] == CategoryTotal(s, id)
  }

  lemma TotalsKeysSnoc(s: seq<Transaction>, t: Transaction, s': seq<Transaction>,
                       totals: map<string, real>, ids: seq<string>, v: real, ids': seq<string>)
    requires s' == s + [t]
    requires TotalsKeys(s, totals, ids)
    requires ids' == if t.categoryId in totals then ids else ids + [t.categoryId]
    ensures TotalsKeys(s', totals[t.categoryId := v], ids')
  {
    KeysInOrderSnoc(s, t, CategoryOf);
  }

  /** A category not yet in dataMap has total 0 so far (the `|| 0` of the source). */
  lemma NewCategoryIsZero(s: seq<Transaction>, totals: map<string, real>, ids: seq<string>, id: string)
    requires TotalsKeys(s, totals, ids)
    requires id !in totals
    ensures CategoryTotal(s, id) == 0.0
  {
    WhereKeyAbsent(s, CategoryOf, id);
  }

  lemma TotalsValuesSnoc(s: seq<Transaction>, t: Transaction, s': seq<Transaction>,
                         totals: map<string, real>, v0: real, totals': map<string, real>)
    requires s' == s + [t]
    requires TotalsValues(s, totals)
    requires v0 == CategoryTotal(s, t.categoryId)
    requires totals' == totals[t.categoryId := v0 + t.amount]
    ensures TotalsValues(s', totals')
  {
    forall id | id in totals' ensures totals'[id] == CategoryTotal(s', id) {
      CategoryTotalSnoc(s, t, id);
    }
  }

  /** One pass of the forEach body keeps both halves of the dataMap invariant. */
  lemma TotalsStep(s: seq<Transaction>, t: Transaction, s': seq<Transaction>,
                   totals: map<string, real>, ids: seq<string>, v0: real,
                   totals': map<string, real>, ids': seq<string>)
    requires s' == s + [t]
    requires TotalsKeys(s, totals, ids) && TotalsValues(s, totals)
    requires v0 == if t.categoryId in totals then totals[t.categoryId] else 0.0
    requires totals' == totals[t.categoryId := v0 + t.amount]
    requires ids' == if t.categoryId in totals then ids else ids + [t.categoryId]
    ensures TotalsKeys(s', totals', ids') && TotalsValues(s', totals')
  {
    if t.categoryId !in totals {
      NewCategoryIsZero(s, totals, ids, t.categoryId);
    }
    TotalsKeysSnoc(s, t, s', totals, ids, v0 + t.amount, ids');
    TotalsValuesSnoc(s, t, s', totals, v0, totals');
  }

  /** The forEach body for one expense: `dataMap[id] = (dataMap[id] || 0) + amount`. */
  method RecordExpense(ghost s: seq<Transaction>, t: Transaction, ghost s': seq<Transaction>,
                       totals: map<string, real>, ids: seq<string>)
    returns (totals': map<string, real>, ids': seq<string>)
    requires s' == s + [t]
    requires TotalsKeys(s, totals, ids) && TotalsValues(s, totals)
    ensures TotalsKeys(s', totals', ids') && TotalsValues(s', totals')
    ensures ids' == if t.categoryId in totals then ids else ids + [t.categoryId]
  {
    var sofar := 0.0;
    ids' := ids;
    if t.categoryId in totals {
      sofar := totals[t.categoryId];
    } else {
      ids' := ids + [t.categoryId];
    }
    totals' := totals[t.categoryId := sofar + t.amount];
    TotalsStep(s, t, s', totals, ids, sofar, totals', ids');
  }

  /** The dataMap loop over the month's expenses. */
  method CollectTotals(expenses: seq<Transaction>) returns (totals: map<string, real>, ids: seq<string>)
    ensures TotalsKeys(expenses, totals, ids)
    ensures TotalsValues(expenses, totals)
  {
    totals, ids := map[], [];
    for i := 0 to |expenses|
      invariant TotalsKeys(expenses[..i], totals, ids)
      invariant TotalsValues(expenses[..i], totals)
    {
      PrefixSnoc(expenses, i);
      totals, ids := RecordExpense(expenses[..i], expenses[i], expenses[..i + 1], totals, ids);
    }
    PrefixAll(expenses);
  }

  /** The ranking of renderStats: dataMap over the month's expenses, joined with the categories, largest first. */
  method RankExpenses(filtered: seq<Transaction>, categories: seq<Category>) returns (data: seq<ChartEntry>)
    ensures data == ExpenseRanking(filtered, categories)
    ensures forall i, j :: 0 <= i < j < |data| ==> data[i].value >= data[j].value
  {
    var expenses := Expenses(filtered);
    var totals, ids := CollectTotals(expenses);
    var entries := seq(|ids|, k requires 0 <= k < |ids| => EntryFor(categories, ids[k], totals[ids[k]]));
    assert entries == EntriesFor(categories, expenses, ids);
    data := SortBy(entries, LargerOrSame);
    assert TotalPreorder(LargerOrSame);
    SortBySorted(entries, LargerOrSame);
  }

  lemma {:induction false} EntriesSumIsRegroupedSum(categories: seq<Category>, expenses: seq<Transaction>, ids: seq<string>)
    ensures SumBy(EntriesFor(categories, expenses, ids), EntryValue)
         == SumBy(GroupedByKeys(expenses, CategoryOf, ids), AmountOf)
  {
    if ids != [] {
      var front := ids[..|ids| - 1];
      var entries := EntriesFor(categories, expenses, ids);
      assert entries[..|entries| - 1] == EntriesFor(categories, expenses, front);
      EntriesSumIsRegroupedSum(categories, expenses, front);
      SumByConcat(GroupedByKeys(expenses, CategoryOf, front), WhereKey(expenses, CategoryOf, ids[|ids| - 1]), AmountOf);
    }
  }

  /** The ranking's values add up to the month's expense total. */
  lemma RankingSumsToExpense(filtered: seq<Transaction>, categories: seq<Category>)
    ensures SumBy(ExpenseRanking(filtered, categories), EntryValue) == SumBy(filtered, ExpenseAmount)
  {
    var expenses := Expenses(filtered);
    var ids := KeysInOrder(expenses, CategoryOf);
    var entries := EntriesFor(categories, expenses, ids);
    SumByPermutation(ExpenseRanking(filtered, categories), entries, EntryValue);
    EntriesSumIsRegroupedSum(categories, expenses, ids);
    PartitionByKeys(expenses, CategoryOf, ids);
    SumByPermutation(GroupedByKeys(expenses, CategoryOf, ids), expenses, AmountOf);
    ExpenseIsExpenseTransactions(filtered);
  }

  /** One entry per distinct category among the month's expenses. */
  lemma RankingSize(filtered: seq<Transaction>, categories: seq<Category>)
    ensures |ExpenseRanking(filtered, categories)| == |KeysInOrder(Expenses(filtered), CategoryOf)|
  {
    var expenses := Expenses(filtered);
    var entries := EntriesFor(categories, expenses, KeysInOrder(expenses, CategoryOf));
    assert |multiset(ExpenseRanking(filtered, categories))| == |multiset(entries)|;
  }

  lemma EntriesForMembership(categories: seq<Category>, expenses: seq<Transaction>, ids: seq<string>, e: ChartEntry)
    ensures e in EntriesFor(categories, expenses, ids) <==>
              exists id :: id in ids && e == EntryFor(categories, id, CategoryTotal(expenses, id))
  {
    var entries := EntriesFor(categories, expenses, ids);
    if e in entries {
      var k :| 0 <= k < |entries| && entries[k] == e;
      assert ids[k] in ids;
    }
    if exists id :: id in ids && e == EntryFor(categories, id, CategoryTotal(expenses, id)) {
      var id :| id in ids && e == EntryFor(categories, id, CategoryTotal(expenses, id));
      var k :| 0 <= k < |ids| && ids[k] == id;
      assert entries[k] == e;
    }
  }

  /** Each entry is the join of one expense category of the month with its total, and each such join is listed. */
  lemma RankingEntries(filtered: seq<Transaction>, categories: seq<Category>, e: ChartEntry)
    ensures e in ExpenseRanking(filtered, categories) <==>
              exists id :: id in KeysInOrder(Expenses(filtered), CategoryOf) &&
                           e == EntryFor(categories, id, CategoryTotal(Expenses(filtered), id))
  {
    var expenses := Expenses(filtered);
    var entries := EntriesFor(categories, expenses, KeysInOrder(expenses, CategoryOf));
    assert e in ExpenseRanking(filtered, categories) <==> e in multiset(entries);
    EntriesForMembership(categories, expenses, KeysInOrder(expenses, CategoryOf), e);
  }

  /** The ranking is empty exactly when the month has no expense. */
  lemma RankingEmptyIffNoExpense(filtered: seq<Transaction>, categories: seq<Category>)
    ensures ExpenseRanking(filtered, categories) == [] <==> forall t :: t in filtered ==> t.txType != Expense
  {
    var expenses := Expenses(filtered);
    RankingSize(filtered, categories);
    KeysInOrderEmpty(expenses, CategoryOf);
    WhereKeyMembers(filtered, TypeOf, Expense);
    if expenses != [] {
      assert expenses[0] in expenses;
    }
  }

  /** A category id missing from the category list is shown as "Unknown" in gray. */
  lemma UnknownCategoryFallback(categories: seq<Category>, id: string, value: real)
    requires forall c :: c in categories ==> c.id != id
    ensures EntryFor(categories, id, value) == ChartEntry("Unknown", value, "gray-400")
  {
  }

  /** A known category lends its name and its color without the "bg-" prefix. */
  lemma KnownCategoryEntry(categories: seq<Category>, i: nat, value: real, shade: string)
    requires i < |categories|
    requires forall j :: 0 <= j < i ==> categories[j].id != categories[i].id
    requires categories[i].name != "" && shade != "" && categories[i].color == "bg-" + shade
    ensures EntryFor(categories, categories[i].id, value) == ChartEntry(categories[i].name, value, shade)
  {
    var c := categories[i];
    assert c.color[..3] == "bg-";
  }
}
