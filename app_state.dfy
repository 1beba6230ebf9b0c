/**
 * The state of the App component and its handlers: adding and deleting transactions,
 * moving the displayed month, switching ledger and view, opening and closing the entry form.
 * The derived views (monthly list, totals, day groups, ranking, lifetime balance) are read
 * from the current state through the Aggregation module.
 */
module AppState {
  import opened Types
  import opened Seqs
  import opened Numbers
  import opened Aggregation

  /** handleAddTransaction's record: the draft's fields, with the id, the timestamp and the active ledger. */
  function Stamp(d: Draft, id: string, timestamp: int, ledgerId: string): Transaction
  {
    Transaction(id, d.amount, d.txType, d.categoryId, d.date, d.note, ledgerId, timestamp)
  }

  // ---------------------------------------------------------------------------
  // Deleting by id

  /** `prev.filter(t => t.id !== id)`. */
  function Without(ts: seq<Transaction>, id: string): (r: seq<Transaction>)
    ensures forall t :: t in r <==> t in ts && t.id != id
    ensures |r| <= |ts|
  {
    if ts == [] then []
    else
      assert ts == ts[..|ts| - 1] + [ts[|ts| - 1]];
      var rest := Without(ts[..|ts| - 1], id);
      if ts[|ts| - 1].id != id then rest + [ts[|ts| - 1]] else rest
  }

  /** Deleting works piece by piece: the survivors keep their relative order. */
  lemma {:induction false} WithoutConcat(a: seq<Transaction>, b: seq<Transaction>, id: string)
    ensures Without(a + b, id) == Without(a, id) + Without(b, id)
  {
    if b == [] {
      assert a + b == a;
    } else {
      var b' := b[..|b| - 1];
      assert (a + b)[..|a + b| - 1] == a + b';
      assert (a + b)[|a + b| - 1] == b[|b| - 1];
      WithoutConcat(a, b', id);
    }
  }

  /** Nothing but the entries with that id goes away, and every one of them does. */
  lemma {:induction false} WithoutPartition(ts: seq<Transaction>, id: string)
    ensures multiset(ts) == multiset(Without(ts, id)) + multiset(WhereKey(ts, IdOf, id))
  {
    if ts != [] {
      var p, x := ts[..|ts| - 1], ts[|ts| - 1];
      LastSplit(ts);
      WithoutPartition(p, id);
      WhereKeySnoc(p, x, IdOf, id);
    }
  }

  /** Deleting an id no entry carries changes nothing. */
  lemma {:induction false} WithoutAbsent(ts: seq<Transaction>, id: string)
    requires forall i :: 0 <= i < |ts| ==> ts[i].id != id
    ensures Without(ts, id) == ts
  {
    if ts != [] {
      var p, x := ts[..|ts| - 1], ts[|ts| - 1];
      assert forall i :: 0 <= i < |p| ==> p[i] == ts[i];
      WithoutAbsent(p, id);
      LastSplit(ts);
    }
  }

  /** After a delete the ledger's lifetime balance loses exactly the deleted entries of that ledger. */
  lemma {:induction false} DeleteUpdatesLedgerBalance(ts: seq<Transaction>, id: string, ledgerId: string)
    ensures LedgerBalance(Without(ts, id), ledgerId)
         == LedgerBalance(ts, ledgerId) - SumBy(WhereKey(WhereKey(ts, LedgerOf, ledgerId), IdOf, id), SignedAmount)
  {
    if ts != [] {
      var p, x := ts[..|ts| - 1], ts[|ts| - 1];
      LastSplit(ts);
      DeleteUpdatesLedgerBalance(p, id, ledgerId);
      var inLedger := WhereKey(p, LedgerOf, ledgerId);
      WhereKeySnoc(p, x, LedgerOf, ledgerId);
      if x.ledgerId == ledgerId {
        WhereKeySnoc(inLedger, x, IdOf, id);
        SumBySnoc(inLedger, x, SignedAmount);
        if x.id == id {
          SumBySnoc(WhereKey(inLedger, IdOf, id), x, SignedAmount);
        } else {
          WhereKeySnoc(Without(p, id), x, LedgerOf, ledgerId);
          SumBySnoc(WhereKey(Without(p, id), LedgerOf, ledgerId), x, SignedAmount);
        }
      } else if x.id != id {
        WhereKeySnoc(Without(p, id), x, LedgerOf, ledgerId);
      }
    }
  }

  /** The displayed month after a delete: the same transactions, minus those with the id. */
  lemma DeleteFromMonth(ts: seq<Transaction>, id: string, ledgerId: string, year: int, month: int)
    ensures multiset(MonthlyTransactions(Without(ts, id), ledgerId, year, month))
         == multiset(Without(WhereKey(ts, MonthKey, (ledgerId, year, month)), id))
  {
    DeleteCommutesWithMonth(ts, id, (ledgerId, year, month));
  }

  lemma {:induction false} DeleteCommutesWithMonth(ts: seq<Transaction>, id: string, k: (string, int, int))
    ensures WhereKey(Without(ts, id), MonthKey, k) == Without(WhereKey(ts, MonthKey, k), id)
  {
    if ts != [] {
      var p, x := ts[..|ts| - 1], ts[|ts| - 1];
      LastSplit(ts);
      DeleteCommutesWithMonth(p, id, k);
      WhereKeySnoc(p, x, MonthKey, k);
      if x.id != id {
        WhereKeySnoc(Without(p, id), x, MonthKey, k);
      }
      if MonthKey(x) == k {
        var m := WhereKey(p, MonthKey, k);
        assert (m + [x])[..|m + [x]| - 1] == m;
      }
    }
  }

  // ---------------------------------------------------------------------------
  // Adding at the front

  /** The lifetime balance of the ledger gains the new transaction's signed amount, others are unchanged. */
  lemma AddUpdatesLedgerBalance(tx: Transaction, ts: seq<Transaction>, ledgerId: string)
    ensures LedgerBalance([tx] + ts, ledgerId)
         == LedgerBalance(ts, ledgerId) + (if tx.ledgerId == ledgerId then SignedAmount(tx) else 0.0)
  {
    WhereKeyConcat([tx], ts, LedgerOf, ledgerId);
    var head := WhereKey([tx], LedgerOf, ledgerId);
    assert [tx][..0] == [];
    SumByConcat(head, WhereKey(ts, LedgerOf, ledgerId), SignedAmount);
    if tx.ledgerId == ledgerId {
      assert head == [tx];
      assert head[..0] == [];
    }
  }

  /** The new transaction joins the displayed month exactly when it is of that ledger, year and month. */
  lemma AddToMonth(tx: Transaction, ts: seq<Transaction>, ledgerId: string, year: int, month: int)
    ensures multiset(MonthlyTransactions([tx] + ts, ledgerId, year, month))
         == multiset(MonthlyTransactions(ts, ledgerId, year, month))
            + (if tx.ledgerId == ledgerId && tx.date.year == year && tx.date.month == month then multiset{tx} else multiset{})
  {
    var k := (ledgerId, year, month);
    WhereKeyConcat([tx], ts, MonthKey, k);
    assert [tx][..0] == [];
  }

  // ---------------------------------------------------------------------------
  // Moving the displayed month

  /** `setMonth(getMonth() + delta)` on (year, month): the month index moves by delta, carrying into the year. */
  function ShiftMonth(year: int, month: int, delta: int): (r: (int, int))
    requires 1 <= month <= 12
    ensures 1 <= r.1 <= 12
    ensures r.0 * 12 + (r.1 - 1) == year * 12 + (month - 1) + delta
  {
    var index := year * 12 + (month - 1) + delta;
    (index / 12, index % 12 + 1)
  }

  /** A (year, month) pair is determined by its month index. */
  lemma MonthIndexInjective(y1: int, m1: int, y2: int, m2: int)
    requires 1 <= m1 <= 12 && 1 <= m2 <= 12
    requires y1 * 12 + (m1 - 1) == y2 * 12 + (m2 - 1)
    ensures y1 == y2 && m1 == m2
  {
  }

  /** Going back as many months as one went forward returns to the same month. */
  lemma ShiftMonthInverse(year: int, month: int, delta: int)
    requires 1 <= month <= 12
    ensures var r := ShiftMonth(year, month, delta); ShiftMonth(r.0, r.1, -delta) == (year, month)
  {
    var r := ShiftMonth(year, month, delta);
    var back := ShiftMonth(r.0, r.1, -delta);
    MonthIndexInjective(back.0, back.1, year, month);
  }

  /** Two moves are one move by the sum. */
  lemma ShiftMonthCompose(year: int, month: int, d1: int, d2: int)
    requires 1 <= month <= 12
    ensures var r := ShiftMonth(year, month, d1); ShiftMonth(r.0, r.1, d2) == ShiftMonth(year, month, d1 + d2)
  {
    var r := ShiftMonth(year, month, d1);
    var a, b := ShiftMonth(r.0, r.1, d2), ShiftMonth(year, month, d1 + d2);
    MonthIndexInjective(a.0, a.1, b.0, b.1);
  }

  // ---------------------------------------------------------------------------
  // The component

  class App {
    var view: ViewState
    var transactions: seq<Transaction>
    var categories: seq<Category>
    var activeLedgerId: string
    var isAddModalOpen: bool
    /** currentDate, reduced to the displayed year and month (1..12). */
    var year: int
    var month: int

    ghost predicate Valid()
      reads this
    {
      1 <= month <= 12
    }

    /** The initial state after the load effect: the stored lists and ledger, today's month, the home view. */
    constructor (stored: seq<Transaction>, storedCategories: seq<Category>, storedLedgerId: string, todayYear: int, todayMonth: int)
      requires 1 <= todayMonth <= 12
      ensures Valid()
      ensures view == Home && !isAddModalOpen
      ensures transactions == stored && categories == storedCategories && activeLedgerId == storedLedgerId
      ensures year == todayYear && month == todayMonth
    {
      view := Home;
      transactions := stored;
      categories := storedCategories;
      activeLedgerId := storedLedgerId;
      isAddModalOpen := false;
      year := todayYear;
      month := todayMonth;
    }

    /** filteredTransactions of the current state. */
    function Filtered(): seq<Transaction>
      reads this
    {
      MonthlyTransactions(transactions, activeLedgerId, year, month)
    }

    /** totalBalance of the current state. */
    function TotalBalance(): real
      reads this
    {
      LedgerBalance(transactions, activeLedgerId)
    }

    method Stats() returns (stats: MonthStats)
      ensures stats.income == SumBy(WhereKey(Filtered(), TypeOf, Income), AmountOf)
      ensures stats.expense == SumBy(Filtered(), ExpenseAmount)
      ensures stats.balance == stats.income - stats.expense
    {
      stats := ComputeStats(Filtered());
      IncomeIsIncomeTransactions(Filtered());
    }

    method GroupedTransactions() returns (groups: seq<DailyGroup>)
      ensures IsDayGrouping(Filtered(), groups)
      ensures multiset(Concat(groups)) == multiset(Filtered())
      ensures SumBy(groups, GroupIncome) == SumBy(Filtered(), IncomeAmount)
      ensures SumBy(groups, GroupExpense) == SumBy(Filtered(), ExpenseAmount)
      ensures forall k :: 0 <= k < |groups| ==> NewestFirst(groups[k].transactions)
    {
      groups := GroupByDay(Filtered());
      GroupsPartitionMonth(Filtered(), groups);
      GroupTotalsMatchStats(Filtered(), groups);
      GroupsKeepNewestFirst(Filtered(), groups);
    }

    method CategoryRanking() returns (data: seq<ChartEntry>)
      ensures data == ExpenseRanking(Filtered(), categories)
      ensures forall e :: e in data <==>
                exists id :: id in KeysInOrder(Expenses(Filtered()), CategoryOf) &&
                             e == EntryFor(categories, id, CategoryTotal(Expenses(Filtered()), id))
      ensures forall i, j :: 0 <= i < j < |data| ==> data[i].value >= data[j].value
      ensures SumBy(data, EntryValue) == SumBy(Filtered(), ExpenseAmount)
      ensures |data| == |KeysInOrder(Expenses(Filtered()), CategoryOf)|
    {
      data := RankExpenses(Filtered(), categories);
      RankingSumsToExpense(Filtered(), categories);
      RankingSize(Filtered(), categories);
      forall e {
        RankingEntries(Filtered(), categories, e);
      }
    }

    /** handleAddTransaction: the stamped draft goes in front of the list and the form closes. */
    method AddTransaction(draft: Draft, idClock: nat, stampClock: int)
      modifies this`transactions, this`isAddModalOpen
      ensures transactions == [Stamp(draft, NatToString(idClock), stampClock, activeLedgerId)] + old(transactions)
      ensures transactions[0].ledgerId == activeLedgerId && transactions[1..] == old(transactions)
      ensures !isAddModalOpen
    {
      var tx := Stamp(draft, NatToString(idClock), stampClock, activeLedgerId);
      transactions := [tx] + transactions;
      isAddModalOpen := false;
    }

    /** handleDeleteTransaction: when the dialog is confirmed, every entry with that id is removed. */
    method DeleteTransaction(id: string, confirmed: bool)
      modifies this`transactions
      ensures confirmed ==> transactions == Without(old(transactions), id)
      ensures !confirmed ==> transactions == old(transactions)
    {
      if confirmed {
        transactions := Without(transactions, id);
      }
    }

    /** changeMonth: moves the displayed month by delta. */
    method ChangeMonth(delta: int)
      requires Valid()
      modifies this`year, this`month
      ensures Valid()
      ensures (year, month) == ShiftMonth(old(year), old(month), delta)
      ensures TotalBalance() == old(TotalBalance())
    {
      var r := ShiftMonth(year, month, delta);
      year, month := r.0, r.1;
    }

    /** Clicking a ledger card: it becomes the active ledger and the home view is shown. */
    method SelectLedger(id: string)
      modifies this`activeLedgerId, this`view
      ensures activeLedgerId == id && view == Home
    {
      activeLedgerId := id;
      view := Home;
    }

    method SetView(v: ViewState)
      modifies this`view
      ensures view == v
    {
      view := v;
    }

    method OpenAddModal()
      modifies this`isAddModalOpen
      ensures isAddModalOpen
    {
      isAddModalOpen := true;
    }

    method CloseAddModal()
      modifies this`isAddModalOpen
      ensures !isAddModalOpen
    {
      isAddModalOpen := false;
    }
  }
}
