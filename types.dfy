/** The entities of the expense tracker (types.ts), as values. */
module Types {

  /** TransactionType: 'expense' | 'income'. */
  datatype TxType = Expense | Income

  /** A calendar date "YYYY-MM-DD" as a (year, month, day) triple; months count from 1. */
  datatype Date = Date(year: int, month: int, day: int)

  /** Amounts are exact decimals (`real`); `timestamp` is the creation instant in milliseconds. */
  datatype Transaction = Transaction(
    id: string,
    amount: real,
    txType: TxType,
    categoryId: string,
    date: Date,
    note: string,
    ledgerId: string,
    timestamp: int)

  datatype Category = Category(id: string, name: string, icon: string, txType: TxType, color: string)

  /** The per-day view rebuilt on every aggregation pass. */
  datatype DailyGroup = DailyGroup(date: Date, totalIncome: real, totalExpense: real, transactions: seq<Transaction>)

  /** ViewState: 'home' | 'stats' | 'ledgers'. */
  datatype ViewState = Home | Stats | Ledgers

  /** What the entry form hands to the add handler: a transaction without id, timestamp and ledger. */
  datatype Draft = Draft(amount: real, txType: TxType, categoryId: string, date: Date, note: string)

  datatype Option<T> = None | Some(value: T)

  /** `a` is strictly later than `b` in calendar order. */
  predicate DateAfter(a: Date, b: Date) {
    a.year > b.year ||
    (a.year == b.year && (a.month > b.month || (a.month == b.month && a.day > b.day)))
  }

  // Field selectors, passed as keys and weights to the generic sequence functions.

  function IdOf(t: Transaction): string { t.id }
  function DateOf(t: Transaction): Date { t.date }
  function CategoryOf(t: Transaction): string { t.categoryId }
  function TypeOf(t: Transaction): TxType { t.txType }
  function LedgerOf(t: Transaction): string { t.ledgerId }
  function AmountOf(t: Transaction): real { t.amount }

  /** What a transaction adds to the income accumulator. */
  function IncomeAmount(t: Transaction): real { if t.txType == Income then t.amount else 0.0 }

  /** What a transaction adds to the expense accumulator: everything that is not income. */
  function ExpenseAmount(t: Transaction): real { if t.txType == Income then 0.0 else t.amount }

  /** What a transaction contributes to a balance: +amount for income, -amount otherwise. */
  function SignedAmount(t: Transaction): real { if t.txType == Income then t.amount else -t.amount }

  function CategoryIdOf(c: Category): string { c.id }
  function CategoryTypeOf(c: Category): TxType { c.txType }
}
