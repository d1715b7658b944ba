/**
 * The record shapes of the application (types.ts). Transaction and AIInsight
 * call their discriminating field `type`; `type` is a Dafny keyword, so the
 * field is named `kind` here.
 */
module Types {
  import opened Wrappers

  /** `Transaction.type`: exactly one of the two literals. */
  datatype TxType = Income | Expense

  /** The string a `Transaction.type` holds. */
  function TxTypeLiteral(k: TxType): string
  {
    match k
    case Income => "income"
    case Expense => "expense"
  }

  /** Reading a stored `type` back: only the two literals are recognised. */
  function ParseTxType(s: string): (r: Option<TxType>)
    ensures r.Some? ==> TxTypeLiteral(r.value) == s
  {
    if s == "income" then Some(Income) else if s == "expense" then Some(Expense) else None
  }

  /** Each type reads back as itself. */
  lemma TxTypeLiteralParses(k: TxType)
    ensures ParseTxType(TxTypeLiteral(k)) == Some(k)
  {
  }

  /** `Transaction.status`: exactly one of the two literals. */
  datatype TxStatus = Completed | Pending

  /** The string a `Transaction.status` holds. */
  function TxStatusLiteral(s: TxStatus): string
  {
    match s
    case Completed => "completed"
    case Pending => "pending"
  }

  /** Reading a stored `status` back: only the two literals are recognised. */
  function ParseTxStatus(s: string): (r: Option<TxStatus>)
    ensures r.Some? ==> TxStatusLiteral(r.value) == s
  {
    if s == "completed" then Some(Completed) else if s == "pending" then Some(Pending) else None
  }

  /** Each status reads back as itself. */
  lemma TxStatusLiteralParses(s: TxStatus)
    ensures ParseTxStatus(TxStatusLiteral(s)) == Some(s)
  {
  }

  /** A ledger entry; `amount` is signed and denominated in the current base currency. */
  datatype Transaction = Transaction(
    id: string,
    date: string,
    merchant: string,
    category: string,
    amount: real,
    kind: TxType,
    status: TxStatus)

  /** A recurring monthly charge. */
  datatype Subscription = Subscription(
    id: string,
    name: string,
    amount: real,
    billingDay: int,
    category: string,
    active: bool)

  /** The documented (not enforced) range of `Subscription.billingDay`. */
  predicate ValidBillingDay(day: int)
  {
    1 <= day <= 31
  }

  /** One point of the statistics chart. */
  datatype MonthlyData = MonthlyData(name: string, income: real, expenses: real)

  /** `AIInsight.type`: exactly one of the three severities. */
  datatype InsightType = Warning | Success | Info

  /** The string an `AIInsight.type` holds. */
  function InsightTypeLiteral(k: InsightType): string
  {
    match k
    case Warning => "warning"
    case Success => "success"
    case Info => "info"
  }

  /** Reading an insight's `type` back: only the three literals are recognised. */
  function ParseInsightType(s: string): (r: Option<InsightType>)
    ensures r.Some? ==> InsightTypeLiteral(r.value) == s
  {
    if s == "warning" then Some(Warning)
    else if s == "success" then Some(Success)
    else if s == "info" then Some(Info)
    else None
  }

  /** Each severity reads back as itself. */
  lemma InsightTypeLiteralParses(k: InsightType)
    ensures ParseInsightType(InsightTypeLiteral(k)) == Some(k)
  {
  }

  /** An advisory item produced by the AI collaborator. */
  datatype AIInsight = AIInsight(title: string, description: string, kind: InsightType)

  /** The chart granularity enumeration. */
  datatype ChartView = Weekly | Monthly | Yearly

  /** The string value of each `ChartView` member. */
  function ChartViewValue(v: ChartView): string
  {
    match v
    case Weekly => "Weekly"
    case Monthly => "Monthly"
    case Yearly => "Yearly"
  }

  /** Looking a `ChartView` up by its value: only the three values are recognised. */
  function ParseChartView(s: string): (r: Option<ChartView>)
    ensures r.Some? ==> ChartViewValue(r.value) == s
  {
    if s == "Weekly" then Some(Weekly)
    else if s == "Monthly" then Some(Monthly)
    else if s == "Yearly" then Some(Yearly)
    else None
  }

  /** Each view reads back as itself. */
  lemma ChartViewValueParses(v: ChartView)
    ensures ParseChartView(ChartViewValue(v)) == Some(v)
  {
  }
}
