/** The records the local-mode store keeps in its lists (03-frontend/src/store/useStore.js). */
module Records {

  import opened Wrappers

  /** The payment day of a fixed expense: a day number, or the form's variable-day choice '유동'. */
  datatype PaymentDay = Day(n: int) | Variable

  /** What the expense form submits: every field of a fixed expense except its id. */
  datatype ExpenseDraft = ExpenseDraft(
    name: string,
    amount: int,              // won
    paymentDay: PaymentDay,
    categoryId: Option<int>,
    paymentMethodId: Option<int>,  // None: the form's empty choice
    memo: string)

  /** A fixed expense: the definition of a monthly obligation, without any paid state. */
  datatype Expense = Expense(
    id: int,
    name: string,
    amount: int,
    paymentDay: PaymentDay,
    categoryId: Option<int>,
    paymentMethodId: Option<int>,
    memo: string)

  /** One month's payment record of one expense; `amount` is the snapshot taken when the row was created. */
  datatype HistoryRow = HistoryRow(
    historyId: int,
    expenseId: int,
    yearMonth: string,
    isPaid: bool,             // the source stores 1 / 0
    paidDate: Option<string>, // an ISO timestamp, or null
    amount: int)

  datatype CategoryType = IncomeType | ExpenseType

  datatype Category = Category(id: int, name: string, kind: CategoryType, sortOrder: int)

  datatype PaymentMethod = PaymentMethod(id: int, name: string, kind: string, color: string)

  /** The record `{ ...draft, expense_id: id }`. */
  function FromDraft(d: ExpenseDraft, id: int): (e: Expense)
    ensures e.id == id && DraftOf(e) == d
  {
    Expense(id, d.name, d.amount, d.paymentDay, d.categoryId, d.paymentMethodId, d.memo)
  }

  /** The form fields of an expense. */
  function DraftOf(e: Expense): ExpenseDraft
  {
    ExpenseDraft(e.name, e.amount, e.paymentDay, e.categoryId, e.paymentMethodId, e.memo)
  }

  /** The categories a fresh store starts with. */
  function DefaultCategories(): seq<Category>
  {
    [ Category(1, "생활비", ExpenseType, 1),
      Category(2, "통신비", ExpenseType, 2),
      Category(3, "주거비", ExpenseType, 3) ]
  }

  /** The payment methods a fresh store starts with. */
  function DefaultPaymentMethods(): seq<PaymentMethod>
  {
    [ PaymentMethod(1, "신용카드", "CARD", "#6366f1"),
      PaymentMethod(2, "체크카드", "CARD", "#10b981"),
      PaymentMethod(3, "현금", "CASH", "#f59e0b") ]
  }
}
