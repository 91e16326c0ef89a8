/** The back end's tables, one datatype per row kind. Ids are the primary keys
    the database assigns; money is a whole number; instants are seconds. `None`
    is SQL `NULL`. */
module Models {
  import opened Wrappers

  datatype TransactionType = Income | Expense | Transfer

  datatype WalletType = Cash | Bank | CreditCard | Upi | Loan

  /** The enum's stored value. */
  function TypeName(t: TransactionType): (name: string)
    ensures t == Income <==> name == "income"
    ensures t == Expense <==> name == "expense"
    ensures t == Transfer <==> name == "transfer"
  {
    match t
    case Income => "income"
    case Expense => "expense"
    case Transfer => "transfer"
  }

  /** Column defaults the database fills in when an insert leaves the column
      out; the ORM leaves out every column whose value is `None`. */
  const DefaultCurrency := "INR"
  const DefaultTimezone := "UTC"
  const DefaultCharges := 0

  datatype User = User(id: nat, email: string, passwordHash: string, name: string,
                       currency: Option<string>, timezone: Option<string>, avatarUrl: Option<string>)

  datatype Wallet = Wallet(id: nat, userId: nat, name: string, walletType: WalletType, balance: int,
                           last4: Option<string>, totalLimit: Option<int>, billDate: Option<int>,
                           dueDate: Option<int>, additionalCharges: Option<int>)

  /** A category; `userId == None` marks a system category every user sees. */
  datatype Category = Category(id: nat, userId: Option<nat>, name: string, catType: TransactionType,
                               icon: Option<string>, color: Option<string>)

  datatype Transaction = Transaction(id: nat, userId: nat, categoryId: nat, txType: TransactionType,
                                     amount: int, note: Option<string>, date: Option<int>,
                                     receiptUrl: Option<string>, isDeleted: bool)

  datatype RecurringTransaction = RecurringTransaction(id: nat, userId: nat, frequency: string,
                                                       nextRunDate: Option<int>, templateId: Option<nat>)
}
