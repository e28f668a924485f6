/**
 * The bank-account comparison template, instantiated with the EU and the UK
 * account records; both carry an int amount.
 */
module Banking {
  import opened CppInt

  datatype BankAccount =
    | EUBankAccount(iban: string, amount: Int32)
    | UKBankAccount(sortCode: string, accountNumber: string, amount: Int32)

  /**
   * getMaxAmount: the larger of the two amounts. It is one of them, at
   * least each of them, and on equal amounts it is the second account's.
   * The accounts are values, so neither changes. The template's two
   * parameters share one type, so both accounts are EU or both are UK.
   */
  function GetMaxAmount(account1: BankAccount, account2: BankAccount): (max: Int32)
    requires account1.EUBankAccount? == account2.EUBankAccount?
    ensures max >= account1.amount && max >= account2.amount
    ensures max == account1.amount || max == account2.amount
    ensures account1.amount <= account2.amount ==> max == account2.amount
  {
    if account1.amount > account2.amount then account1.amount else account2.amount
  }

  /** The two comparisons of the example program: 2000 for the EU pair, 5000 for the UK pair. */
  lemma ExampleAmounts()
    ensures GetMaxAmount(EUBankAccount("IBAN1", 1000), EUBankAccount("IBAN2", 2000)) == 2000
    ensures GetMaxAmount(UKBankAccount("SORT1", "ACC1", 5000), UKBankAccount("SORT2", "ACC2", 4000)) == 5000
  {
  }
}
