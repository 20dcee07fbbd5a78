/** The mapping of one bank transaction to a budget (ledger) transaction:
    a transfer between two of the user's own accounts is booked against the
    ledger's transfer payee, anything else against a payee named after the
    transaction's description. */
module Transactions {
  import opened Wrappers
  import opened Calendar

  /** An entry of the `accounts` table of the configuration, keyed by the bank
      account number. */
  datatype Account = Account(name: string, bankKey: string, actualId: string)

  /** A ledger payee; `transferAcct` is set on the payee that stands for
      "transfer to ledger account X". */
  datatype Payee = Payee(id: string, transferAcct: Option<string>)

  /** A transaction as the bank reports it; `amount` is a decimal in whole
      currency units, `date` the calendar date it is booked on. */
  datatype BankTransaction = BankTransaction(
    date: Date,
    amount: real,
    remoteAccountNumber: string,
    description: string,
    cleanedDescription: string,
    bookingStatus: string)

  /** The record handed to the ledger's import: `amount` in minor units (øre);
      exactly one of `payee` and `payeeName` is set. */
  datatype LedgerTransaction = LedgerTransaction(
    account: string,
    date: Date,
    amount: int,
    payee: Option<string>,
    payeeName: Option<string>,
    importedPayee: Option<string>)

  /** The TypeError thrown when a transfer's payee is missing: `find` returns
      `undefined` and its `.id` is read. */
  datatype MapError = TransferPayeeNotFound(actualId: string)

  /** `Math.round(amount * 100)`: the integer nearest to the amount in minor
      units, a tie going towards positive infinity. */
  function MinorUnits(amount: real): (r: int)
    ensures amount * 100.0 - 0.5 < r as real <= amount * 100.0 + 0.5
  {
    (amount * 100.0 + 0.5).Floor
  }

  lemma MinorUnitsTies()
    ensures MinorUnits(-12.5) == -1250
    ensures MinorUnits(0.125) == 13
    ensures MinorUnits(-0.125) == -12
  {
  }

  /** Payee `i` is the first in the list whose transfer account is `actualId`. */
  predicate IsFirstTransferPayee(payees: seq<Payee>, actualId: string, i: int) {
    0 <= i < |payees| && payees[i].transferAcct == Some(actualId) &&
    forall j :: 0 <= j < i ==> payees[j].transferAcct != Some(actualId)
  }

  /** `payees.find(p => p.transfer_acct === actualId)`, as an index. */
  function FindTransferPayee(payees: seq<Payee>, actualId: string): (r: Option<nat>)
    ensures r.Some? ==> IsFirstTransferPayee(payees, actualId, r.value)
    ensures r.None? <==> forall j :: 0 <= j < |payees| ==> payees[j].transferAcct != Some(actualId)
  {
    if payees == [] then None
    else if payees[0].transferAcct == Some(actualId) then Some(0)
    else
      match FindTransferPayee(payees[1..], actualId)
      case None => None
      case Some(i) => Some(i + 1)
  }

  /** `makeTransaction(payees, account)(bankTx)`: the ledger entry for one
      bank transaction of `account`; `accounts` is the configuration's table. */
  function MakeTransaction(accounts: map<string, Account>, payees: seq<Payee>, account: Account,
                           tx: BankTransaction): (r: Result<LedgerTransaction, MapError>)
    // the entry belongs to the account being synced, on the bank's date, in minor units
    ensures r.Success? ==> r.value.account == account.actualId && r.value.date == tx.date
                           && r.value.amount == MinorUnits(tx.amount)
    // exactly one of the two payee forms
    ensures r.Success? ==> (r.value.payee.Some? <==> r.value.payeeName.None?)
                           && (r.value.payeeName.Some? <==> r.value.importedPayee.Some?)
    // a transfer: the first payee for the counterparty's ledger account
    ensures tx.remoteAccountNumber in accounts && r.Success? ==>
              r.value.payeeName.None? &&
              exists i :: IsFirstTransferPayee(payees, accounts[tx.remoteAccountNumber].actualId, i)
                          && r.value.payee == Some(payees[i].id)
    // a transfer whose payee is missing fails, and only such a transfer does
    ensures r.Failure? <==>
              (tx.remoteAccountNumber in accounts &&
               forall j :: 0 <= j < |payees| ==> payees[j].transferAcct != Some(accounts[tx.remoteAccountNumber].actualId))
    ensures r.Failure? ==> r.error == TransferPayeeNotFound(accounts[tx.remoteAccountNumber].actualId)
    // an external payment: named by the cleaned description, raw description kept
    ensures tx.remoteAccountNumber !in accounts ==>
              r.Success? && r.value.payee.None? &&
              r.value.payeeName == Some(tx.cleanedDescription) &&
              r.value.importedPayee == Some(tx.description)
  {
    var account := account.actualId;
    var amount := MinorUnits(tx.amount);
    if tx.remoteAccountNumber in accounts then
      var remote := accounts[tx.remoteAccountNumber];
      match FindTransferPayee(payees, remote.actualId)
      case None => Failure(TransferPayeeNotFound(remote.actualId))
      case Some(i) => Success(LedgerTransaction(account, tx.date, amount, Some(payees[i].id), None, None))
    else
      Success(LedgerTransaction(account, tx.date, amount, None, Some(tx.cleanedDescription), Some(tx.description)))
  }

  /** A transfer to the user's own account "999" (ledger account "A2") is
      booked against the transfer payee "P1"; an unmapped counterparty gives a
      payee named by the description. */
  lemma ClassificationExamples(tx: BankTransaction, own: Account)
    requires tx.amount == -12.5
    ensures var accounts := map["999" := Account("Savings", "key", "A2")];
            var payees := [Payee("P0", None), Payee("P1", Some("A2"))];
            var transfer := tx.(remoteAccountNumber := "999");
            var external := tx.(remoteAccountNumber := "111", cleanedDescription := "Coffee Shop",
                                description := "COFFEE SHOP OSLO 4521");
            MakeTransaction(accounts, payees, own, transfer)
              == Success(LedgerTransaction(own.actualId, tx.date, -1250, Some("P1"), None, None)) &&
            MakeTransaction(accounts, payees, own, external)
              == Success(LedgerTransaction(own.actualId, tx.date, -1250, None, Some("Coffee Shop"),
                                           Some("COFFEE SHOP OSLO 4521")))
  {
  }
}
