/** The `import` command: for each account, keep the bank transactions whose
    booking status is BOOKED, map them in order, and hand the batch to the
    ledger's import, one account after the other. */
module Sync {
  import opened Wrappers
  import opened Transactions

  const Booked: string := "BOOKED"

  /** `transactions.filter(({bookingStatus}) => bookingStatus === 'BOOKED')`. */
  function BookedOnly(txs: seq<BankTransaction>): (r: seq<BankTransaction>)
    ensures |r| <= |txs|
    ensures forall t :: t in r ==> t in txs && t.bookingStatus == Booked
    ensures forall t :: t in txs && t.bookingStatus == Booked ==> t in r
  {
    if txs == [] then []
    else (if txs[0].bookingStatus == Booked then [txs[0]] else []) + BookedOnly(txs[1..])
  }

  /** The filter keeps order: filtering a concatenation filters each part. */
  lemma {:induction false} BookedOnlyAppend(a: seq<BankTransaction>, b: seq<BankTransaction>)
    ensures BookedOnly(a + b) == BookedOnly(a) + BookedOnly(b)
  {
    if a == [] {
      assert a + b == b;
    } else {
      assert (a + b)[1..] == a[1..] + b;
      BookedOnlyAppend(a[1..], b);
    }
  }

  /** `.map(makeTransaction(payees, account))`: the first transaction that
      fails to map aborts the whole batch. */
  function MapBatch(accounts: map<string, Account>, payees: seq<Payee>, account: Account,
                    txs: seq<BankTransaction>): (r: Result<seq<LedgerTransaction>, MapError>)
    ensures r.Success? <==> forall i :: 0 <= i < |txs| ==> MakeTransaction(accounts, payees, account, txs[i]).Success?
    ensures r.Success? ==>
              |r.value| == |txs| &&
              forall i :: 0 <= i < |txs| ==> MakeTransaction(accounts, payees, account, txs[i]) == Success(r.value[i])
    ensures r.Failure? ==>
              exists i :: 0 <= i < |txs| && MakeTransaction(accounts, payees, account, txs[i]) == Failure(r.error) &&
                          forall j :: 0 <= j < i ==> MakeTransaction(accounts, payees, account, txs[j]).Success?
  {
    if txs == [] then Success([])
    else
      match MakeTransaction(accounts, payees, account, txs[0])
      case Failure(e) => Failure(e)
      case Success(entry) =>
        match MapBatch(accounts, payees, account, txs[1..])
        case Failure(e) =>
          assert forall j :: 1 <= j < |txs| ==> txs[1..][j - 1] == txs[j];
          Failure(e)
        case Success(rest) => Success([entry] + rest)
  }

  /** The batch imported for one account. */
  function AccountBatch(accounts: map<string, Account>, payees: seq<Payee>, account: Account,
                        txs: seq<BankTransaction>): (r: Result<seq<LedgerTransaction>, MapError>)
  {
    MapBatch(accounts, payees, account, BookedOnly(txs))
  }

  /** A batch holds exactly the BOOKED transactions, mapped one to one in
      order, all booked to the account being synced; nothing else (PENDING,
      say) ever reaches the ledger. */
  lemma AccountBatchIsBookedMapped(accounts: map<string, Account>, payees: seq<Payee>, account: Account,
                                   txs: seq<BankTransaction>)
    ensures var r := AccountBatch(accounts, payees, account, txs);
            r.Success? ==>
              |r.value| == |BookedOnly(txs)| &&
              (forall k :: 0 <= k < |r.value| ==>
                 r.value[k].account == account.actualId &&
                 BookedOnly(txs)[k] in txs && BookedOnly(txs)[k].bookingStatus == Booked &&
                 MakeTransaction(accounts, payees, account, BookedOnly(txs)[k]) == Success(r.value[k]))
    ensures (forall t :: t in txs ==> t.bookingStatus != Booked) ==>
              AccountBatch(accounts, payees, account, txs) == Success([])
  {
    var booked := BookedOnly(txs);
    assert forall k :: 0 <= k < |booked| ==> booked[k] in booked;
  }

  /** One BOOKED and one PENDING transaction give a batch of one entry. */
  lemma BookedAndPendingExample(accounts: map<string, Account>, payees: seq<Payee>, account: Account,
                                booked: BankTransaction, pending: BankTransaction)
    requires booked.bookingStatus == "BOOKED" && pending.bookingStatus == "PENDING"
    requires booked.remoteAccountNumber !in accounts
    ensures var r := AccountBatch(accounts, payees, account, [booked, pending]);
            r.Success? && |r.value| == 1
  {
    assert [booked, pending][1..] == [pending];
    assert BookedOnly([pending]) == [] by {
      assert [pending][1..] == [];
    }
  }

  /** One call of the ledger's `importTransactions(accountId, batch)`. */
  datatype ImportCall = ImportCall(accountId: string, batch: seq<LedgerTransaction>)

  /** What stops a run: the bank fetch threw, a transaction failed to map, or
      the ledger's import threw. */
  datatype ImportError =
    | FetchFailed(accountNumber: string)
    | MappingFailed(error: MapError)
    | ImportRejected(accountId: string)

  /** The import calls a run issues, in order, and the error that stopped it. */
  datatype RunResult = RunResult(calls: seq<ImportCall>, error: Option<ImportError>)

  /** The account stored under `key` was fetched, and `call` imports its batch. */
  predicate AccountImported(accounts: map<string, Account>, payees: seq<Payee>,
                            fetch: Account -> Option<seq<BankTransaction>>, key: string, call: ImportCall)
    requires key in accounts
  {
    var account := accounts[key];
    call.accountId == account.actualId && fetch(account).Some? &&
    AccountBatch(accounts, payees, account, fetch(account).value) == Success(call.batch)
  }

  /** The import loop over the accounts stored under `keys`, in that order.
      `fetch` gives each account's transactions for the window (None when the
      bank request throws) and `accepts` whether the ledger's import returns. */
  function ImportRun(accounts: map<string, Account>, payees: seq<Payee>, keys: seq<string>,
                     fetch: Account -> Option<seq<BankTransaction>>, accepts: ImportCall -> bool): (r: RunResult)
    requires forall k :: k in keys ==> k in accounts
  {
    if keys == [] then RunResult([], None)
    else
      var account := accounts[keys[0]];
      match fetch(account)
      case None => RunResult([], Some(FetchFailed(keys[0])))
      case Some(txs) =>
        match AccountBatch(accounts, payees, account, txs)
        case Failure(e) => RunResult([], Some(MappingFailed(e)))
        case Success(batch) =>
          var call := ImportCall(account.actualId, batch);
          if !accepts(call) then RunResult([call], Some(ImportRejected(account.actualId)))
          else
            var rest := ImportRun(accounts, payees, keys[1..], fetch, accepts);
            RunResult([call] + rest.calls, rest.error)
  }

  /** A run imports the accounts one after another in the order given, one
      call per account holding that account's batch, and never more calls
      than accounts. */
  lemma {:induction false} ImportRunInOrder(accounts: map<string, Account>, payees: seq<Payee>, keys: seq<string>,
                                            fetch: Account -> Option<seq<BankTransaction>>, accepts: ImportCall -> bool)
    requires forall k :: k in keys ==> k in accounts
    ensures var r := ImportRun(accounts, payees, keys, fetch, accepts);
            && |r.calls| <= |keys|
            && (forall k :: 0 <= k < |r.calls| ==> AccountImported(accounts, payees, fetch, keys[k], r.calls[k]))
  {
    var r := ImportRun(accounts, payees, keys, fetch, accepts);
    if keys != [] && |r.calls| > 0 {
      var account := accounts[keys[0]];
      var batch := AccountBatch(accounts, payees, account, fetch(account).value);
      var call := ImportCall(account.actualId, batch.value);
      assert r.calls[0] == call;
      if accepts(call) {
        ImportRunInOrder(accounts, payees, keys[1..], fetch, accepts);
        var rest := ImportRun(accounts, payees, keys[1..], fetch, accepts);
        assert r.calls == [call] + rest.calls;
        forall k | 1 <= k < |r.calls|
          ensures AccountImported(accounts, payees, fetch, keys[k], r.calls[k])
        {
          assert keys[1..][k - 1] == keys[k] && rest.calls[k - 1] == r.calls[k];
        }
      }
    }
  }

  /** A run stops at the first failure: every call but the last was accepted,
      an import the ledger rejects is the last call, and the run completes
      exactly when every account was imported and accepted. */
  lemma {:induction false} ImportRunStopsAtFirstFailure(accounts: map<string, Account>, payees: seq<Payee>,
                                                        keys: seq<string>, fetch: Account -> Option<seq<BankTransaction>>,
                                                        accepts: ImportCall -> bool)
    requires forall k :: k in keys ==> k in accounts
    ensures var r := ImportRun(accounts, payees, keys, fetch, accepts);
            && (r.error.None? <==> |r.calls| == |keys| && forall k :: 0 <= k < |r.calls| ==> accepts(r.calls[k]))
            && (forall k :: 0 <= k < |r.calls| - 1 ==> accepts(r.calls[k]))
            && (r.error.Some? && r.error.value.ImportRejected? ==> |r.calls| > 0 && !accepts(r.calls[|r.calls| - 1]))
  {
    var r := ImportRun(accounts, payees, keys, fetch, accepts);
    ImportRunInOrder(accounts, payees, keys, fetch, accepts);
    if keys != [] && |r.calls| > 0 {
      var account := accounts[keys[0]];
      var batch := AccountBatch(accounts, payees, account, fetch(account).value);
      var call := ImportCall(account.actualId, batch.value);
      assert r.calls[0] == call;
      if accepts(call) {
        ImportRunStopsAtFirstFailure(accounts, payees, keys[1..], fetch, accepts);
        var rest := ImportRun(accounts, payees, keys[1..], fetch, accepts);
        assert r == RunResult([call] + rest.calls, rest.error);
        assert forall k :: 0 <= k < |rest.calls| ==> r.calls[k + 1] == rest.calls[k];
      }
    }
  }

  /** The account stored under `key` is fetched, its batch maps, and the
      ledger accepts its import. */
  predicate AccountSucceeds(accounts: map<string, Account>, payees: seq<Payee>,
                            fetch: Account -> Option<seq<BankTransaction>>, accepts: ImportCall -> bool, key: string)
    requires key in accounts
  {
    var account := accounts[key];
    fetch(account).Some? &&
    var batch := AccountBatch(accounts, payees, account, fetch(account).value);
    batch.Success? && accepts(ImportCall(account.actualId, batch.value))
  }

  /** A run in which every account fetches, maps and is accepted completes,
      with one call per account. */
  lemma {:induction false} ImportRunCompletes(accounts: map<string, Account>, payees: seq<Payee>, keys: seq<string>,
                                              fetch: Account -> Option<seq<BankTransaction>>, accepts: ImportCall -> bool)
    requires forall k :: k in keys ==> k in accounts
    requires forall i :: 0 <= i < |keys| ==> AccountSucceeds(accounts, payees, fetch, accepts, keys[i])
    ensures ImportRun(accounts, payees, keys, fetch, accepts).error.None?
    ensures |ImportRun(accounts, payees, keys, fetch, accepts).calls| == |keys|
  {
    if keys != [] {
      assert AccountSucceeds(accounts, payees, fetch, accepts, keys[0]);
      assert forall i :: 0 <= i < |keys| - 1 ==> keys[1..][i] == keys[i + 1];
      ImportRunCompletes(accounts, payees, keys[1..], fetch, accepts);
    }
  }

  /** The error that stops a run names its cause: a fetch or a mapping failure
      belongs to the account right after the last imported one, and a rejected
      import to the account of the last call. */
  lemma {:induction false} ImportRunFailureCause(accounts: map<string, Account>, payees: seq<Payee>, keys: seq<string>,
                                                 fetch: Account -> Option<seq<BankTransaction>>, accepts: ImportCall -> bool)
    requires forall k :: k in keys ==> k in accounts
    ensures var r := ImportRun(accounts, payees, keys, fetch, accepts);
            && (r.error.Some? && r.error.value.FetchFailed? ==>
                  |r.calls| < |keys| && r.error.value.accountNumber == keys[|r.calls|] &&
                  fetch(accounts[keys[|r.calls|]]).None?)
            && (r.error.Some? && r.error.value.MappingFailed? ==>
                  |r.calls| < |keys| && fetch(accounts[keys[|r.calls|]]).Some? &&
                  AccountBatch(accounts, payees, accounts[keys[|r.calls|]], fetch(accounts[keys[|r.calls|]]).value)
                    == Failure(r.error.value.error))
            && (r.error.Some? && r.error.value.ImportRejected? ==>
                  |r.calls| > 0 && r.error.value.accountId == r.calls[|r.calls| - 1].accountId &&
                  !accepts(r.calls[|r.calls| - 1]))
  {
    var r := ImportRun(accounts, payees, keys, fetch, accepts);
    if keys != [] {
      var account := accounts[keys[0]];
      if fetch(account).Some? && AccountBatch(accounts, payees, account, fetch(account).value).Success? {
        var call := ImportCall(account.actualId, AccountBatch(accounts, payees, account, fetch(account).value).value);
        if accepts(call) {
          ImportRunFailureCause(accounts, payees, keys[1..], fetch, accepts);
          var rest := ImportRun(accounts, payees, keys[1..], fetch, accepts);
          assert r == RunResult([call] + rest.calls, rest.error);
          assert |rest.calls| < |keys| - 1 ==> keys[1..][|rest.calls|] == keys[|r.calls|];
          assert |rest.calls| > 0 ==> r.calls[|r.calls| - 1] == rest.calls[|rest.calls| - 1];
        }
      }
    }
  }

  /** The `for ... of Object.entries(config.accounts)` loop: `keys` lists the
      table's account numbers in the order the loop visits them. */
  method ImportAll(accounts: map<string, Account>, payees: seq<Payee>, keys: seq<string>,
                   fetch: Account -> Option<seq<BankTransaction>>, accepts: ImportCall -> bool)
    returns (calls: seq<ImportCall>, error: Option<ImportError>)
    requires forall k :: k in keys ==> k in accounts
    ensures RunResult(calls, error) == ImportRun(accounts, payees, keys, fetch, accepts)
  {
    calls, error := [], None;
    var i := 0;
    while i < |keys|
      invariant 0 <= i <= |keys|
      invariant ImportRun(accounts, payees, keys, fetch, accepts)
                == var rest := ImportRun(accounts, payees, keys[i..], fetch, accepts);
                   RunResult(calls + rest.calls, rest.error)
    {
      assert keys[i..][0] == keys[i] && keys[i..][1..] == keys[i + 1..];
      var account := accounts[keys[i]];
      var fetched := fetch(account);
      if fetched.None? {
        error := Some(FetchFailed(keys[i]));
        return;
      }
      var batch := AccountBatch(accounts, payees, account, fetched.value);
      if batch.Failure? {
        error := Some(MappingFailed(batch.error));
        return;
      }
      var call := ImportCall(account.actualId, batch.value);
      calls := calls + [call];
      if !accepts(call) {
        error := Some(ImportRejected(account.actualId));
        return;
      }
      i := i + 1;
    }
    assert keys[i..] == [];
  }

  /** `opts.account ? config.accounts[opts.account] : null`: an empty or
      unknown account option selects no single account. */
  function SelectedAccount(accounts: map<string, Account>, option: Option<string>): Option<string>
  {
    if option.Some? && option.value != "" && option.value in accounts then option else None
  }

  /** The `import` command: the selected account alone, or else every account
      of the table in the loop's order. */
  method Import(accounts: map<string, Account>, payees: seq<Payee>, keys: seq<string>, option: Option<string>,
                fetch: Account -> Option<seq<BankTransaction>>, accepts: ImportCall -> bool)
    returns (calls: seq<ImportCall>, error: Option<ImportError>)
    requires forall k :: k in accounts <==> k in keys
    requires forall i, j :: 0 <= i < j < |keys| ==> keys[i] != keys[j]
    ensures option.Some? && option.value != "" && option.value in accounts ==>
              RunResult(calls, error) == ImportRun(accounts, payees, [option.value], fetch, accepts)
    ensures !(option.Some? && option.value != "" && option.value in accounts) ==>
              RunResult(calls, error) == ImportRun(accounts, payees, keys, fetch, accepts)
  {
    var selected := SelectedAccount(accounts, option);
    if selected.Some? {
      calls, error := ImportAll(accounts, payees, [selected.value], fetch, accepts);
    } else {
      calls, error := ImportAll(accounts, payees, keys, fetch, accepts);
    }
  }
}
