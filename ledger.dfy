/**
 * The account ledger and transaction engine as values: the state of the
 * ATM (the accounts table, its creation order and the machine's cash),
 * one step function per operation, the invariant every operation keeps,
 * and what each operation does to balances, history and cash.
 */
module Ledger {
  import opened Identifiers

  /** The cash the machine starts with. */
  const InitialAtmCash: real := 5000.0
  /** The daily withdrawal limit every new account gets. */
  const DefaultDailyLimit: real := 1000.0

  datatype Option<T> = None | Some(value: T)

  datatype TxKind = Deposit | Withdrawal | TransferOut | TransferIn

  datatype Transaction = Transaction(kind: TxKind, amount: real, timestamp: string, balanceAfter: real)

  datatype Account = Account(
    name: string,
    pin: string,
    balance: real,
    cardNumber: string,
    transactions: seq<Transaction>,
    dailyWithdrawals: real,
    lastWithdrawDate: string,
    dailyLimit: real)

  /** Why an operation refused; each stands for one of the source's failure messages. */
  datatype Failure =
    | NonPositiveAmount
    | InsufficientFunds
    | DailyLimitExceeded
    | AtmOutOfCash
    | SameAccount
    | IncorrectPin
    | BadPinFormat

  datatype Outcome = Success | Failed(reason: Failure)

  /**
   * The whole state: the accounts table keyed by account number, the
   * order in which its keys were inserted (the table's iteration order)
   * and the cash in the machine.
   */
  datatype Bank = Bank(accounts: map<string, Account>, numbers: seq<string>, atmCash: real)

  datatype Step = Step(outcome: Outcome, bank: Bank)

  const Initial: Bank := Bank(map[], [], InitialAtmCash)

  // ---------------------------------------------------------------------
  // Invariant

  /** How one history entry moves the balance. */
  function Signed(t: Transaction): real {
    match t.kind
    case Deposit | TransferIn => t.amount
    case Withdrawal | TransferOut => -t.amount
  }

  /** The balance a history accounts for. */
  function Net(ts: seq<Transaction>): real {
    if ts == [] then 0.0 else Net(ts[..|ts| - 1]) + Signed(ts[|ts| - 1])
  }

  lemma NetAppend(ts: seq<Transaction>, t: Transaction)
    ensures Net(ts + [t]) == Net(ts) + Signed(t)
  {
    assert (ts + [t])[..|ts|] == ts;
  }

  /**
   * An account is consistent when its balance is non-negative and is what
   * its history adds up to, every entry moved a positive amount and left a
   * non-negative balance, the last entry shows the current balance, and
   * today's withdrawals stay within the daily limit.
   */
  ghost predicate AccountOk(a: Account) {
    && IsCardNumber(a.cardNumber)
    && a.balance >= 0.0
    && a.balance == Net(a.transactions)
    && (forall i :: 0 <= i < |a.transactions| ==>
          a.transactions[i].amount > 0.0 && a.transactions[i].balanceAfter >= 0.0)
    && (a.transactions != [] ==> a.transactions[|a.transactions| - 1].balanceAfter == a.balance)
    && 0.0 <= a.dailyWithdrawals <= a.dailyLimit
  }

  /** The card numbers in use. */
  function Cards(accounts: map<string, Account>): set<string> {
    set n | n in accounts :: accounts[n].cardNumber
  }

  /**
   * A key of the table and the account stored under it.  `Entry` and
   * `Listed` name the trigger terms of `Valid`'s quantifiers, so that the
   * invariant is only instantiated for the keys a proof asks about;
   * `EntryOk` instantiates both for one key.
   */
  ghost predicate Entry(n: string, a: Account) {
    IsAccountNumber(n) && AccountOk(a)
  }

  /** `n` occurs in the table's order of keys (a trigger term for `Valid`). */
  ghost predicate Listed(numbers: seq<string>, n: string) {
    n in numbers
  }

  ghost predicate Valid(b: Bank) {
    && (forall i, j :: 0 <= i < j < |b.numbers| ==> b.numbers[i] != b.numbers[j])
    && (forall i :: 0 <= i < |b.numbers| ==> b.numbers[i] in b.accounts)
    && (forall n {:trigger Listed(b.numbers, n)} :: n in b.accounts ==> Listed(b.numbers, n))
    && (forall n {:trigger Entry(n, b.accounts[n])} :: n in b.accounts ==> Entry(n, b.accounts[n]))
    && (forall n, m {:trigger b.accounts[n].cardNumber, b.accounts[m].cardNumber} ::
          n in b.accounts && m in b.accounts && n != m ==>
          b.accounts[n].cardNumber != b.accounts[m].cardNumber)
    && b.atmCash >= 0.0
  }

  /** What the invariant says of one account in the table. */
  lemma EntryOk(b: Bank, n: string)
    requires Valid(b) && n in b.accounts
    ensures IsAccountNumber(n) && AccountOk(b.accounts[n]) && n in b.numbers
  {
    assert Entry(n, b.accounts[n]) && Listed(b.numbers, n);
  }

  lemma InitialValid()
    ensures Valid(Initial) && Initial.atmCash == 5000.0 && Initial.accounts == map[]
  {
  }

  /** There are never more card numbers in use than accounts. */
  lemma {:induction false} CardsBound(accounts: map<string, Account>)
    ensures |Cards(accounts)| <= |accounts|
    decreases |accounts|
  {
    if accounts != map[] {
      var n :| n in accounts;
      var rest := accounts - {n};
      assert rest.Keys == accounts.Keys - {n};
      assert |rest| == |accounts| - 1 by {
        assert |rest.Keys| == |accounts.Keys| - 1;
      }
      CardsBound(rest);
      forall c | c in Cards(accounts)
        ensures c in Cards(rest) + {accounts[n].cardNumber}
      {
        var k :| k in accounts && accounts[k].cardNumber == c;
        if k != n {
          assert k in rest;
        }
      }
      assert Cards(accounts) == Cards(rest) + {accounts[n].cardNumber};
    } else {
      assert Cards(accounts) == {};
    }
  }

  // ---------------------------------------------------------------------
  // Money in the accounts

  ghost function SumOver(m: map<string, Account>, keys: set<string>): real
    requires keys <= m.Keys
    decreases keys
  {
    if keys == {} then 0.0 else var n :| n in keys; m[n].balance + SumOver(m, keys - {n})
  }

  /** The money held in all accounts together. */
  ghost function TotalBalance(m: map<string, Account>): real {
    SumOver(m, m.Keys)
  }

  lemma {:induction false} SumOverRemove(m: map<string, Account>, keys: set<string>, k: string)
    requires keys <= m.Keys && k in keys
    ensures SumOver(m, keys) == m[k].balance + SumOver(m, keys - {k})
    decreases keys
  {
    var n :| n in keys && SumOver(m, keys) == m[n].balance + SumOver(m, keys - {n});
    if n != k {
      SumOverRemove(m, keys - {n}, k);
      SumOverRemove(m, keys - {k}, n);
      assert keys - {n} - {k} == keys - {k} - {n};
    }
  }

  lemma {:induction false} SumOverFrame(m: map<string, Account>, keys: set<string>, k: string, a: Account)
    requires keys <= m.Keys && k !in keys
    ensures SumOver(m[k := a], keys) == SumOver(m, keys)
    decreases keys
  {
    if keys != {} {
      var n :| n in keys && SumOver(m, keys) == m[n].balance + SumOver(m, keys - {n});
      SumOverRemove(m[k := a], keys, n);
      SumOverFrame(m, keys - {n}, k, a);
    }
  }

  /** Replacing one account changes the total by exactly the change in its balance. */
  lemma TotalBalanceUpdate(m: map<string, Account>, k: string, a: Account)
    requires k in m
    ensures TotalBalance(m[k := a]) == TotalBalance(m) - m[k].balance + a.balance
  {
    var m' := m[k := a];
    assert m'.Keys == m.Keys;
    SumOverRemove(m, m.Keys, k);
    SumOverRemove(m', m.Keys, k);
    SumOverFrame(m, m.Keys - {k}, k, a);
  }

  // ---------------------------------------------------------------------
  // Operations

  /** Writing one entry twice leaves only the second write. */
  lemma UpdateTwice(m: map<string, Account>, k: string, a: Account, a': Account)
    ensures m[k := a][k := a'] == m[k := a']
  {
  }

  /** Writing back an entry's own value changes nothing. */
  lemma UpdateSame(m: map<string, Account>, k: string)
    requires k in m
    ensures m[k := m[k]] == m
  {
  }

  /** `add_transaction`: append one entry to an account's history. */
  function Record(a: Account, t: Transaction): Account {
    a.(transactions := a.transactions + [t])
  }

  /** Raise the balance by `amount` and record the entry with the new balance. */
  function Credit(a: Account, kind: TxKind, amount: real, timestamp: string): Account {
    var credited := a.(balance := a.balance + amount);
    Record(credited, Transaction(kind, amount, timestamp, credited.balance))
  }

  /** Lower the balance by `amount` and record the entry with the new balance. */
  function Debit(a: Account, kind: TxKind, amount: real, timestamp: string): Account {
    var debited := a.(balance := a.balance - amount);
    Record(debited, Transaction(kind, amount, timestamp, debited.balance))
  }

  /** The account `create_account` stores, with its opening deposit if any. */
  function Open(name: string, pin: string, initialBalance: real, cardNumber: string, timestamp: string): Account {
    var blank := Account(name, pin, initialBalance, cardNumber, [], 0.0, "", DefaultDailyLimit);
    if initialBalance > 0.0 then
      Record(blank, Transaction(Deposit, initialBalance, timestamp, initialBalance))
    else
      blank
  }

  /** `create_account` once the account and card numbers have been drawn. */
  function CreateAccount(b: Bank, name: string, pin: string, initialBalance: real,
                         number: string, cardNumber: string, timestamp: string): Bank {
    b.(accounts := b.accounts[number := Open(name, pin, initialBalance, cardNumber, timestamp)],
       numbers := b.numbers + [number])
  }

  /** `verify_pin`: the stored PIN of the account, if there is one, equals `pin`. */
  function VerifyPin(accounts: map<string, Account>, number: string, pin: string): (ok: bool)
    ensures ok <==> number in accounts && accounts[number].pin == pin
  {
    var stored := if number in accounts then Some(accounts[number].pin) else None;
    stored == Some(pin)
  }

  /** `deposit` */
  function DepositStep(b: Bank, number: string, amount: real, timestamp: string): Step
    requires amount <= 0.0 || number in b.accounts
  {
    if amount <= 0.0 then Step(Failed(NonPositiveAmount), b)
    else
      Step(Success, b.(accounts := b.accounts[number := Credit(b.accounts[number], Deposit, amount, timestamp)]))
  }

  /** The daily window of `withdraw`: a new calendar date starts a fresh running total. */
  function Rollover(a: Account, today: string): Account {
    if a.lastWithdrawDate != today then a.(dailyWithdrawals := 0.0, lastWithdrawDate := today) else a
  }

  /** The four checks of `withdraw`, in the source's order, on the rolled-over account. */
  function WithdrawCheck(a: Account, amount: real, atmCash: real): Outcome {
    if amount <= 0.0 then Failed(NonPositiveAmount)
    else if amount > a.balance then Failed(InsufficientFunds)
    else if a.dailyWithdrawals + amount > a.dailyLimit then Failed(DailyLimitExceeded)
    else if amount > atmCash then Failed(AtmOutOfCash)
    else Success
  }

  /** `withdraw` on the date `today` */
  function WithdrawStep(b: Bank, number: string, amount: real, today: string, timestamp: string): Step
    requires number in b.accounts
  {
    var a := Rollover(b.accounts[number], today);
    var outcome := WithdrawCheck(a, amount, b.atmCash);
    if outcome.Failed? then Step(outcome, b.(accounts := b.accounts[number := a]))
    else
      var counted := a.(dailyWithdrawals := a.dailyWithdrawals + amount);
      Step(Success, Bank(b.accounts[number := Debit(counted, Withdrawal, amount, timestamp)], b.numbers, b.atmCash - amount))
  }

  /** `transfer`; each of its two history entries carries its own clock reading. */
  function TransferStep(b: Bank, from: string, to: string, amount: real, pin: string, outStamp: string, inStamp: string): Step
    requires to in b.accounts
  {
    if from == to then Step(Failed(SameAccount), b)
    else if !VerifyPin(b.accounts, from, pin) then Step(Failed(IncorrectPin), b)
    else if amount <= 0.0 then Step(Failed(NonPositiveAmount), b)
    else if amount > b.accounts[from].balance then Step(Failed(InsufficientFunds), b)
    else
      var m := b.accounts[from := Debit(b.accounts[from], TransferOut, amount, outStamp)];
      Step(Success, b.(accounts := m[to := Credit(m[to], TransferIn, amount, inStamp)]))
  }

  /** `change_pin` */
  function ChangePinStep(b: Bank, number: string, oldPin: string, newPin: string): Step {
    if !VerifyPin(b.accounts, number, oldPin) then Step(Failed(IncorrectPin), b)
    else if !IsPin(newPin) then Step(Failed(BadPinFormat), b)
    else Step(Success, b.(accounts := b.accounts[number := b.accounts[number].(pin := newPin)]))
  }

  // ---------------------------------------------------------------------
  // The invariant is kept

  /** Crediting a positive amount keeps an account consistent. */
  lemma CreditOk(a: Account, kind: TxKind, amount: real, timestamp: string)
    requires AccountOk(a) && amount > 0.0
    requires kind == Deposit || kind == TransferIn
    ensures AccountOk(Credit(a, kind, amount, timestamp))
  {
    NetAppend(a.transactions, Transaction(kind, amount, timestamp, a.balance + amount));
  }

  /** Debiting a positive amount the balance covers keeps an account consistent. */
  lemma DebitOk(a: Account, kind: TxKind, amount: real, timestamp: string)
    requires AccountOk(a) && 0.0 < amount <= a.balance
    requires kind == Withdrawal || kind == TransferOut
    ensures AccountOk(Debit(a, kind, amount, timestamp))
  {
    NetAppend(a.transactions, Transaction(kind, amount, timestamp, a.balance - amount));
  }

  /** Replacing one account by a consistent one with the same card keeps the invariant. */
  lemma ReplaceKeepsValid(b: Bank, number: string, a: Account, atmCash: real)
    requires Valid(b) && number in b.accounts
    requires AccountOk(a) && a.cardNumber == b.accounts[number].cardNumber
    requires atmCash >= 0.0
    ensures Valid(Bank(b.accounts[number := a], b.numbers, atmCash))
  {
    var m := b.accounts[number := a];
    assert m.Keys == b.accounts.Keys;
    EntryOk(b, number);
    forall n | n in m
      ensures Entry(n, m[n])
    {
      if n != number {
        EntryOk(b, n);
      }
    }
  }

  lemma CreateAccountKeepsValid(b: Bank, name: string, pin: string, initialBalance: real,
                                number: string, cardNumber: string, timestamp: string)
    requires Valid(b)
    requires initialBalance >= 0.0
    requires IsAccountNumber(number) && number !in b.accounts
    requires IsCardNumber(cardNumber) && cardNumber !in Cards(b.accounts)
    ensures Valid(CreateAccount(b, name, pin, initialBalance, number, cardNumber, timestamp))
  {
    var b' := CreateAccount(b, name, pin, initialBalance, number, cardNumber, timestamp);
    var a := Open(name, pin, initialBalance, cardNumber, timestamp);
    if initialBalance > 0.0 {
      NetAppend([], Transaction(Deposit, initialBalance, timestamp, initialBalance));
    }
    assert AccountOk(a);
    forall n, m | n in b'.accounts && m in b'.accounts && n != m
      ensures b'.accounts[n].cardNumber != b'.accounts[m].cardNumber
    {
      if n == number {
        assert b.accounts[m].cardNumber in Cards(b.accounts);
      } else if m == number {
        assert b.accounts[n].cardNumber in Cards(b.accounts);
      }
    }
    forall n | n in b'.accounts
      ensures Listed(b'.numbers, n)
    {
      if n != number {
        assert Listed(b.numbers, n);
      }
    }
    forall i | 0 <= i < |b'.numbers|
      ensures b'.numbers[i] in b'.accounts
    {
      if i < |b.numbers| {
        assert b'.numbers[i] == b.numbers[i];
      }
    }
  }

  lemma DepositKeepsValid(b: Bank, number: string, amount: real, timestamp: string)
    requires Valid(b)
    requires amount <= 0.0 || number in b.accounts
    ensures Valid(DepositStep(b, number, amount, timestamp).bank)
  {
    if amount > 0.0 {
      EntryOk(b, number);
      CreditOk(b.accounts[number], Deposit, amount, timestamp);
      ReplaceKeepsValid(b, number, Credit(b.accounts[number], Deposit, amount, timestamp), b.atmCash);
    }
  }

  /** Starting a new day's total keeps an account consistent. */
  lemma RolloverOk(a: Account, today: string)
    requires AccountOk(a)
    ensures AccountOk(Rollover(a, today))
  {
  }

  /** Balance, machine cash and daily total all stay within bounds across `withdraw`. */
  lemma WithdrawKeepsValid(b: Bank, number: string, amount: real, today: string, timestamp: string)
    requires Valid(b)
    requires number in b.accounts
    ensures Valid(WithdrawStep(b, number, amount, today, timestamp).bank)
  {
    var a := Rollover(b.accounts[number], today);
    EntryOk(b, number);
    RolloverOk(b.accounts[number], today);
    var s := WithdrawStep(b, number, amount, today, timestamp);
    if WithdrawCheck(a, amount, b.atmCash).Failed? {
      assert s.bank == Bank(b.accounts[number := a], b.numbers, b.atmCash);
      ReplaceKeepsValid(b, number, a, b.atmCash);
    } else {
      var counted := a.(dailyWithdrawals := a.dailyWithdrawals + amount);
      var a' := Debit(counted, Withdrawal, amount, timestamp);
      assert s.bank == Bank(b.accounts[number := a'], b.numbers, b.atmCash - amount);
      assert AccountOk(a') by {
        DebitOk(counted, Withdrawal, amount, timestamp);
      }
      ReplaceKeepsValid(b, number, a', b.atmCash - amount);
    }
  }

  lemma TransferKeepsValid(b: Bank, from: string, to: string, amount: real, pin: string, outStamp: string, inStamp: string)
    requires Valid(b)
    requires to in b.accounts
    ensures Valid(TransferStep(b, from, to, amount, pin, outStamp, inStamp).bank)
  {
    if TransferStep(b, from, to, amount, pin, outStamp, inStamp).outcome == Success {
      var src := b.accounts[from];
      EntryOk(b, from);
      EntryOk(b, to);
      DebitOk(src, TransferOut, amount, outStamp);
      ReplaceKeepsValid(b, from, Debit(src, TransferOut, amount, outStamp), b.atmCash);
      var b1 := Bank(b.accounts[from := Debit(src, TransferOut, amount, outStamp)], b.numbers, b.atmCash);
      CreditOk(b1.accounts[to], TransferIn, amount, inStamp);
      ReplaceKeepsValid(b1, to, Credit(b1.accounts[to], TransferIn, amount, inStamp), b.atmCash);
    }
  }

  lemma ChangePinKeepsValid(b: Bank, number: string, oldPin: string, newPin: string)
    requires Valid(b)
    ensures Valid(ChangePinStep(b, number, oldPin, newPin).bank)
  {
    if ChangePinStep(b, number, oldPin, newPin).outcome == Success {
      EntryOk(b, number);
      ReplaceKeepsValid(b, number, b.accounts[number].(pin := newPin), b.atmCash);
    }
  }

  // ---------------------------------------------------------------------
  // What each operation does

  /**
   * `create_account` with a fresh account number: the new account holds
   * the name, PIN and card given, the initial balance, an empty daily
   * window and the default limit; its history is one Deposit of the whole
   * initial balance (recorded as the balance after it) when that is
   * positive and empty otherwise; no other account and not the cash
   * changes, and the money in the accounts grows by the initial balance.
   */
  lemma CreateAccountEffect(b: Bank, name: string, pin: string, initialBalance: real,
                            number: string, cardNumber: string, timestamp: string)
    requires number !in b.accounts
    ensures var b' := CreateAccount(b, name, pin, initialBalance, number, cardNumber, timestamp);
      && b'.accounts.Keys == b.accounts.Keys + {number}
      && b'.numbers == b.numbers + [number]
      && (forall n :: n in b.accounts ==> b'.accounts[n] == b.accounts[n])
      && b'.atmCash == b.atmCash
      && TotalBalance(b'.accounts) == TotalBalance(b.accounts) + initialBalance
    ensures var a := CreateAccount(b, name, pin, initialBalance, number, cardNumber, timestamp).accounts[number];
      && a.name == name && a.pin == pin && a.cardNumber == cardNumber
      && a.balance == initialBalance
      && a.dailyWithdrawals == 0.0 && a.lastWithdrawDate == "" && a.dailyLimit == DefaultDailyLimit
      && (initialBalance > 0.0 <==> |a.transactions| == 1)
      && (initialBalance > 0.0 ==> a.transactions == [Transaction(Deposit, initialBalance, timestamp, initialBalance)])
      && (initialBalance <= 0.0 ==> a.transactions == [])
  {
    var m := b.accounts;
    var a := Open(name, pin, initialBalance, cardNumber, timestamp);
    var blank := a.(balance := 0.0);
    var m0 := m[number := blank];
    assert m0[number := a] == m[number := a];
    assert TotalBalance(m0) == TotalBalance(m) by {
      SumOverRemove(m0, m0.Keys, number);
      assert m0.Keys - {number} == m.Keys;
      SumOverFrame(m, m.Keys, number, blank);
    }
    TotalBalanceUpdate(m0, number, a);
  }

  /**
   * `deposit`: a non-positive amount is refused and nothing changes;
   * otherwise the account's balance grows by exactly the amount, one
   * Deposit entry showing the new balance is appended and nothing else
   * about the account changes; no other account and not the cash changes.
   */
  lemma DepositEffect(b: Bank, number: string, amount: real, timestamp: string)
    requires amount <= 0.0 || number in b.accounts
    ensures var s := DepositStep(b, number, amount, timestamp);
      && (s.outcome == Success <==> amount > 0.0)
      && (s.outcome.Failed? ==> s.outcome.reason == NonPositiveAmount && s.bank == b)
      && (s.outcome == Success ==>
            var a := b.accounts[number];
            var a' := s.bank.accounts[number];
            && s.bank.accounts.Keys == b.accounts.Keys
            && s.bank.numbers == b.numbers
            && s.bank.atmCash == b.atmCash
            && (forall n :: n in b.accounts && n != number ==> s.bank.accounts[n] == b.accounts[n])
            && a'.balance == a.balance + amount
            && a'.transactions == a.transactions + [Transaction(Deposit, amount, timestamp, a'.balance)]
            && a' == a.(balance := a'.balance, transactions := a'.transactions)
            && TotalBalance(s.bank.accounts) == TotalBalance(b.accounts) + amount)
  {
    if amount > 0.0 {
      TotalBalanceUpdate(b.accounts, number, DepositStep(b, number, amount, timestamp).bank.accounts[number]);
    }
  }

  /** The four checks of `withdraw` in their order: each refusal names the first check that fails. */
  lemma WithdrawCheckOrder(a: Account, amount: real, atmCash: real)
    ensures var o := WithdrawCheck(a, amount, atmCash);
      && (o == Failed(NonPositiveAmount) <==> amount <= 0.0)
      && (o == Failed(InsufficientFunds) <==> amount > 0.0 && amount > a.balance)
      && (o == Failed(DailyLimitExceeded) <==>
            0.0 < amount <= a.balance && a.dailyWithdrawals + amount > a.dailyLimit)
      && (o == Failed(AtmOutOfCash) <==>
            0.0 < amount <= a.balance && a.dailyWithdrawals + amount <= a.dailyLimit && amount > atmCash)
      && (o == Success <==>
            0.0 < amount <= a.balance && a.dailyWithdrawals + amount <= a.dailyLimit && amount <= atmCash)
  {
  }

  /**
   * `withdraw`: the daily window is rolled over first and stays rolled
   * over whatever happens next; a refusal changes nothing beyond that.  A
   * success takes the amount off the balance and out of the machine, adds
   * it to today's total and appends one Withdrawal entry showing the new
   * balance; no other account changes.
   */
  lemma WithdrawEffect(b: Bank, number: string, amount: real, today: string, timestamp: string)
    requires number in b.accounts
    ensures var s := WithdrawStep(b, number, amount, today, timestamp);
      var a := Rollover(b.accounts[number], today);
      && s.outcome == WithdrawCheck(a, amount, b.atmCash)
      && s.bank.accounts.Keys == b.accounts.Keys
      && s.bank.numbers == b.numbers
      && (forall n :: n in b.accounts && n != number ==> s.bank.accounts[n] == b.accounts[n])
      && s.bank.accounts[number].lastWithdrawDate == today
      && (s.outcome.Failed? ==> s.bank == b.(accounts := b.accounts[number := a]))
      && (s.outcome == Success ==>
            var a' := s.bank.accounts[number];
            && a'.balance == a.balance - amount
            && a'.dailyWithdrawals == a.dailyWithdrawals + amount
            && a'.transactions == a.transactions + [Transaction(Withdrawal, amount, timestamp, a'.balance)]
            && a' == a.(balance := a'.balance, dailyWithdrawals := a'.dailyWithdrawals, transactions := a'.transactions)
            && s.bank.atmCash == b.atmCash - amount
            && TotalBalance(s.bank.accounts) == TotalBalance(b.accounts) - amount)
  {
    var s := WithdrawStep(b, number, amount, today, timestamp);
    if s.outcome == Success {
      TotalBalanceUpdate(b.accounts, number, s.bank.accounts[number]);
    }
  }

  /** The rollover starts a new day's total at zero and leaves a same-day account alone. */
  lemma RolloverEffect(a: Account, today: string)
    ensures var r := Rollover(a, today);
      && r.lastWithdrawDate == today
      && (a.lastWithdrawDate == today ==> r == a)
      && (a.lastWithdrawDate != today ==> r == a.(dailyWithdrawals := 0.0, lastWithdrawDate := today))
      && Rollover(r, today) == r
  {
  }

  /**
   * `transfer`: refused, with nothing changed, when the accounts are the
   * same, the PIN does not open the source, the amount is not positive or
   * exceeds the source's balance, checked in that order, and succeeds
   * exactly when all four checks pass.  A success moves
   * the amount from one balance to the other, appends one Transfer Out
   * entry on the source and one Transfer In entry on the destination, each
   * showing its own new balance, and leaves the cash, every other account
   * and the total of all balances unchanged.
   */
  lemma TransferEffect(b: Bank, from: string, to: string, amount: real, pin: string, outStamp: string, inStamp: string)
    requires to in b.accounts
    ensures var s := TransferStep(b, from, to, amount, pin, outStamp, inStamp);
      && (s.outcome == Failed(SameAccount) <==> from == to)
      && (s.outcome == Failed(IncorrectPin) <==> from != to && !VerifyPin(b.accounts, from, pin))
      && (s.outcome == Failed(NonPositiveAmount) <==>
            from != to && VerifyPin(b.accounts, from, pin) && amount <= 0.0)
      && (s.outcome == Failed(InsufficientFunds) <==>
            from != to && VerifyPin(b.accounts, from, pin) && 0.0 < amount && amount > b.accounts[from].balance)
      && (s.outcome == Success <==>
            from != to && VerifyPin(b.accounts, from, pin) && 0.0 < amount <= b.accounts[from].balance)
      && (s.outcome.Failed? ==> s.bank == b)
      && (s.outcome == Success ==>
            var src := b.accounts[from];
            var dst := b.accounts[to];
            var src' := s.bank.accounts[from];
            var dst' := s.bank.accounts[to];
            && s.bank.accounts.Keys == b.accounts.Keys
            && s.bank.numbers == b.numbers
            && s.bank.atmCash == b.atmCash
            && (forall n :: n in b.accounts && n != from && n != to ==> s.bank.accounts[n] == b.accounts[n])
            && src'.balance == src.balance - amount
            && dst'.balance == dst.balance + amount
            && src' == src.(balance := src'.balance, transactions := src'.transactions)
            && dst' == dst.(balance := dst'.balance, transactions := dst'.transactions)
            && src'.transactions == src.transactions + [Transaction(TransferOut, amount, outStamp, src'.balance)]
            && dst'.transactions == dst.transactions + [Transaction(TransferIn, amount, inStamp, dst'.balance)]
            && TotalBalance(s.bank.accounts) == TotalBalance(b.accounts))
  {
    var s := TransferStep(b, from, to, amount, pin, outStamp, inStamp);
    if s.outcome == Success {
      var m := b.accounts[from := s.bank.accounts[from]];
      TotalBalanceUpdate(b.accounts, from, s.bank.accounts[from]);
      TotalBalanceUpdate(m, to, s.bank.accounts[to]);
      assert m[to := s.bank.accounts[to]] == s.bank.accounts;
    }
  }

  /**
   * `change_pin`: refused, with nothing changed, when the old PIN does not
   * open the account or the new PIN is not four decimal digits, and
   * succeeds exactly when neither holds.  A success
   * changes that account's PIN and nothing else, so the sum of balances
   * is unchanged, and afterwards the new PIN opens the account.
   */
  lemma ChangePinEffect(b: Bank, number: string, oldPin: string, newPin: string)
    ensures var s := ChangePinStep(b, number, oldPin, newPin);
      && (s.outcome == Failed(IncorrectPin) <==> !VerifyPin(b.accounts, number, oldPin))
      && (s.outcome == Failed(BadPinFormat) <==> VerifyPin(b.accounts, number, oldPin) && !IsPin(newPin))
      && (s.outcome == Success <==> VerifyPin(b.accounts, number, oldPin) && IsPin(newPin))
      && (s.outcome.Failed? ==> s.bank == b)
      && (s.outcome == Success ==>
            && number in b.accounts
            && s.bank.accounts == b.accounts[number := b.accounts[number].(pin := newPin)]
            && s.bank.numbers == b.numbers && s.bank.atmCash == b.atmCash
            && VerifyPin(s.bank.accounts, number, newPin)
            && TotalBalance(s.bank.accounts) == TotalBalance(b.accounts))
  {
    if ChangePinStep(b, number, oldPin, newPin).outcome == Success {
      TotalBalanceUpdate(b.accounts, number, b.accounts[number].(pin := newPin));
    }
  }

  /**
   * The daily limit over two dates: with enough balance and cash, 600 can
   * be withdrawn, a further 500 on the same date is refused for the daily
   * limit, and 500 on another date succeeds.
   */
  lemma DailyLimitScenario(b: Bank, number: string, day: string, nextDay: string, t1: string, t2: string, t3: string)
    requires number in b.accounts && day != nextDay
    requires b.accounts[number].lastWithdrawDate != day
    requires b.accounts[number].dailyLimit == DefaultDailyLimit
    requires b.accounts[number].balance >= 1100.0 && b.atmCash >= 1100.0
    ensures var s1 := WithdrawStep(b, number, 600.0, day, t1);
      var s2 := WithdrawStep(s1.bank, number, 500.0, day, t2);
      var s3 := WithdrawStep(s2.bank, number, 500.0, nextDay, t3);
      && s1.outcome == Success
      && s2.outcome == Failed(DailyLimitExceeded)
      && s3.outcome == Success
      && s3.bank.accounts[number].balance == b.accounts[number].balance - 1100.0
      && s3.bank.atmCash == b.atmCash - 1100.0
  {
    var s1 := WithdrawStep(b, number, 600.0, day, t1);
    WithdrawEffect(b, number, 600.0, day, t1);
    var s2 := WithdrawStep(s1.bank, number, 500.0, day, t2);
    WithdrawEffect(s1.bank, number, 500.0, day, t2);
    WithdrawEffect(s2.bank, number, 500.0, nextDay, t3);
  }
}
