/**
 * The ATM's ledger engine as the program runs it: the accounts table and
 * the machine's cash are fields of one object, and each operation updates
 * them step by step in the order the program does.  CreateAccount,
 * Deposit, Withdraw, Transfer and ChangePin are each proved to keep the
 * invariant `Ledger.Valid` and to leave the object in the state the
 * matching function of module Ledger describes.  AddTransaction is the
 * building block they use: it appends one entry as `Ledger.Record`
 * describes, and does not keep `Valid` on its own, since an arbitrary
 * entry need not match the balance.  GenerateAccountNumber,
 * GenerateCardNumber and GetAccountByCard change no state.
 *
 * The clock and the random draws are not read here: "today" and the
 * timestamp of a history entry are parameters, and the account and card
 * numbers are chosen nondeterministically among the fresh ones.
 */
module Atm {
  import opened Identifiers
  import opened Ledger

  class Machine {
    /** The accounts table, keyed by account number. */
    var accounts: map<string, Account>
    /** The keys of `accounts` in insertion order, the order in which the table is iterated. */
    var numbers: seq<string>
    /** The cash in the machine. */
    var atmCash: real

    function Model(): Bank
      reads this
    {
      Bank(accounts, numbers, atmCash)
    }

    ghost predicate Valid()
      reads this
    {
      Ledger.Valid(Model())
    }

    /** No accounts yet, and the machine's starting cash. */
    constructor ()
      ensures Valid() && Model() == Initial
    {
      accounts := map[];
      numbers := [];
      atmCash := InitialAtmCash;
      new;
      InitialValid();
    }

    /** `generate_account_number`: an unused account number, as long as one is left. */
    method GenerateAccountNumber() returns (number: string)
      requires |accounts| < 9000
      ensures IsAccountNumber(number) && number !in accounts
    {
      assert Pow10(4) == 10000;
      FreshPad(accounts.Keys, 1000, 10000, 4);
      var k :| 1000 <= k < 10000 && Pad(k, 4) !in accounts.Keys;
      number := AccountNumeral(k);
    }

    /** `generate_card_number`: sixteen digits that no account's card carries. */
    method GenerateCardNumber() returns (card: string)
      requires |accounts| < CardSpace
      ensures IsCardNumber(card)
      ensures forall n :: n in accounts ==> accounts[n].cardNumber != card
    {
      var existing := Cards(accounts);
      CardsBound(accounts);
      CardSpaceIsPow10();
      card := FreshDigits(existing, 16);
      forall n | n in accounts
        ensures accounts[n].cardNumber != card
      {
        assert accounts[n].cardNumber in existing;
      }
    }

    /**
     * `create_account`: draws a fresh account number and a fresh card
     * number and stores the new account, recording the initial balance as
     * a Deposit when it is positive.  The caller has checked that the
     * initial balance is not negative, and there must be an account number
     * left to draw.
     */
    method CreateAccount(name: string, pin: string, initialBalance: real, timestamp: string)
      returns (number: string, card: string)
      requires Valid()
      requires initialBalance >= 0.0
      requires |accounts| < 9000
      modifies this
      ensures Valid()
      ensures IsAccountNumber(number) && number !in old(accounts)
      ensures IsCardNumber(card) && card !in Cards(old(accounts))
      ensures Model() == Ledger.CreateAccount(old(Model()), name, pin, initialBalance, number, card, timestamp)
    {
      number := GenerateAccountNumber();
      card := GenerateCardNumber();
      ghost var target := Ledger.CreateAccount(Model(), name, pin, initialBalance, number, card, timestamp);
      CreateAccountKeepsValid(Model(), name, pin, initialBalance, number, card, timestamp);
      var blank := Account(name, pin, initialBalance, card, [], 0.0, "", DefaultDailyLimit);
      accounts := accounts[number := blank];
      numbers := numbers + [number];
      if initialBalance > 0.0 {
        AddTransaction(number, TxKind.Deposit, initialBalance, initialBalance, timestamp);
        UpdateTwice(old(accounts), number, blank, Open(name, pin, initialBalance, card, timestamp));
      }
      assert accounts == target.accounts;
    }

    /** `add_transaction`: appends one entry to the account's history. */
    method AddTransaction(number: string, kind: TxKind, amount: real, balanceAfter: real, timestamp: string)
      requires number in accounts
      modifies this
      ensures accounts == old(accounts)[number := Record(old(accounts)[number], Transaction(kind, amount, timestamp, balanceAfter))]
      ensures numbers == old(numbers) && atmCash == old(atmCash)
    {
      var a := accounts[number];
      accounts := accounts[number := a.(transactions := a.transactions + [Transaction(kind, amount, timestamp, balanceAfter)])];
    }

    /**
     * `get_account_by_card`: the first account, in table order, whose card
     * carries `card`, or None exactly when no account's card does.
     */
    method GetAccountByCard(card: string) returns (r: Option<string>)
      requires Valid()
      ensures r.Some? ==> r.value in accounts && accounts[r.value].cardNumber == card
      ensures r.Some? ==>
                exists i :: 0 <= i < |numbers| && numbers[i] == r.value &&
                  forall j :: 0 <= j < i ==> accounts[numbers[j]].cardNumber != card
      ensures r.None? <==> forall n :: n in accounts ==> accounts[n].cardNumber != card
    {
      var i := 0;
      while i < |numbers|
        invariant 0 <= i <= |numbers|
        invariant forall j :: 0 <= j < i ==> accounts[numbers[j]].cardNumber != card
      {
        if accounts[numbers[i]].cardNumber == card {
          return Some(numbers[i]);
        }
        i := i + 1;
      }
      forall n | n in accounts
        ensures accounts[n].cardNumber != card
      {
        EntryOk(Model(), n);
      }
      return None;
    }

    /** `deposit` */
    method Deposit(number: string, amount: real, timestamp: string) returns (outcome: Outcome)
      requires Valid()
      requires amount <= 0.0 || number in accounts
      modifies this
      ensures Valid()
      ensures Step(outcome, Model()) == DepositStep(old(Model()), number, amount, timestamp)
    {
      DepositKeepsValid(Model(), number, amount, timestamp);
      if amount <= 0.0 {
        return Failed(NonPositiveAmount);
      }
      var a := accounts[number];
      a := a.(balance := a.balance + amount);
      accounts := accounts[number := a];
      AddTransaction(number, TxKind.Deposit, amount, a.balance, timestamp);
      UpdateTwice(old(accounts), number, a, Credit(old(accounts)[number], TxKind.Deposit, amount, timestamp));
      outcome := Success;
    }

    /** `withdraw` on the date `today` */
    method Withdraw(number: string, amount: real, today: string, timestamp: string) returns (outcome: Outcome)
      requires Valid()
      requires number in accounts
      modifies this
      ensures Valid()
      ensures Step(outcome, Model()) == WithdrawStep(old(Model()), number, amount, today, timestamp)
    {
      ghost var s := WithdrawStep(Model(), number, amount, today, timestamp);
      WithdrawKeepsValid(Model(), number, amount, today, timestamp);
      var a := accounts[number];
      if a.lastWithdrawDate != today {
        a := a.(dailyWithdrawals := 0.0);
        a := a.(lastWithdrawDate := today);
        accounts := accounts[number := a];
      } else {
        UpdateSame(accounts, number);
      }
      assert a == Rollover(old(accounts)[number], today);
      assert accounts == old(accounts)[number := a];
      if amount <= 0.0 {
        outcome := Failed(NonPositiveAmount);
      } else if amount > a.balance {
        outcome := Failed(InsufficientFunds);
      } else if a.dailyWithdrawals + amount > a.dailyLimit {
        outcome := Failed(DailyLimitExceeded);
      } else if amount > atmCash {
        outcome := Failed(AtmOutOfCash);
      } else {
        ghost var rolled := a;
        a := a.(balance := a.balance - amount);
        a := a.(dailyWithdrawals := a.dailyWithdrawals + amount);
        accounts := accounts[number := a];
        atmCash := atmCash - amount;
        AddTransaction(number, Withdrawal, amount, a.balance, timestamp);
        ghost var counted := rolled.(dailyWithdrawals := rolled.dailyWithdrawals + amount);
        UpdateTwice(old(accounts), number, rolled, a);
        UpdateTwice(old(accounts), number, a, Debit(counted, Withdrawal, amount, timestamp));
        outcome := Success;
      }
      assert Model() == s.bank;
    }

    /**
     * `transfer`; the caller has checked that the destination account
     * exists.  The two history entries are stamped separately, as the
     * clock is read once per entry.
     */
    method Transfer(from: string, to: string, amount: real, pin: string, outStamp: string, inStamp: string) returns (outcome: Outcome)
      requires Valid()
      requires to in accounts
      modifies this
      ensures Valid()
      ensures Step(outcome, Model()) == TransferStep(old(Model()), from, to, amount, pin, outStamp, inStamp)
    {
      TransferKeepsValid(Model(), from, to, amount, pin, outStamp, inStamp);
      if from == to {
        return Failed(SameAccount);
      }
      if !VerifyPin(accounts, from, pin) {
        return Failed(IncorrectPin);
      }
      if amount <= 0.0 {
        return Failed(NonPositiveAmount);
      }
      if amount > accounts[from].balance {
        return Failed(InsufficientFunds);
      }
      var source := accounts[from];
      source := source.(balance := source.balance - amount);
      accounts := accounts[from := source];
      AddTransaction(from, TransferOut, amount, source.balance, outStamp);
      UpdateTwice(old(accounts), from, source, Debit(old(accounts)[from], TransferOut, amount, outStamp));
      ghost var debited := accounts;
      var target := accounts[to];
      target := target.(balance := target.balance + amount);
      accounts := accounts[to := target];
      AddTransaction(to, TransferIn, amount, target.balance, inStamp);
      UpdateTwice(debited, to, target, Credit(debited[to], TransferIn, amount, inStamp));
      outcome := Success;
    }

    /** `change_pin` */
    method ChangePin(number: string, oldPin: string, newPin: string) returns (outcome: Outcome)
      requires Valid()
      modifies this
      ensures Valid()
      ensures Step(outcome, Model()) == ChangePinStep(old(Model()), number, oldPin, newPin)
    {
      ChangePinKeepsValid(Model(), number, oldPin, newPin);
      if !VerifyPin(accounts, number, oldPin) {
        return Failed(IncorrectPin);
      }
      if !IsPin(newPin) {
        return Failed(BadPinFormat);
      }
      accounts := accounts[number := accounts[number].(pin := newPin)];
      outcome := Success;
    }
  }
}
