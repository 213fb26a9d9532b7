# ATM ledger model

A Dafny model of the account ledger and transaction engine of a
console ATM simulator (`Atm.py`, lines 16-123). The engine uses two
pieces of global state. The first is a table of accounts keyed by a
four-digit account number. Each account holds a name, a PIN, a balance, a
sixteen-digit card number, an append-only transaction history, a running
total of today's withdrawals with the date of that total, and a daily
limit. The second is the cash in the machine, which starts at 5000.0; the
default daily limit is 1000.0. The engine creates accounts with fresh
account and card numbers, looks accounts up by card, checks PINs, and
performs deposits, withdrawals (with a daily window that rolls over on a
new date), transfers and PIN changes, each returning success or a reason
for refusal. Deposit, transfer and PIN change validate first and mutate
second. Withdraw first rolls the daily window over, and that persists even
when it then refuses. Account creation validates nothing.

The project has three modules:

- `identifiers.dfy`, module `Identifiers`. It covers decimal numerals
  (account numbers in 1000..9999, sixteen-digit card numbers, the
  four-digit PIN format) and the round trip between a number and its
  numeral. It also proves the pigeonhole argument that a fresh identifier
  exists while the identifier space is not exhausted.
- `ledger.dfy`, module `Ledger`. The state is a value `Bank`: the accounts
  table, the order in which its keys were inserted, and the machine's
  cash. There is one step function per operation, returning the outcome
  and the new state. `Valid` is the invariant of the state:
  - account numbers are well formed;
  - card numbers are distinct;
  - every balance is non-negative and equals the net of the account's
    history;
  - the last history entry shows the current balance;
  - today's withdrawals lie between 0 and the daily limit;
  - the machine's cash is non-negative.

  For each operation, lemmas prove that it keeps `Valid` and state
  exactly what it changes, including what happens to the sum of all
  balances.
- `atm.dfy`, module `Atm`. Class `Machine` holds the global state as
  fields. Its methods update them step by step in the order the program
  does. CreateAccount, Deposit, Withdraw, Transfer and ChangePin are each
  proved to keep `Valid` and to leave the state the matching `Ledger` step
  function describes. AddTransaction is the building block they use: it
  appends one entry as `Ledger.Record` describes, and it does not keep
  `Valid` on its own, since an arbitrary entry need not match the balance.
  GenerateAccountNumber, GenerateCardNumber and GetAccountByCard change no
  state.

## Model

| member | source | states |
|---|---|---|
| Identifiers.Pad | Atm.py:25 | a numeral of width w has exactly w characters, all decimal digits |
| Identifiers.ValueOfPad | Atm.py:18 | reading back the numeral written for a number below 10^w gives that number |
| Identifiers.PadOfValue | Atm.py:25 | writing a digit string's value back at the same width gives the string itself |
| Identifiers.FreshPad | Atm.py:16-27 | if a range holds more numbers than the set of used strings, one of their numerals is unused (the retry loops can succeed) |
| Identifiers.FreshDigits | Atm.py:24-27 | returns a w-digit string outside `used` whenever fewer than 10^w strings are used |
| Identifiers.AccountNumeral | Atm.py:18 | the numeral of a number drawn from 1000..9999 is a well-formed account number with that value |
| Ledger.InitialValid | Atm.py:9-14 | the empty table with 5000.0 in the machine satisfies the invariant |
| Ledger.CardsBound | Atm.py:23 | there are never more card numbers in use than accounts |
| Ledger.TotalBalanceUpdate | Atm.py:75 | replacing one account changes the sum of all balances by exactly the change in that account's balance |
| Ledger.VerifyPin | Atm.py:61-62 | true exactly when the account exists and its stored PIN equals the one given; false for an unknown account |
| Ledger.CreditOk | Atm.py:75-76 | raising a consistent account's balance by a positive amount and recording the entry keeps the account consistent |
| Ledger.DebitOk | Atm.py:94-97 | lowering a consistent account's balance by a positive amount it covers and recording the entry keeps the account consistent |
| Ledger.CreateAccountKeepsValid | Atm.py:30-48 | adding an account under a fresh well-formed number, with a fresh card and a non-negative initial balance, keeps the invariant |
| Ledger.CreateAccountEffect | Atm.py:30-48 | the new account holds the name, PIN, card, initial balance, zero daily total, empty date and default limit; its history is one Deposit of the initial balance exactly when that is positive; the key joins the end of the order; nothing else changes and the sum of balances grows by the initial balance |
| Ledger.DepositKeepsValid | Atm.py:72-77 | a deposit keeps the invariant |
| Ledger.DepositEffect | Atm.py:72-77 | success iff the amount is positive; a failure changes nothing; a success raises the balance by exactly the amount, appends one Deposit entry with the new balance, changes no other field, account or the cash, and raises the sum of balances by the amount |
| Ledger.RolloverOk | Atm.py:83-85 | starting a new day's total keeps an account consistent |
| Ledger.RolloverEffect | Atm.py:83-85 | after the rollover the date is today; on a new date the total is reset to zero, on the same date the account is untouched; rolling over twice is the same as once |
| Ledger.WithdrawCheckOrder | Atm.py:86-93 | each refusal reason holds exactly when all earlier checks pass and its own check fails, and success exactly when all four pass |
| Ledger.WithdrawEffect | Atm.py:80-98 | the outcome is the checks applied to the rolled-over account; the rollover persists even on refusal, and a refusal changes nothing else; a success lowers balance and cash by the amount, raises today's total by it, appends one Withdrawal entry with the new balance, changes no other account, and lowers the sum of balances by the amount |
| Ledger.WithdrawKeepsValid | Atm.py:80-98 | a withdrawal keeps the invariant: balance, cash and daily total stay within bounds |
| Ledger.DailyLimitScenario | Atm.py:82-97 | with limit 1000, 600 succeeds, a further 500 on the same date fails with the daily limit, and 500 on another date succeeds |
| Ledger.TransferEffect | Atm.py:101-114 | each refusal reason holds exactly in the source's check order, and success exactly when all four checks pass; a refusal changes nothing; a success moves the amount from source to destination, appends one Transfer Out and one Transfer In entry, each with its own new balance and its own timestamp, leaves the cash and every other account alone, and keeps the sum of balances |
| Ledger.TransferKeepsValid | Atm.py:101-114 | a transfer keeps the invariant |
| Ledger.ChangePinEffect | Atm.py:117-123 | refused with the PIN reason iff the old PIN does not open the account, with the format reason iff it does but the new PIN is not four digits, and succeeds iff neither holds; a refusal changes nothing; a success changes only that PIN, keeps the sum of balances, and afterwards the new PIN opens the account |
| Ledger.ChangePinKeepsValid | Atm.py:117-123 | a PIN change keeps the invariant |
| Atm.Machine.constructor | Atm.py:9-14 | the machine starts with no accounts and 5000.0 in cash, satisfying the invariant |
| Atm.Machine.GenerateAccountNumber | Atm.py:16-20 | returns a well-formed account number that is not a key of the table |
| Atm.Machine.GenerateCardNumber | Atm.py:22-27 | returns sixteen decimal digits that no account's card carries |
| Atm.Machine.CreateAccount | Atm.py:30-48 | returns a fresh account number and a fresh card number, keeps the invariant, and leaves the state `Ledger.CreateAccount` describes |
| Atm.Machine.AddTransaction | Atm.py:51-58 | appends exactly one entry to the named account's history and changes nothing else |
| Atm.Machine.GetAccountByCard | Atm.py:65-69 | returns the first account in table order whose card matches, and None exactly when no account's card matches |
| Atm.Machine.Deposit | Atm.py:72-77 | keeps the invariant and produces the outcome and state of `Ledger.DepositStep` |
| Atm.Machine.Withdraw | Atm.py:80-98 | keeps the invariant and produces the outcome and state of `Ledger.WithdrawStep` |
| Atm.Machine.Transfer | Atm.py:101-114 | keeps the invariant and produces the outcome and state of `Ledger.TransferStep` |
| Atm.Machine.ChangePin | Atm.py:117-123 | keeps the invariant and produces the outcome and state of `Ledger.ChangePinStep` |

## Left out

- Terminal I/O and the menus (`Atm.py:125-622`) are not modelled. This includes screens, receipts, history display, the admin panel and `main`. They are presentation around the engine.
- The three-attempt PIN loops (`Atm.py:146-166`, `Atm.py:475-498`) are not modelled; they are driven by keyboard input.
- Clock reads are parameters. `withdraw`'s "today" is a parameter `today`. Each history entry's timestamp is a parameter: `timestamp` for deposit, withdraw and the opening deposit, and `outStamp` and `inStamp` for the two entries of a transfer, since the source reads the clock once per entry (`Atm.py:52`). Their formats are not modelled.
- Random draws are a nondeterministic choice among the fresh candidates. The source's retry loops are not modelled.
- Atm.Machine.CreateAccount: requires fewer than 9000 accounts. Once every number in 1000..9999 is taken, the source's draw loop never returns.
- Atm.Machine.GenerateCardNumber: requires fewer than 10^16 accounts, for the same reason.
- Atm.Machine.CreateAccount: requires a non-negative initial balance. The source function accepts any balance; only the menu refuses a negative one (`Atm.py:551`).
- Atm.Machine.Transfer: requires that the destination exists. The menu checks this (`Atm.py:316`). Called without that check, the source would debit the source account and then fail at `Atm.py:112`; that partial update is not modelled.
- Atm.Machine.Deposit and Atm.Machine.Withdraw: require the account to exist whenever the source reads it. The source would raise an error on an unknown key there.
- Amounts are `real`, so float rounding is not modelled.
- NaN and infinite amounts are not modelled. The menus read amounts with `float(input(...))` (`Atm.py:240`, `Atm.py:280`, `Atm.py:321`) and refuse only `amount <= 0`, so the input "nan" reaches the engine. Every comparison with NaN is false, so `deposit` (`Atm.py:73`), `withdraw` (`Atm.py:86-93`) and `transfer` (`Atm.py:106-108`) accept it. The balances, today's total and the machine's cash then become NaN, and the source's non-negative balance no longer holds. An infinite amount passes `deposit` in the same way. Account creation is open to both too: its menu reads the opening balance with `float(input(...))` and refuses only a negative one (`Atm.py:550-551`). With "nan", `create_account` stores a NaN balance and records no Deposit (`Atm.py:37`, `Atm.py:45`); with "inf", it stores an infinite balance and records a Deposit of infinity.
- The result message strings, and their two-decimal formatting, are reduced to the `Failure` reasons.
- Ledger.ChangePinStep: the PIN format check accepts ASCII digits only. Python's `str.isdigit` also accepts other Unicode digit characters, so the model is stricter for such PINs.
- Python's dict iteration order (insertion order), which `get_account_by_card` relies on, is the field `numbers`.
- Concurrency is not modelled; the program is single-threaded.
