# Investment ledger of java-bank, modelled in Dafny

This project models the investment side of an in-memory bank ledger. The bank sells
investment products. Each product has an id, an interest rate (`tax`) and the funds an
account must bring to enrol (`initialFunds`). An account enrols in one product at a time and
gets an investment wallet. Units of money then move between the account and that wallet:
a deposit (`aplicação`) moves them in, a withdrawal (`resgate`) moves them out. A periodic
trigger accrues interest on every wallet.

The model also covers the two helpers the repositories share:
- the overdraft guard `checkFundsForTransaction`;
- `generateMoney`, which builds a batch of money units that all carry one audit record.

Files:
- `commons.dfy` (module `Commons`): `CommonsRepository`, the bank's error kinds and the
  money/audit records.
- `lists.dfy` (module `Lists`): the first-match search behind `filter(...).findFirst()` and
  `List.remove(Object)`, the two list operations the repository relies on.
- `model.dfy` (module `Model`): abstract `AccountWallet`, `InvestmentWallet` and `Investment`.
  A wallet is its balance, a count of units. `reduceMoney(n)` takes n units from a wallet
  holding at least n. `addMoney` puts units in. The interest rule of
  `InvestmentWallet.updateAmount` is a parameter.
- `investments.dfy` (module `Investments`): `InvestmentRepository` as a class with the
  source's three fields (`nextId`, `investments`, `wallets`). Its methods update them in
  place.

`InvestmentRepository.Valid()` is the repository invariant. Every method keeps it:
- the ids are 1 .. `nextId` in list order, so they are fresh and increasing;
- every wallet follows a listed product;
- no two wallets belong to the same account.

Each method's postcondition states its whole new state. A failure leaves every field and
every balance as it was.

Points where the model follows the code's exact behaviour:
- The pix lookup uses `List.contains` on the account's key list. That is exact membership
  of the key, not substring matching.
- Investment `deposit` and `withdraw` fail only with `WalletNotFoundException` when the key
  is unknown. They never raise an account-not-found error.
- `generateMoney` with a negative count fails, because `Stream.limit` throws
  `IllegalArgumentException`. It is not an empty batch.
- The interest rule of `InvestmentWallet.updateAmount` is outside this model, so no formula is assumed.

## Model

| member | source | states |
|---|---|---|
| `Commons.CheckFundsForTransaction` | src/main/java/project/bank/repository/CommonsRepository.java:20-24 | fails with NoFunds if and only if the balance is below the amount (a balance equal to the amount passes); it receives the balance and cannot change the wallet |
| `Commons.GenerateMoney` | src/main/java/project/bank/repository/CommonsRepository.java:26-32 | a non-negative count yields exactly that many units (none for 0), each carrying the audit record with the given transaction id and description, the ACCOUNT service and the given instant; a negative count fails as `Stream.limit` does |
| `Commons.GenerateMoneySharesOneAudit` | src/main/java/project/bank/repository/CommonsRepository.java:27-29 | the units of one batch carry one single audit record between them, and an empty batch carries none |
| `Lists.FirstIndex` | src/main/java/project/bank/repository/InvestmentRepository.java:64-65 | `filter(...).findFirst()`: the index found satisfies the filter and no earlier element does; nothing is found exactly when no element satisfies it |
| `Lists.RemoveFirst` | src/main/java/project/bank/repository/InvestmentRepository.java:54 | `List.remove(Object)`: an absent element leaves the list unchanged; a present one is removed exactly once (length one less, multiset minus that element) |
| `Lists.RemoveFirstAt` | src/main/java/project/bank/repository/InvestmentRepository.java:54 | the removal happens at the first position holding the element; earlier elements keep their places and later ones shift forward by one, so the order of the others is kept |
| `Investments.AccountsInUse` | src/main/java/project/bank/repository/InvestmentRepository.java:30 | the `accountInUse` list: one entry per wallet, in wallet order, each the account of that wallet |
| `Investments.FindById` | src/main/java/project/bank/repository/InvestmentRepository.java:63-69 | fails with InvestmentNotFound if and only if no product has the id; otherwise returns the first product with that id in creation order |
| `Investments.FindWalletByAccountPix` | src/main/java/project/bank/repository/InvestmentRepository.java:71-77 | fails with WalletNotFound if and only if no wallet's account has the pix key; otherwise returns the first such wallet in enrolment order |
| `Investments.FindByIdSequential` | src/main/java/project/bank/repository/InvestmentRepository.java:63-69 | with the ids `create` hands out (1, 2, 3, ...), a lookup succeeds exactly for ids 1 .. number of products and finds the product at position id - 1 |
| `Investments.AppendAccountsUnique` | src/main/java/project/bank/repository/InvestmentRepository.java:29-38 | appending a wallet keeps "one wallet per account" if and only if the list already had it and the wallet's account had no wallet yet |
| `Investments.RemoveAccountsUnique` | src/main/java/project/bank/repository/InvestmentRepository.java:53-55 | removing an emptied wallet keeps "one wallet per account" and leaves its account with no wallet, so the account may enrol again |
| `Investments.RemovedWalletNotFound` | src/main/java/project/bank/repository/InvestmentRepository.java:53-55 | once the emptied wallet is removed, a lookup by a pix key that no other enrolled account holds fails with WalletNotFound |
| `Investments.InvestmentRepository.constructor` | src/main/java/project/bank/repository/InvestmentRepository.java:17-19 | the repository starts with the counter at 0, no products and no wallets, and satisfies the invariant |
| `Investments.InvestmentRepository.Create` | src/main/java/project/bank/repository/InvestmentRepository.java:21-26 | the new product's id is the previous counter plus 1, larger than every earlier id; it is appended as the one new element; wallets are untouched; the invariant is kept |
| `Investments.InvestmentRepository.InitInvestment` | src/main/java/project/bank/repository/InvestmentRepository.java:28-40 | checks in order: account already enrolled (AccountWithInvestment), unknown id (InvestmentNotFound), balance below the product's initial funds (NoFunds); any failure changes nothing; success appends exactly one fresh wallet for that account and product, seeded with the initial funds taken from the account; products and counter unchanged; one wallet per account is kept |
| `Investments.InvestmentRepository.Deposit` | src/main/java/project/bank/repository/InvestmentRepository.java:42-46 | result is the pix lookup (WalletNotFound changes nothing); on success exactly `funds` units leave the account and enter its wallet, the sum of the two balances is conserved, and every other wallet and account is unchanged |
| `Investments.InvestmentRepository.Withdraw` | src/main/java/project/bank/repository/InvestmentRepository.java:48-57 | WalletNotFound, or NoFunds when the wallet holds fewer units than asked, change nothing; success moves exactly `funds` units back to the account; the wallet is removed exactly when its balance reaches 0, which frees the account, and the list is otherwise unchanged; other wallets and accounts are untouched |
| `Investments.InvestmentRepository.UpdateAmount` | src/main/java/project/bank/repository/InvestmentRepository.java:59-61 | every wallet's new balance is its interest rule applied to its old balance and its own product's rate; no wallet or product is added, removed or reordered, and no account changes |
| `Investments.InvestmentRepository.List` | src/main/java/project/bank/repository/InvestmentRepository.java:78-80 | returns the products in creation order, the i-th having id i + 1 |
| `Investments.InvestmentRepository.ListWallets` | src/main/java/project/bank/repository/InvestmentRepository.java:81-83 | returns the active wallets in enrolment order, no two of them for the same account |
| `Model.AccountWallet.ReduceMoney` | src/main/java/project/bank/repository/InvestmentRepository.java:44 | `reduceMoney(n)` on an account holding at least n units: the balance drops by n and n units are handed over |
| `Model.AccountWallet.AddMoney` | src/main/java/project/bank/repository/InvestmentRepository.java:51-52 | `addMoney` on an account: the balance grows by the number of units received |
| `Model.InvestmentWallet.constructor` | src/main/java/project/bank/repository/InvestmentRepository.java:37 | a new wallet refers to its product and account and holds the requested units, taken from the account |
| `Model.InvestmentWallet.ReduceMoney` | src/main/java/project/bank/repository/InvestmentRepository.java:51-52 | `reduceMoney(n)` on a wallet holding at least n units: the balance drops by n and n units are handed over |
| `Model.InvestmentWallet.AddMoney` | src/main/java/project/bank/repository/InvestmentRepository.java:44 | `addMoney` on a wallet: the balance grows by the number of units received |
| `Model.InvestmentWallet.UpdateAmount` | src/main/java/project/bank/repository/InvestmentRepository.java:60 | the wallet's balance becomes its interest rule applied to the old balance and the given rate |

## Left out

- `Investments.InvestmentRepository.Deposit`: requires the account to hold at least `funds` units. The source applies no funds guard before `reduceMoney`. `reduceMoney` on a short account is left abstract, because the wallet classes are outside this model.
- `Investments.InvestmentRepository.Deposit`, `Investments.InvestmentRepository.Withdraw`: take `funds` as a non-negative amount. The source accepts any `long`. `reduceMoney` with a negative count is left abstract, because the wallet classes are outside this model.
- `Investments.InvestmentRepository.Create`: `initialFunds` is non-negative, for the same reason: seeding a wallet with a negative count is left abstract, because the `InvestmentWallet` constructor is outside this model. The counter is an unbounded integer. The 64-bit `long` wrap-around after 2^63 products is not modelled.
- `Investments.InvestmentRepository.UpdateAmount`: the interest rule of `InvestmentWallet.updateAmount` is outside this model. It is a parameter mapping the balance and the rate to the new balance, so the model states only that each wallet's rule is applied with its own product's rate.
- `Investments.InvestmentRepository.List`, `Investments.InvestmentRepository.ListWallets`: return the current list as a value. The source hands out its live `ArrayList`, which a caller could mutate.
- Audit trail of moved units: balances are counts. The service tag and description that `addMoney` receives (`Aplicação de investimento`, `Resgate de investimento`) are not recorded, and neither are the units' audit histories. The wallet classes are outside this model, so they are left abstract.
- Equality: `accountInUse.contains(account)` and `wallets.remove(wallet)` compare by object identity. The wallet classes are outside this model, so their `equals` is taken to be the default one.
- An account's pix keys are fixed at creation (`const`). The account class is outside this model, so how it stores its keys is left abstract.
- The clock (`OffsetDateTime.now()`) and the random transaction id (`UUID`) are parameters of `GenerateMoney`.
- `Main.java` is not modelled: the console menu, reading input, printing, reporting exceptions and the `R$` display arithmetic are all presentation.
- `AccountRepository` is not part of this model. Only the two shared helpers it uses are modelled. `toString` formatting of products and wallets is left out too.
