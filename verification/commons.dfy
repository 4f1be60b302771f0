/** The helpers shared by the account and investment repositories: the overdraft guard
    and the construction of a batch of money units that share one audit record. */
module Commons {

  /** A transaction id (a Java UUID, 128 bits), supplied by the caller. */
  type Uuid = bv128

  /** The instant read from the clock, supplied by the caller. */
  type Timestamp = int

  /** The service that stamped an audit record. */
  datatype BankService = AccountService | InvestmentService

  /** The audit record of one batch of money units. */
  datatype MoneyAudit = MoneyAudit(transactionId: Uuid, service: BankService, description: string, createdAt: Timestamp)

  /** One indivisible unit of money, carrying the audit record of the batch that created it. */
  datatype Money = Money(audit: MoneyAudit)

  /** The failures the ledger reports, one per exception class of the source. */
  datatype Error =
    | NoFunds               // NoFundsNotFoundException: the balance is below the amount asked for
    | InvestmentNotFound    // InvestimentNotFoundException: no product has the id
    | WalletNotFound        // WalletNotFoundException: no investment wallet for the pix key
    | AccountWithInvestment // AccountWithInvestmentException: the account already has a wallet
    | NegativeLimit         // IllegalArgumentException thrown by Stream.limit on a negative size

  /** A guard that either lets the operation go on or fails. */
  datatype Outcome = Pass | Fail(error: Error)

  /** A value, or the failure raised instead of it. */
  datatype Result<+T> = Ok(value: T) | Err(error: Error)

  /** `checkFundsForTransaction`: fails with NoFunds exactly when the wallet's balance is below
      the amount, so a balance equal to the amount passes. It receives the balance, not the
      wallet, so it cannot change the wallet. */
  function CheckFundsForTransaction(funds: int, amount: int): (r: Outcome)
    ensures r.Fail? <==> funds < amount
    ensures r.Fail? ==> r.error == NoFunds
  {
    if funds < amount then Fail(NoFunds) else Pass
  }

  /** The set of audit records carried by some units. */
  function Audits(units: seq<Money>): set<MoneyAudit>
  {
    set m | m in units :: m.audit
  }

  /** `generateMoney`: `funds` fresh units, every one carrying the same audit record, which holds
      the given transaction id and description, the ACCOUNT service and the current instant. */
  function GenerateMoney(transactionId: Uuid, funds: int, description: string, now: Timestamp): (r: Result<seq<Money>>)
    ensures r.Err? <==> funds < 0
    ensures r.Err? ==> r.error == NegativeLimit
    ensures r.Ok? ==> |r.value| == funds
    ensures r.Ok? ==> forall i :: 0 <= i < |r.value| ==>
                        r.value[i].audit == MoneyAudit(transactionId, AccountService, description, now)
  {
    if funds < 0 then Err(NegativeLimit)
    else
      var history := MoneyAudit(transactionId, AccountService, description, now);
      Ok(seq(funds, _ => Money(history)))
  }

  /** A batch holds exactly one audit record, or none when it is empty. */
  lemma GenerateMoneySharesOneAudit(transactionId: Uuid, funds: nat, description: string, now: Timestamp)
    ensures GenerateMoney(transactionId, funds, description, now).Ok?
    ensures Audits(GenerateMoney(transactionId, funds, description, now).value)
            == if funds == 0 then {} else {MoneyAudit(transactionId, AccountService, description, now)}
  {
    var units := GenerateMoney(transactionId, funds, description, now).value;
    var history := MoneyAudit(transactionId, AccountService, description, now);
    if funds > 0 {
      assert units[0] in units;
      assert history in Audits(units);
    }
  }
}
