/** Abstract models of the entities the repository works on. Their own code is not part of
    this model: a wallet is its balance, `reduceMoney(n)` takes n units out of a wallet that
    holds at least n, `addMoney(units, ...)` puts the units in, and the interest rule of
    `InvestmentWallet.updateAmount` is a parameter. */
module Model {

  /** An investment product: its id, interest rate and the funds needed to enrol. */
  datatype Investment = Investment(id: int, tax: int, initialFunds: nat)

  /** An account wallet: its pix keys and its balance, a count of money units. */
  class AccountWallet {
    const pix: seq<string>
    var funds: nat

    constructor (pix: seq<string>, funds: nat)
      ensures this.pix == pix && this.funds == funds
    {
      this.pix := pix;
      this.funds := funds;
    }

    /** Takes `amount` units out of the account; the caller has made sure they are there. */
    method ReduceMoney(amount: nat) returns (units: nat)
      requires amount <= funds
      modifies this
      ensures units == amount
      ensures funds == old(funds) - amount
    {
      funds := funds - amount;
      units := amount;
    }

    /** Puts `units` units into the account. */
    method AddMoney(units: nat)
      modifies this
      ensures funds == old(funds) + units
    {
      funds := funds + units;
    }
  }

  /** An investment wallet: the product it follows, the account it belongs to and its balance. */
  class InvestmentWallet {
    const investment: Investment
    const account: AccountWallet
    var funds: nat

    /** Opens a wallet seeded with `amount` units taken from the account. */
    constructor (investment: Investment, account: AccountWallet, amount: nat)
      requires amount <= account.funds
      modifies account
      ensures this.investment == investment && this.account == account
      ensures funds == amount
      ensures account.funds == old(account.funds) - amount
    {
      this.investment := investment;
      this.account := account;
      funds := 0;
      new;
      var units := account.ReduceMoney(amount);
      AddMoney(units);
    }

    /** Takes `amount` units out of the wallet; the caller has made sure they are there. */
    method ReduceMoney(amount: nat) returns (units: nat)
      requires amount <= funds
      modifies this
      ensures units == amount
      ensures funds == old(funds) - amount
    {
      funds := funds - amount;
      units := amount;
    }

    /** Puts `units` units into the wallet. */
    method AddMoney(units: nat)
      modifies this
      ensures funds == old(funds) + units
    {
      funds := funds + units;
    }

    /** Accrues interest at rate `percent`; `accrual` is the wallet's own rule, which maps the
        balance and the rate to the new balance. */
    method UpdateAmount(percent: int, accrual: (nat, int) -> nat)
      modifies this
      ensures funds == accrual(old(funds), percent)
    {
      funds := accrual(funds, percent);
    }
  }
}
