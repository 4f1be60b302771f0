/** The investment ledger: the products on offer, the wallets of the enrolled accounts, and
    the operations that enrol an account, move units between an account and its wallet, and
    accrue interest. */
module Investments {
  import opened Commons
  import opened Lists
  import opened Model

  /** Product ids are 1, 2, 3, ... in list order, so they are distinct and increasing. */
  predicate IdsSequential(investments: seq<Investment>)
  {
    forall i :: 0 <= i < |investments| ==> investments[i].id == i + 1
  }

  /** The accounts the wallets belong to, in list order (`accountInUse`). */
  function AccountsInUse(wallets: seq<InvestmentWallet>): (r: seq<AccountWallet>)
    ensures |r| == |wallets|
    ensures forall i :: 0 <= i < |wallets| ==> r[i] == wallets[i].account
  {
    seq(|wallets|, i requires 0 <= i < |wallets| => wallets[i].account)
  }

  /** At most one wallet per account. */
  predicate AccountsUnique(wallets: seq<InvestmentWallet>)
  {
    forall i, j :: 0 <= i < j < |wallets| ==> wallets[i].account != wallets[j].account
  }

  /** `findById`: the first product with the id, in list order, or InvestmentNotFound. */
  function FindById(investments: seq<Investment>, id: int): (r: Result<Investment>)
    ensures r.Err? <==> forall i :: 0 <= i < |investments| ==> investments[i].id != id
    ensures r.Err? ==> r.error == InvestmentNotFound
    ensures r.Ok? ==> exists k :: 0 <= k < |investments| && investments[k] == r.value && r.value.id == id &&
                                  forall j :: 0 <= j < k ==> investments[j].id != id
  {
    match FirstIndex(investments, (investment: Investment) => investment.id == id)
    case None => Err(InvestmentNotFound)
    case Some(k) => Ok(investments[k])
  }

  /** `findWalletByAccountPix`: the first wallet whose account has the pix key, in list order,
      or WalletNotFound. */
  function FindWalletByAccountPix(wallets: seq<InvestmentWallet>, pix: string): (r: Result<InvestmentWallet>)
    ensures r.Err? <==> forall i :: 0 <= i < |wallets| ==> pix !in wallets[i].account.pix
    ensures r.Err? ==> r.error == WalletNotFound
    ensures r.Ok? ==> exists k :: 0 <= k < |wallets| && wallets[k] == r.value && pix in r.value.account.pix &&
                                  forall j :: 0 <= j < k ==> pix !in wallets[j].account.pix
  {
    match FirstIndex(wallets, (w: InvestmentWallet) => pix in w.account.pix)
    case None => Err(WalletNotFound)
    case Some(k) => Ok(wallets[k])
  }

  /** With sequential ids, looking up `id` finds the product at position id - 1, and fails
      exactly when id is out of 1 .. |investments|. */
  lemma FindByIdSequential(investments: seq<Investment>, id: int)
    requires IdsSequential(investments)
    ensures FindById(investments, id).Ok? <==> 1 <= id <= |investments|
    ensures FindById(investments, id).Ok? ==> FindById(investments, id).value == investments[id - 1]
  {
    if 1 <= id <= |investments| {
      assert investments[id - 1].id == id;
    }
  }

  /** Appending a wallet keeps one wallet per account exactly when its account had none. */
  lemma AppendAccountsUnique(wallets: seq<InvestmentWallet>, w: InvestmentWallet)
    ensures AccountsUnique(wallets + [w]) <==> AccountsUnique(wallets) && w.account !in AccountsInUse(wallets)
  {
    var s := wallets + [w];
    var accounts := AccountsInUse(wallets);
    if AccountsUnique(s) {
      forall i, j | 0 <= i < j < |wallets| ensures wallets[i].account != wallets[j].account {
        assert s[i] == wallets[i] && s[j] == wallets[j];
      }
      forall i | 0 <= i < |wallets| ensures accounts[i] != w.account {
        assert s[i] == wallets[i] && s[|wallets|] == w;
      }
    }
    if AccountsUnique(wallets) && w.account !in accounts {
      forall i, j | 0 <= i < j < |s| ensures s[i].account != s[j].account {
        if j == |wallets| {
          assert accounts[i] == s[i].account;
        } else {
          assert s[i] == wallets[i] && s[j] == wallets[j];
        }
      }
    }
  }

  /** In a list with one wallet per account, two different wallets belong to different accounts. */
  lemma AccountsUniqueDistinct(wallets: seq<InvestmentWallet>)
    requires AccountsUnique(wallets)
    ensures forall v, w :: v in wallets && w in wallets && v != w ==> v.account != w.account
  {
    forall v, w | v in wallets && w in wallets && v != w ensures v.account != w.account {
      var i :| 0 <= i < |wallets| && wallets[i] == v;
      var j :| 0 <= j < |wallets| && wallets[j] == w;
      assert i != j;
    }
  }

  /** Removing a wallet from a list with one wallet per account keeps that property, and
      leaves no wallet for the removed wallet's account. */
  lemma RemoveAccountsUnique(wallets: seq<InvestmentWallet>, w: InvestmentWallet)
    requires AccountsUnique(wallets)
    requires w in wallets
    ensures AccountsUnique(RemoveFirst(wallets, w))
    ensures w.account !in AccountsInUse(RemoveFirst(wallets, w))
  {
    var k := RemoveFirstAt(wallets, w);
    var r := RemoveFirst(wallets, w);
    forall i, j | 0 <= i < j < |r| ensures r[i].account != r[j].account {
      var i', j' := if i < k then i else i + 1, if j < k then j else j + 1;
      assert r[i] == wallets[i'] && r[j] == wallets[j'];
    }
    var accounts := AccountsInUse(r);
    forall i | 0 <= i < |r| ensures accounts[i] != w.account {
      var i' := if i < k then i else i + 1;
      assert r[i] == wallets[i'] && wallets[k] == w;
    }
  }

  /** Once the wallet is removed, and no other wallet's account holds the pix key, looking
      the key up fails with WalletNotFound. */
  lemma RemovedWalletNotFound(wallets: seq<InvestmentWallet>, w: InvestmentWallet, pix: string)
    requires AccountsUnique(wallets)
    requires w in wallets
    requires forall v :: v in wallets && v != w ==> pix !in v.account.pix
    ensures FindWalletByAccountPix(RemoveFirst(wallets, w), pix) == Err(WalletNotFound)
  {
    RemoveAccountsUnique(wallets, w);
    var r := RemoveFirst(wallets, w);
    forall i | 0 <= i < |r| ensures pix !in r[i].account.pix {
      assert AccountsInUse(r)[i] == r[i].account;
      assert r[i] in r && r[i] != w;
    }
  }

  /** The investment repository: an id counter, the products in creation order and the
      wallets of the enrolled accounts in enrolment order. */
  class InvestmentRepository {
    var nextId: int
    var investments: seq<Investment>
    var wallets: seq<InvestmentWallet>

    /** The repository invariant: ids are 1 .. nextId in list order, every wallet follows a
        listed product, and no two wallets belong to the same account. */
    ghost predicate Valid()
      reads this
    {
      && nextId == |investments|
      && IdsSequential(investments)
      && (forall w :: w in wallets ==> w.investment in investments)
      && AccountsUnique(wallets)
    }

    constructor ()
      ensures Valid()
      ensures nextId == 0 && investments == [] && wallets == []
    {
      nextId := 0;
      investments := [];
      wallets := [];
    }

    /** `create`: registers a product whose id is one above the previous counter, larger than
        every id already given out, at the end of the list. */
    method Create(tax: int, initialFunds: nat) returns (investment: Investment)
      requires Valid()
      modifies this
      ensures Valid()
      ensures nextId == old(nextId) + 1 && investment.id == nextId
      ensures investment.tax == tax && investment.initialFunds == initialFunds
      ensures forall i :: 0 <= i < |old(investments)| ==> old(investments)[i].id < investment.id
      ensures investments == old(investments) + [investment]
      ensures wallets == old(wallets)
    {
      nextId := nextId + 1;
      investment := Investment(nextId, tax, initialFunds);
      investments := investments + [investment];
    }

    /** `initInvestment`: enrols the account in product `id`. It fails, in this order, when the
        account already has a wallet, when no product has the id, and when the account holds
        fewer units than the product's initial funds; a failure changes nothing. On success
        the new wallet, seeded with the initial funds taken from the account, is appended. */
    method InitInvestment(account: AccountWallet, id: int) returns (r: Result<InvestmentWallet>)
      requires Valid()
      modifies this, account
      ensures Valid()
      ensures nextId == old(nextId) && investments == old(investments)
      ensures account in AccountsInUse(old(wallets)) ==> r == Err(AccountWithInvestment)
      ensures account !in AccountsInUse(old(wallets)) && FindById(investments, id).Err? ==>
                r == Err(InvestmentNotFound)
      ensures account !in AccountsInUse(old(wallets)) && FindById(investments, id).Ok? &&
              old(account.funds) < FindById(investments, id).value.initialFunds ==>
                r == Err(NoFunds)
      ensures account !in AccountsInUse(old(wallets)) && FindById(investments, id).Ok? &&
              FindById(investments, id).value.initialFunds <= old(account.funds) ==>
                r.Ok?
      ensures r.Err? ==> wallets == old(wallets) && account.funds == old(account.funds)
      ensures r.Ok? ==>
                && fresh(r.value)
                && r.value.account == account
                && FindById(investments, id) == Ok(r.value.investment)
                && r.value.funds == r.value.investment.initialFunds
                && account.funds == old(account.funds) - r.value.funds
                && wallets == old(wallets) + [r.value]
    {
      if wallets != [] && account in AccountsInUse(wallets) {
        return Err(AccountWithInvestment);
      }
      var found := FindById(investments, id);
      if found.Err? {
        return Err(found.error);
      }
      var investment := found.value;
      var guard := CheckFundsForTransaction(account.funds, investment.initialFunds);
      if guard.Fail? {
        return Err(guard.error);
      }
      var wallet := new InvestmentWallet(investment, account, investment.initialFunds);
      AppendAccountsUnique(wallets, wallet);
      wallets := wallets + [wallet];
      r := Ok(wallet);
    }

    /** `deposit`: moves `funds` units from the account behind the pix key into its wallet;
        the sum of the two balances is kept. Fails with WalletNotFound, changing nothing, when
        no wallet's account has the key. The source applies no funds guard here, so the
        account must hold the units. */
    method Deposit(pix: string, funds: nat) returns (r: Result<InvestmentWallet>)
      requires Valid()
      requires FindWalletByAccountPix(wallets, pix).Ok? ==>
                 funds <= FindWalletByAccountPix(wallets, pix).value.account.funds
      modifies wallets, AccountsInUse(wallets)
      ensures Valid() && unchanged(this)
      ensures r == FindWalletByAccountPix(wallets, pix)
      ensures r.Ok? ==> r.value.funds == old(r.value.funds) + funds
      ensures r.Ok? ==> r.value.account.funds == old(r.value.account.funds) - funds
      ensures r.Ok? ==> r.value.funds + r.value.account.funds == old(r.value.funds + r.value.account.funds)
      ensures forall w :: w in wallets && (r.Err? || w != r.value) ==>
                w.funds == old(w.funds) && w.account.funds == old(w.account.funds)
    {
      r := FindWalletByAccountPix(wallets, pix);
      if r.Ok? {
        var wallet := r.value;
        AccountsUniqueDistinct(wallets);
        var units := wallet.account.ReduceMoney(funds);
        wallet.AddMoney(units);
      }
    }

    /** `withdraw`: moves `funds` units from the wallet behind the pix key back to its account,
        keeping the sum of the two balances. Fails with WalletNotFound, or with NoFunds when
        the wallet holds fewer units, and then changes nothing. A wallet left with 0 units is
        removed, which frees its account to enrol again. */
    method Withdraw(pix: string, funds: nat) returns (r: Result<InvestmentWallet>)
      requires Valid()
      modifies this, wallets, AccountsInUse(wallets)
      ensures Valid()
      ensures nextId == old(nextId) && investments == old(investments)
      ensures old(FindWalletByAccountPix(wallets, pix)).Err? ==> r == Err(WalletNotFound)
      ensures old(FindWalletByAccountPix(wallets, pix)).Ok? ==>
                var w := old(FindWalletByAccountPix(wallets, pix)).value;
                r == if old(w.funds) < funds then Err(NoFunds) else Ok(w)
      ensures r.Err? ==> wallets == old(wallets)
      ensures forall w :: w in old(wallets) && (r.Err? || w != r.value) ==>
                w.funds == old(w.funds) && w.account.funds == old(w.account.funds)
      ensures r.Ok? ==> r.value.funds == old(r.value.funds) - funds
      ensures r.Ok? ==> r.value.account.funds == old(r.value.account.funds) + funds
      ensures r.Ok? ==> wallets == if r.value.funds == 0 then RemoveFirst(old(wallets), r.value) else old(wallets)
      ensures r.Ok? && r.value.funds == 0 ==> r.value.account !in AccountsInUse(wallets)
    {
      var found := FindWalletByAccountPix(wallets, pix);
      if found.Err? {
        return found;
      }
      var wallet := found.value;
      AccountsUniqueDistinct(wallets);
      var guard := CheckFundsForTransaction(wallet.funds, funds);
      if guard.Fail? {
        return Err(guard.error);
      }
      var units := wallet.ReduceMoney(funds);
      wallet.account.AddMoney(units);
      if wallet.funds == 0 {
        RemoveAccountsUnique(wallets, wallet);
        wallets := RemoveFirst(wallets, wallet);
        assert forall w :: w in wallets ==> w in old(wallets);
      }
      r := Ok(wallet);
    }

    /** `updateAmount`: every wallet accrues interest at its own product's rate; no wallet or
        product is added, removed or reordered, and no account changes. */
    method UpdateAmount(accrual: (nat, int) -> nat)
      requires Valid()
      modifies wallets
      ensures Valid() && unchanged(this)
      ensures forall i :: 0 <= i < |wallets| ==>
                wallets[i].funds == accrual(old(wallets[i].funds), wallets[i].investment.tax)
    {
      for i := 0 to |wallets|
        invariant forall k :: 0 <= k < i ==>
                    wallets[k].funds == accrual(old(wallets[k].funds), wallets[k].investment.tax)
        invariant forall k :: i <= k < |wallets| ==> wallets[k].funds == old(wallets[k].funds)
      {
        var w := wallets[i];
        w.UpdateAmount(w.investment.tax, accrual);
      }
    }

    /** `list`: the products, in creation order. */
    method List() returns (r: seq<Investment>)
      requires Valid()
      ensures r == investments
      ensures forall i :: 0 <= i < |r| ==> r[i].id == i + 1
    {
      r := investments;
    }

    /** `listWallets`: the active wallets, in enrolment order, one per account. */
    method ListWallets() returns (r: seq<InvestmentWallet>)
      requires Valid()
      ensures r == wallets && AccountsUnique(r)
    {
      r := wallets;
    }
  }
}
