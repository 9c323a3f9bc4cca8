/*
 * The deployed ExampleNFT contract as an object whose storage the
 * transactions update in place. Each method is one transaction: it checks
 * the same conditions, in the same order, as the matching function of
 * NftSpec, and is proved to leave exactly the state, and produce exactly the
 * outcome, that the function describes.
 */
module NftContract {
  import opened NftSpec

  /** The ether balances of the accounts outside the contract. */
  class Wallets {
    var balances: Balances

    constructor (initial: Balances)
      ensures balances == initial
    {
      balances := initial;
    }
  }

  class ExampleNFT {
    var tokenCounter: nat
    var owners: map<nat, Address>
    var roles: map<Role, set<Address>>
    var paused: bool
    var isSaleActive: bool
    /** The contract's own ether balance, in wei. */
    var balance: nat

    /** The storage as a value of NftSpec. */
    function St(): State
      reads this
    {
      State(tokenCounter, owners, roles, paused, isSaleActive, balance)
    }

    ghost predicate Valid()
      reads this
    {
      Inv(St())
    }

    /** Deployment: the deployer is admin, minter and pauser; the sale is off. */
    constructor (deployer: Address)
      ensures Valid()
      ensures St() == Deployed(deployer)
    {
      tokenCounter := 0;
      owners := map[];
      roles := map[AdminRole := {deployer}, MinterRole := {deployer}, PauserRole := {deployer}];
      paused := false;
      isSaleActive := false;
      balance := 0;
    }

    method HasRole(role: Role, account: Address) returns (b: bool)
      ensures b == NftSpec.HasRole(St(), role, account)
    {
      b := role in roles && account in roles[role];
    }

    method OwnerOf(id: nat) returns (r: Result<Address>)
      requires Valid()
      ensures r == NftSpec.OwnerOf(St(), id)
      ensures r.Ok? <==> 1 <= id <= tokenCounter
    {
      if id in owners {
        r := Ok(owners[id]);
      } else {
        r := Err(InvalidTokenId);
      }
    }

    method SafeMint(caller: Address, to: Address) returns (r: Result<MintedNFT>)
      requires Valid()
      modifies this
      ensures Valid()
      ensures Step(r, St()) == NftSpec.SafeMint(old(St()), caller, to)
    {
      var authorized := HasRole(MinterRole, caller);
      if !authorized {
        return Err(MissingRole(MinterRole));
      }
      if paused {
        return Err(EnforcedPause);
      }
      if tokenCounter >= MAX_SUPPLY {
        return Err(MintLimitAchieved);
      }
      tokenCounter := tokenCounter + 1;
      owners := owners[tokenCounter := to];
      r := Ok(MintedNFT(to, tokenCounter));
    }

    method PayToMint(caller: Address, to: Address, value: nat, wallets: Wallets) returns (r: Result<MintedNFT>)
      requires Valid()
      requires value <= WeiOf(wallets.balances, caller)
      modifies this, wallets
      ensures Valid()
      ensures Paid(r, St(), wallets.balances)
              == NftSpec.PayToMint(old(St()), old(wallets.balances), caller, to, value)
    {
      if paused {
        return Err(EnforcedPause);
      }
      if !isSaleActive {
        return Err(SaleNotActive);
      }
      if tokenCounter >= MAX_SUPPLY {
        return Err(MintLimitAchieved);
      }
      if value < MINT_PRICE {
        return Err(LowPayment);
      }
      wallets.balances := wallets.balances[caller := WeiOf(wallets.balances, caller) - value];
      balance := balance + value;
      tokenCounter := tokenCounter + 1;
      owners := owners[tokenCounter := to];
      r := Ok(MintedNFT(to, tokenCounter));
    }

    method FlipSaleStatus(caller: Address) returns (r: Result<()>)
      requires Valid()
      modifies this
      ensures Valid()
      ensures Step(r, St()) == NftSpec.FlipSaleStatus(old(St()), caller)
    {
      var authorized := HasRole(AdminRole, caller);
      if !authorized {
        return Err(MissingRole(AdminRole));
      }
      isSaleActive := !isSaleActive;
      r := Ok(());
    }

    method Pause(caller: Address) returns (r: Result<()>)
      requires Valid()
      modifies this
      ensures Valid()
      ensures Step(r, St()) == NftSpec.Pause(old(St()), caller)
    {
      var authorized := HasRole(PauserRole, caller);
      if !authorized {
        return Err(MissingRole(PauserRole));
      }
      if paused {
        return Err(EnforcedPause);
      }
      paused := true;
      r := Ok(());
    }

    method Unpause(caller: Address) returns (r: Result<()>)
      requires Valid()
      modifies this
      ensures Valid()
      ensures Step(r, St()) == NftSpec.Unpause(old(St()), caller)
    {
      var authorized := HasRole(PauserRole, caller);
      if !authorized {
        return Err(MissingRole(PauserRole));
      }
      if !paused {
        return Err(ExpectedPause);
      }
      paused := false;
      r := Ok(());
    }

    /** On success the result is the amount sent to the caller. */
    method Withdraw(caller: Address, wallets: Wallets) returns (r: Result<nat>)
      requires Valid()
      modifies this, wallets
      ensures Valid()
      ensures Paid(r, St(), wallets.balances) == NftSpec.Withdraw(old(St()), old(wallets.balances), caller)
    {
      var authorized := HasRole(AdminRole, caller);
      if !authorized {
        return Err(MissingRole(AdminRole));
      }
      r := Ok(balance);
      wallets.balances := wallets.balances[caller := WeiOf(wallets.balances, caller) + balance];
      balance := 0;
    }
  }
}
