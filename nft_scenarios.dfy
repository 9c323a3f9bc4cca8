/*
 * The behaviour that test/test_exampleNFT.ts drives, one method per case or
 * group of related cases.
 * Each starts from the fixture (deploy, then the deployer turns the sale on),
 * sends the same transactions as the test and returns what the test
 * observes; the ensures clauses are the test's expectations, plus the extra
 * facts a method's comment names.
 *
 * Account parameters stand for the test's signers, which are distinct
 * accounts: `owner` is the deployer, the others hold no role.
 */
module NftScenarios {
  import opened NftSpec
  import opened NftContract

  /** The fixture deployExampleNFT: deploy, then flip the sale on. */
  method DeployFixture(owner: Address) returns (c: ExampleNFT)
    ensures fresh(c) && c.Valid()
    ensures c.St() == Deployed(owner).(isSaleActive := true)
  {
    c := new ExampleNFT(owner);
    var r := c.FlipSaleStatus(owner);
  }

  /** "Initial values": the deployer holds all three roles. */
  method AssignedRoles(owner: Address) returns (pauser: bool, minter: bool, admin: bool)
    ensures pauser && minter && admin
  {
    var c := DeployFixture(owner);
    pauser := c.HasRole(PauserRole, owner);
    minter := c.HasRole(MinterRole, owner);
    admin := c.HasRole(AdminRole, owner);
  }

  /** "safeMint() PASS - emit event / different to address": the first mint
      emits MintedNFT(to, 1) and gives token 1 to `to`, not to the caller. */
  method SafeMintToRecipient(owner: Address, to: Address) returns (r: Result<MintedNFT>, holder: Result<Address>)
    ensures r == Ok(MintedNFT(to, 1))
    ensures holder == Ok(to)
  {
    var c := DeployFixture(owner);
    r := c.SafeMint(owner, to);
    holder := c.OwnerOf(1);
  }

  /** "safeMint() FAIL - not MINTER_ROLE". */
  method SafeMintWithoutRole(owner: Address, stranger: Address) returns (r: Result<MintedNFT>)
    requires stranger != owner
    ensures r == Err(MissingRole(MinterRole))
  {
    var c := DeployFixture(owner);
    r := c.SafeMint(stranger, stranger);
  }

  /** "safeMint() FAIL - paused contract": even the minter cannot mint. */
  method SafeMintWhilePaused(owner: Address) returns (r: Result<MintedNFT>)
    ensures r == Err(EnforcedPause)
  {
    var c := DeployFixture(owner);
    var p := c.Pause(owner);
    r := c.SafeMint(owner, owner);
  }

  /** "safeMint() PASS" and "FAIL - mint over limit": mints 1..100 succeed,
      ownerOf(i) is the recipient after the i-th, and the 101st reverts. */
  method SafeMintOverLimit(owner: Address) returns (seen: seq<Result<Address>>, last: Result<MintedNFT>)
    ensures |seen| == MAX_SUPPLY
    ensures forall k :: 0 <= k < |seen| ==> seen[k] == Ok(owner)
    ensures last == Err(MintLimitAchieved)
  {
    var c := DeployFixture(owner);
    seen := [];
    var i := 1;
    while i < MAX_SUPPLY + 1
      invariant 1 <= i <= MAX_SUPPLY + 1
      invariant c.Valid() && c.tokenCounter == i - 1
      invariant !c.paused && NftSpec.HasRole(c.St(), MinterRole, owner)
      invariant |seen| == i - 1
      invariant forall k :: 0 <= k < |seen| ==> seen[k] == Ok(owner)
    {
      var r := c.SafeMint(owner, owner);
      var holder := c.OwnerOf(i);
      seen := seen + [holder];
      i := i + 1;
    }
    last := c.SafeMint(owner, owner);
  }

  /** "payToMint() PASS": distinct payers each pay the price for a token to
      themselves. For every payment the payer's balance falls by the price
      and the contract's rises by it, and the i-th token goes to the i-th
      payer. */
  method PayToMintByPayers(owner: Address, payers: seq<Address>, funds: nat)
    returns (payerDeltas: seq<int>, contractDeltas: seq<int>, holders: seq<Result<Address>>)
    requires |payers| <= MAX_SUPPLY
    requires forall j, k :: 0 <= j < k < |payers| ==> payers[j] != payers[k]
    requires funds >= MINT_PRICE
    ensures |payerDeltas| == |contractDeltas| == |holders| == |payers|
    ensures forall k :: 0 <= k < |payers| ==>
              payerDeltas[k] == -(MINT_PRICE as int) && contractDeltas[k] == MINT_PRICE as int
    ensures forall k :: 0 <= k < |payers| ==> holders[k] == Ok(payers[k])
  {
    var c := DeployFixture(owner);
    var wallets := new Wallets(map a | a in payers :: funds);
    payerDeltas, contractDeltas, holders := [], [], [];
    var i := 0;
    while i < |payers|
      invariant 0 <= i <= |payers|
      invariant c.Valid() && c.tokenCounter == i
      invariant !c.paused && c.isSaleActive
      invariant forall k :: i <= k < |payers| ==> WeiOf(wallets.balances, payers[k]) == funds
      invariant |payerDeltas| == |contractDeltas| == |holders| == i
      invariant forall k :: 0 <= k < i ==>
                  payerDeltas[k] == -(MINT_PRICE as int) && contractDeltas[k] == MINT_PRICE as int
      invariant forall k :: 0 <= k < i ==> holders[k] == Ok(payers[k])
    {
      var payer := payers[i];
      var payerBefore, contractBefore := WeiOf(wallets.balances, payer), c.balance;
      var r := c.PayToMint(payer, payer, MINT_PRICE, wallets);
      payerDeltas := payerDeltas + [WeiOf(wallets.balances, payer) - payerBefore];
      contractDeltas := contractDeltas + [c.balance - contractBefore];
      var holder := c.OwnerOf(i + 1);
      holders := holders + [holder];
      i := i + 1;
    }
  }

  /** "payToMint() PASS - different to address / emit event": the payer's
      balance falls by the price, the contract's rises by the price, the
      event names the recipient, and the recipient owns token 1. */
  method PayToMintMovesPrice(owner: Address, payer: Address, to: Address, funds: nat)
    returns (r: Result<MintedNFT>, payerDelta: int, contractDelta: int, holder: Result<Address>)
    requires funds >= MINT_PRICE
    ensures r == Ok(MintedNFT(to, 1))
    ensures payerDelta == -(MINT_PRICE as int) && contractDelta == MINT_PRICE as int
    ensures holder == Ok(to)
  {
    var c := DeployFixture(owner);
    var wallets := new Wallets(map[payer := funds]);
    var payerBefore, contractBefore := WeiOf(wallets.balances, payer), c.balance;
    r := c.PayToMint(payer, to, MINT_PRICE, wallets);
    payerDelta := WeiOf(wallets.balances, payer) - payerBefore;
    contractDelta := c.balance - contractBefore;
    holder := c.OwnerOf(1);
  }

  /** The three "payToMint() FAIL" cases: sale flipped off, contract paused,
      0.001 ether sent. Each reverts and token 1 stays nonexistent. */
  method PayToMintRejected(owner: Address, payer: Address, funds: nat)
    returns (saleOff: Result<MintedNFT>, whilePaused: Result<MintedNFT>, tooLow: Result<MintedNFT>,
             holders: seq<Result<Address>>)
    requires funds >= MINT_PRICE
    ensures saleOff == Err(SaleNotActive)
    ensures whilePaused == Err(EnforcedPause)
    ensures tooLow == Err(LowPayment)
    ensures holders == [Err(InvalidTokenId), Err(InvalidTokenId), Err(InvalidTokenId)]
  {
    var wallets := new Wallets(map[payer := funds]);

    var c1 := DeployFixture(owner);
    var f := c1.FlipSaleStatus(owner);
    saleOff := c1.PayToMint(payer, payer, MINT_PRICE, wallets);
    var h1 := c1.OwnerOf(1);

    var c2 := DeployFixture(owner);
    var p := c2.Pause(owner);
    whilePaused := c2.PayToMint(payer, payer, MINT_PRICE, wallets);
    var h2 := c2.OwnerOf(1);

    var c3 := DeployFixture(owner);
    tooLow := c3.PayToMint(payer, payer, MINT_PRICE / 10, wallets);
    var h3 := c3.OwnerOf(1);

    holders := [h1, h2, h3];
  }

  /** "payToMint() FAIL - mint over limit": 100 paid mints succeed; then a
      payToMint carrying no value reverts on the cap, not on the price. Extra
      fact, not asserted by the test: the contract has collected 100 times
      the price. */
  method PayToMintOverLimit(owner: Address, buyer: Address, other: Address, funds: nat)
    returns (seen: seq<Result<Address>>, last: Result<MintedNFT>, collected: nat)
    requires funds >= MAX_SUPPLY * MINT_PRICE
    ensures |seen| == MAX_SUPPLY
    ensures forall k :: 0 <= k < |seen| ==> seen[k] == Ok(buyer)
    ensures last == Err(MintLimitAchieved)
    ensures collected == MAX_SUPPLY * MINT_PRICE
  {
    var c := DeployFixture(owner);
    var wallets := new Wallets(map[buyer := funds]);
    seen := [];
    var i := 1;
    while i < MAX_SUPPLY + 1
      invariant 1 <= i <= MAX_SUPPLY + 1
      invariant c.Valid() && c.tokenCounter == i - 1
      invariant !c.paused && c.isSaleActive
      invariant c.balance == (i - 1) * MINT_PRICE
      invariant WeiOf(wallets.balances, buyer) == funds - (i - 1) * MINT_PRICE
      invariant |seen| == i - 1
      invariant forall k :: 0 <= k < |seen| ==> seen[k] == Ok(buyer)
    {
      var r := c.PayToMint(buyer, buyer, MINT_PRICE, wallets);
      var holder := c.OwnerOf(i);
      seen := seen + [holder];
      i := i + 1;
    }
    last := c.PayToMint(other, other, 0, wallets);
    collected := c.balance;
  }

  /** "flipSaleStatus()": the admin turns the sale off again; a stranger's
      attempt reverts and the sale stays on. */
  method FlipSaleStatusByRole(owner: Address, stranger: Address)
    returns (byStranger: Result<()>, afterStranger: bool, byAdmin: Result<()>, afterAdmin: bool)
    requires stranger != owner
    ensures byStranger == Err(MissingRole(AdminRole)) && afterStranger
    ensures byAdmin == Ok(()) && !afterAdmin
  {
    var c := DeployFixture(owner);
    byStranger := c.FlipSaleStatus(stranger);
    afterStranger := c.isSaleActive;
    byAdmin := c.FlipSaleStatus(owner);
    afterAdmin := c.isSaleActive;
  }

  /** "pause()" and "unpause()": only the pauser switches; a stranger's
      attempt reverts and leaves the switch where it was. */
  method PauseByRole(owner: Address, stranger: Address)
    returns (pauseByStranger: Result<()>, pausedAfterStranger: bool,
             pauseByPauser: Result<()>, pausedAfterPauser: bool,
             unpauseByStranger: Result<()>, stillPaused: bool,
             unpauseByPauser: Result<()>, pausedAtEnd: bool)
    requires stranger != owner
    ensures pauseByStranger == Err(MissingRole(PauserRole)) && !pausedAfterStranger
    ensures pauseByPauser == Ok(()) && pausedAfterPauser
    ensures unpauseByStranger == Err(MissingRole(PauserRole)) && stillPaused
    ensures unpauseByPauser == Ok(()) && !pausedAtEnd
  {
    var c := DeployFixture(owner);
    pauseByStranger := c.Pause(stranger);
    pausedAfterStranger := c.paused;
    pauseByPauser := c.Pause(owner);
    pausedAfterPauser := c.paused;
    unpauseByStranger := c.Unpause(stranger);
    stillPaused := c.paused;
    unpauseByPauser := c.Unpause(owner);
    pausedAtEnd := c.paused;
  }

  /** "withdraw() PASS": after one paid mint, the admin's withdrawal takes
      the price out of the contract and into the admin's account. */
  method WithdrawAfterPaidMint(owner: Address, buyer: Address, funds: nat)
    returns (r: Result<nat>, contractDelta: int, ownerDelta: int)
    requires buyer != owner
    requires funds >= MINT_PRICE
    ensures r == Ok(MINT_PRICE)
    ensures contractDelta == -(MINT_PRICE as int) && ownerDelta == MINT_PRICE as int
  {
    var c := DeployFixture(owner);
    var wallets := new Wallets(map[buyer := funds]);
    var m := c.PayToMint(buyer, buyer, MINT_PRICE, wallets);
    var contractBefore, ownerBefore := c.balance, WeiOf(wallets.balances, owner);
    r := c.Withdraw(owner, wallets);
    contractDelta := c.balance - contractBefore;
    ownerDelta := WeiOf(wallets.balances, owner) - ownerBefore;
  }
}
