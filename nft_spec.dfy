/*
 * The ExampleNFT contract as a state machine on values.
 *
 * Every public operation of the contract is a function from the state before
 * the transaction to a Step (or, when ether moves, a Paid) that carries the
 * outcome and the state afterwards. A reverted transaction leaves the state as
 * it was; a successful one performs one atomic update. The class in
 * nft_contract.dfy is proved to behave exactly like these functions.
 */
module NftSpec {

  /** An account address. Its 160-bit width plays no role in the contract. */
  type Address = nat

  /** The supply cap: at most this many tokens are ever minted. */
  const MAX_SUPPLY: nat := 100

  /** The price of a paid mint, 0.01 ether, in wei. */
  const MINT_PRICE: nat := 10_000_000_000_000_000

  /** The three roles of the contract's access-control registry. */
  datatype Role = AdminRole | MinterRole | PauserRole

  /** Why a transaction reverted: one constructor per revert reason. */
  datatype Error =
    | MissingRole(role: Role)   // "AccessControl: account ... is missing role ..."
    | EnforcedPause             // "Pausable: paused"
    | ExpectedPause             // "Pausable: not paused"
    | SaleNotActive             // "Sale not active"
    | MintLimitAchieved         // "Mint limit achieved"
    | LowPayment                // "Send to low ETH to mint NFT"
    | InvalidTokenId            // "ERC721: invalid token ID"

  datatype Result<T> = Ok(value: T) | Err(error: Error)

  /** The MintedNFT(to, tokenId) event. */
  datatype MintedNFT = MintedNFT(to: Address, tokenId: nat)

  /** The contract's storage, together with the ether it holds (in wei). */
  datatype State = State(
    tokenCounter: nat,
    owners: map<nat, Address>,
    roles: map<Role, set<Address>>,
    paused: bool,
    isSaleActive: bool,
    balance: nat)

  /** Ether held by the accounts outside the contract, in wei. */
  type Balances = map<Address, nat>

  /** The outcome of a transaction that moves no ether. */
  datatype Step<T> = Step(result: Result<T>, post: State)

  /** The outcome of a transaction that moves ether between an account and the contract. */
  datatype Paid<T> = Paid(result: Result<T>, post: State, wallets: Balances)

  /** An account that has never been seen holds no ether. */
  function WeiOf(w: Balances, a: Address): nat {
    if a in w then w[a] else 0
  }

  /** The state every reachable contract is in: the counter is within the cap
      and exactly the ids 1..tokenCounter have an owner. */
  ghost predicate Inv(s: State) {
    && s.tokenCounter <= MAX_SUPPLY
    && forall id :: id in s.owners <==> 1 <= id <= s.tokenCounter
  }

  /** hasRole(role, account). */
  predicate HasRole(s: State, role: Role, account: Address) {
    role in s.roles && account in s.roles[role]
  }

  /** The state after deployment by `deployer`. */
  function Deployed(deployer: Address): (s: State)
    ensures Inv(s)
    ensures HasRole(s, AdminRole, deployer) && HasRole(s, MinterRole, deployer) && HasRole(s, PauserRole, deployer)
    ensures forall role: Role, a: Address :: HasRole(s, role, a) ==> a == deployer
    ensures s.tokenCounter == 0 && s.owners == map[]
    ensures !s.paused && !s.isSaleActive && s.balance == 0
  {
    State(0, map[], map[AdminRole := {deployer}, MinterRole := {deployer}, PauserRole := {deployer}],
          false, false, 0)
  }

  /** `t` is `s` after issuing token `e` to `to`: the next id, owned by `to`,
      with the registry and both switches untouched. */
  ghost predicate MintsNext(s: State, t: State, to: Address, e: MintedNFT) {
    && e == MintedNFT(to, s.tokenCounter + 1)
    && t.tokenCounter == e.tokenId
    && t.owners == s.owners[e.tokenId := to]
    && t.roles == s.roles && t.paused == s.paused && t.isSaleActive == s.isSaleActive
  }

  /** The shared issuing step of both mint paths: increment the counter, then
      give the new id to `to`. */
  function Issue(s: State, to: Address): State {
    var id := s.tokenCounter + 1;
    s.(tokenCounter := id, owners := s.owners[id := to])
  }

  /** safeMint(to) sent by `caller`. */
  function SafeMint(s: State, caller: Address, to: Address): (o: Step<MintedNFT>)
    ensures Inv(s) ==> Inv(o.post)
    ensures o.result.Ok? <==> HasRole(s, MinterRole, caller) && !s.paused && s.tokenCounter < MAX_SUPPLY
    ensures !HasRole(s, MinterRole, caller) ==> o.result == Err(MissingRole(MinterRole))
    ensures HasRole(s, MinterRole, caller) && s.paused ==> o.result == Err(EnforcedPause)
    ensures HasRole(s, MinterRole, caller) && !s.paused && s.tokenCounter >= MAX_SUPPLY
            ==> o.result == Err(MintLimitAchieved)
    ensures o.result.Err? ==> o.post == s
    ensures o.result.Ok? ==> MintsNext(s, o.post, to, o.result.value) && o.post.balance == s.balance
    ensures o.result.Ok? && Inv(s) ==> o.result.value.tokenId !in s.owners
  {
    if !HasRole(s, MinterRole, caller) then Step(Err(MissingRole(MinterRole)), s)
    else if s.paused then Step(Err(EnforcedPause), s)
    else if s.tokenCounter >= MAX_SUPPLY then Step(Err(MintLimitAchieved), s)
    else Step(Ok(MintedNFT(to, s.tokenCounter + 1)), Issue(s, to))
  }

  /** payToMint(to) sent by `caller` with `value` wei attached. The network
      only admits a transaction whose sender can fund the value it carries. */
  function PayToMint(s: State, w: Balances, caller: Address, to: Address, value: nat): (o: Paid<MintedNFT>)
    requires value <= WeiOf(w, caller)
    ensures Inv(s) ==> Inv(o.post)
    ensures o.result.Ok? <==>
              !s.paused && s.isSaleActive && s.tokenCounter < MAX_SUPPLY && value >= MINT_PRICE
    ensures s.paused ==> o.result == Err(EnforcedPause)
    ensures !s.paused && !s.isSaleActive ==> o.result == Err(SaleNotActive)
    ensures !s.paused && s.isSaleActive && s.tokenCounter >= MAX_SUPPLY ==> o.result == Err(MintLimitAchieved)
    ensures !s.paused && s.isSaleActive && s.tokenCounter < MAX_SUPPLY && value < MINT_PRICE
            ==> o.result == Err(LowPayment)
    ensures o.result.Err? ==> o.post == s && o.wallets == w
    ensures o.result.Ok? ==> MintsNext(s, o.post, to, o.result.value)
    ensures o.result.Ok? && Inv(s) ==> o.result.value.tokenId !in s.owners
    // the caller pays exactly what the contract receives; no other account changes
    ensures o.result.Ok? ==>
              && o.post.balance == s.balance + value
              && WeiOf(o.wallets, caller) == WeiOf(w, caller) - value
              && forall a :: a != caller ==> WeiOf(o.wallets, a) == WeiOf(w, a)
  {
    if s.paused then Paid(Err(EnforcedPause), s, w)
    else if !s.isSaleActive then Paid(Err(SaleNotActive), s, w)
    else if s.tokenCounter >= MAX_SUPPLY then Paid(Err(MintLimitAchieved), s, w)
    else if value < MINT_PRICE then Paid(Err(LowPayment), s, w)
    else
      var t := Issue(s, to);
      Paid(Ok(MintedNFT(to, s.tokenCounter + 1)), t.(balance := s.balance + value),
           w[caller := WeiOf(w, caller) - value])
  }

  /** flipSaleStatus() sent by `caller`. */
  function FlipSaleStatus(s: State, caller: Address): (o: Step<()>)
    ensures o.result.Ok? <==> HasRole(s, AdminRole, caller)
    ensures o.result.Err? ==> o.result.error == MissingRole(AdminRole) && o.post == s
    ensures o.result.Ok? ==> o.post.isSaleActive == !s.isSaleActive
    ensures o.post == s.(isSaleActive := o.post.isSaleActive)
  {
    if !HasRole(s, AdminRole, caller) then Step(Err(MissingRole(AdminRole)), s)
    else Step(Ok(()), s.(isSaleActive := !s.isSaleActive))
  }

  /** pause() sent by `caller`. */
  function Pause(s: State, caller: Address): (o: Step<()>)
    ensures o.result.Ok? <==> HasRole(s, PauserRole, caller) && !s.paused
    ensures !HasRole(s, PauserRole, caller) ==> o.result == Err(MissingRole(PauserRole))
    ensures HasRole(s, PauserRole, caller) && s.paused ==> o.result == Err(EnforcedPause)
    ensures o.result.Err? ==> o.post == s
    ensures o.result.Ok? ==> o.post == s.(paused := true)
  {
    if !HasRole(s, PauserRole, caller) then Step(Err(MissingRole(PauserRole)), s)
    else if s.paused then Step(Err(EnforcedPause), s)
    else Step(Ok(()), s.(paused := true))
  }

  /** unpause() sent by `caller`. */
  function Unpause(s: State, caller: Address): (o: Step<()>)
    ensures o.result.Ok? <==> HasRole(s, PauserRole, caller) && s.paused
    ensures !HasRole(s, PauserRole, caller) ==> o.result == Err(MissingRole(PauserRole))
    ensures HasRole(s, PauserRole, caller) && !s.paused ==> o.result == Err(ExpectedPause)
    ensures o.result.Err? ==> o.post == s
    ensures o.result.Ok? ==> o.post == s.(paused := false)
  {
    if !HasRole(s, PauserRole, caller) then Step(Err(MissingRole(PauserRole)), s)
    else if !s.paused then Step(Err(ExpectedPause), s)
    else Step(Ok(()), s.(paused := false))
  }

  /** withdraw() sent by `caller`; on success the result is the amount moved. */
  function Withdraw(s: State, w: Balances, caller: Address): (o: Paid<nat>)
    ensures o.result.Ok? <==> HasRole(s, AdminRole, caller)
    ensures o.result.Err? ==> o.result.error == MissingRole(AdminRole) && o.post == s && o.wallets == w
    // the whole balance goes to the caller: the contract's decrease is the caller's increase
    ensures o.result.Ok? ==>
              && o.result.value == s.balance
              && o.post == s.(balance := 0)
              && WeiOf(o.wallets, caller) == WeiOf(w, caller) + s.balance
              && forall a :: a != caller ==> WeiOf(o.wallets, a) == WeiOf(w, a)
  {
    if !HasRole(s, AdminRole, caller) then Paid(Err(MissingRole(AdminRole)), s, w)
    else Paid(Ok(s.balance), s.(balance := 0), w[caller := WeiOf(w, caller) + s.balance])
  }

  /** ownerOf(id): only minted ids have an owner. */
  function OwnerOf(s: State, id: nat): (r: Result<Address>)
    ensures Inv(s) ==> (r.Ok? <==> 1 <= id <= s.tokenCounter)
    ensures r.Ok? ==> id in s.owners && r.value == s.owners[id]
    ensures r.Err? ==> r.error == InvalidTokenId && id !in s.owners
  {
    if id in s.owners then Ok(s.owners[id]) else Err(InvalidTokenId)
  }
}
