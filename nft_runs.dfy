/*
 * Sequences of transactions against one ExampleNFT contract. A run is the
 * serialized order in which the chain executes transactions; every
 * transaction is atomic, so a run is the fold of the step functions of
 * NftSpec. The lemmas here state what holds across any run: ids are issued
 * 1, 2, 3, ... in order to the requested recipients, no token is reassigned,
 * and never more than MAX_SUPPLY tokens exist.
 */
module NftRuns {
  import opened NftSpec

  /** A transaction sent to the contract. */
  datatype Tx =
    | SafeMintTx(caller: Address, to: Address)
    | PayToMintTx(caller: Address, to: Address, value: nat)
    | FlipSaleStatusTx(caller: Address)
    | PauseTx(caller: Address)
    | UnpauseTx(caller: Address)
    | WithdrawTx(caller: Address)

  /** The contract together with the ether of the accounts around it. */
  datatype World = World(nft: State, wallets: Balances)

  /** The world after a run and the MintedNFT events it emitted, in order. */
  datatype Receipt = Receipt(world: World, minted: seq<MintedNFT>)

  /** Going from `s` to `t` issued exactly the tokens of `minted`: their ids
      follow s.tokenCounter in order, each is owned by its event's recipient,
      and every token of `s` keeps its owner. */
  ghost predicate Extends(s: State, t: State, minted: seq<MintedNFT>) {
    && t.tokenCounter == s.tokenCounter + |minted|
    && (forall i :: 0 <= i < |minted| ==> minted[i].tokenId == s.tokenCounter + 1 + i)
    && (forall i :: 0 <= i < |minted| ==>
          minted[i].tokenId in t.owners && t.owners[minted[i].tokenId] == minted[i].to)
    && (forall id :: id in s.owners ==> id in t.owners && t.owners[id] == s.owners[id])
  }

  /** One transaction. A paid mint whose sender cannot fund its value never
      reaches the contract: the network refuses it and nothing changes. */
  function Execute(w: World, tx: Tx): (r: Receipt)
    ensures Inv(w.nft) ==> Inv(r.world.nft) && Extends(w.nft, r.world.nft, r.minted)
    ensures |r.minted| <= 1
  {
    match tx
    case SafeMintTx(caller, to) =>
      var o := SafeMint(w.nft, caller, to);
      Receipt(World(o.post, w.wallets), if o.result.Ok? then [o.result.value] else [])
    case PayToMintTx(caller, to, value) =>
      if value > WeiOf(w.wallets, caller) then Receipt(w, [])
      else
        var o := PayToMint(w.nft, w.wallets, caller, to, value);
        Receipt(World(o.post, o.wallets), if o.result.Ok? then [o.result.value] else [])
    case FlipSaleStatusTx(caller) => Receipt(World(FlipSaleStatus(w.nft, caller).post, w.wallets), [])
    case PauseTx(caller) => Receipt(World(Pause(w.nft, caller).post, w.wallets), [])
    case UnpauseTx(caller) => Receipt(World(Unpause(w.nft, caller).post, w.wallets), [])
    case WithdrawTx(caller) =>
      var o := Withdraw(w.nft, w.wallets, caller);
      Receipt(World(o.post, o.wallets), [])
  }

  /** The transactions of `txs`, executed one after another. */
  function Run(w: World, txs: seq<Tx>): Receipt
    decreases |txs|
  {
    if txs == [] then Receipt(w, [])
    else
      var first := Execute(w, txs[0]);
      var rest := Run(first.world, txs[1..]);
      Receipt(rest.world, first.minted + rest.minted)
  }

  /** Issuing `m1` and then `m2` issues `m1 + m2`. */
  lemma ExtendsTrans(s: State, t: State, u: State, m1: seq<MintedNFT>, m2: seq<MintedNFT>)
    requires Extends(s, t, m1) && Extends(t, u, m2)
    ensures Extends(s, u, m1 + m2)
  {
  }

  /** Across any run from a reachable state: the invariant holds afterwards,
      the MintedNFT events carry the ids counter+1, counter+2, ... in order,
      each of those ids is owned by its event's recipient, and no earlier
      token changes hands. */
  lemma {:induction false} RunIssuesSequentialIds(w: World, txs: seq<Tx>)
    requires Inv(w.nft)
    ensures Inv(Run(w, txs).world.nft)
    ensures Extends(w.nft, Run(w, txs).world.nft, Run(w, txs).minted)
    decreases |txs|
  {
    if txs != [] {
      var first := Execute(w, txs[0]);
      RunIssuesSequentialIds(first.world, txs[1..]);
      ExtendsTrans(w.nft, first.world.nft, Run(first.world, txs[1..]).world.nft,
                   first.minted, Run(first.world, txs[1..]).minted);
    }
  }

  /** From deployment, whatever is sent, at most MAX_SUPPLY tokens are ever
      minted, and the i-th MintedNFT event of the run carries id i + 1. */
  lemma SupplyNeverExceedsCap(deployer: Address, wallets: Balances, txs: seq<Tx>)
    ensures var r := Run(World(Deployed(deployer), wallets), txs);
            && |r.minted| <= MAX_SUPPLY
            && r.world.nft.tokenCounter == |r.minted|
            && forall i :: 0 <= i < |r.minted| ==> r.minted[i].tokenId == i + 1
  {
    RunIssuesSequentialIds(World(Deployed(deployer), wallets), txs);
  }
}
