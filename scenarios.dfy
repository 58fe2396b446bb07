/** The test suite's scenarios, each proved for every choice of distinct
    accounts, fee, price and starting balances that lets the test's calls
    go through, rather than for one run.

    Each method deploys a fresh marketplace the way the suite's outer
    `beforeEach` does, replays one test's calls and returns what that test
    reads back; its postcondition is the test's expectation.
 */
module Scenarios {
  import opened Ledger
  import opened Marketplace

  /** The three signers (owner, seller, buyer) and the two contract
      addresses (the mock NFT and the marketplace) are distinct and non-zero. */
  predicate Accounts(owner: Address, seller: Address, buyer: Address, nft: Address, market: Address)
  {
    && owner != ZeroAddress && seller != ZeroAddress && buyer != ZeroAddress
    && nft != ZeroAddress && market != ZeroAddress
    && owner != seller && owner != buyer && seller != buyer
    && market != owner && market != seller && market != buyer && market != nft
  }

  /** The suite's outer `beforeEach`: token 0 of the mock NFT is minted to
      the seller and the marketplace is deployed by the owner. */
  method Deploy(owner: Address, seller: Address, buyer: Address, nft: Address, market: Address,
                fee: nat, balances: Balances)
    returns (m: AIBNFTMarketplace)
    requires Accounts(owner, seller, buyer, nft, market)
    ensures fresh(m) && m.Valid()
    ensures m.self == market && m.owner == owner && m.listingFee == fee && !m.paused
    ensures m.listings == map[] && m.log == []
    ensures m.ownerOf == map[TokenKey(nft, 0) := seller] && m.approved == map[] && m.ether == balances
  {
    m := new AIBNFTMarketplace(owner, market, fee, map[], map[], balances);
    var minted := m.Mint(nft, 0, seller);
  }

  /** The listing group's beforeEach: the seller approves the marketplace
      for token 0. */
  method DeployAndApprove(owner: Address, seller: Address, buyer: Address, nft: Address, market: Address,
                          fee: nat, balances: Balances)
    returns (m: AIBNFTMarketplace)
    requires Accounts(owner, seller, buyer, nft, market)
    ensures fresh(m) && m.Valid()
    ensures m.self == market && m.owner == owner && m.listingFee == fee && !m.paused
    ensures m.listings == map[] && m.log == []
    ensures m.ownerOf == map[TokenKey(nft, 0) := seller] && m.ether == balances
    ensures m.IsApproved(TokenKey(nft, 0))
  {
    m := Deploy(owner, seller, buyer, nft, market, fee, balances);
    var approval := m.Approve(seller, nft, 0, market);
  }

  /** The buying and cancelling groups' beforeEach: after the approval the
      seller lists token 0 at `price`, paying the fee. */
  method DeployAndList(owner: Address, seller: Address, buyer: Address, nft: Address, market: Address,
                       fee: nat, price: nat, balances: Balances)
    returns (m: AIBNFTMarketplace)
    requires Accounts(owner, seller, buyer, nft, market)
    requires price > 0 && fee <= BalanceOf(balances, seller)
    ensures fresh(m) && m.Valid()
    ensures m.self == market && m.owner == owner && m.listingFee == fee && !m.paused
    ensures m.listings == map[TokenKey(nft, 0) := Listing(seller, price)]
    ensures m.ownerOf == map[TokenKey(nft, 0) := market]
    ensures m.ether == Transfer(balances, seller, market, fee)
  {
    m := DeployAndApprove(owner, seller, buyer, nft, market, fee, balances);
    var listed := m.ListNFT(seller, nft, 0, price, fee);
  }

  /** "Should set the correct owner" and "Should set the initial listing fee". */
  method DeploymentSetsOwnerAndFee(owner: Address, seller: Address, buyer: Address, nft: Address,
                                   market: Address, fee: nat, balances: Balances)
    returns (contractOwner: Address, listingFee: nat)
    requires Accounts(owner, seller, buyer, nft, market)
    ensures contractOwner == owner && listingFee == fee
  {
    var m := Deploy(owner, seller, buyer, nft, market, fee, balances);
    contractOwner := m.owner;
    listingFee := m.GetListingFee();
  }

  /** "Should fail if listing fee is not paid": no value is sent. */
  method ListWithoutFeeFails(owner: Address, seller: Address, buyer: Address, nft: Address,
                             market: Address, fee: nat, price: nat, balances: Balances)
    returns (r: Outcome, tokenOwner: Address)
    requires Accounts(owner, seller, buyer, nft, market)
    requires fee > 0
    ensures r == Failure(IncorrectListingFee) && tokenOwner == seller
  {
    var m := DeployAndApprove(owner, seller, buyer, nft, market, fee, balances);
    r := m.ListNFT(seller, nft, 0, price, 0);
    tokenOwner := m.OwnerOf(TokenKey(nft, 0));
  }

  /** "Should fail if the marketplace is not approved for the NFT": token 1
      is minted to the seller and never approved. */
  method ListUnapprovedFails(owner: Address, seller: Address, buyer: Address, nft: Address,
                             market: Address, fee: nat, price: nat, balances: Balances)
    returns (r: Outcome, tokenOwner: Address)
    requires Accounts(owner, seller, buyer, nft, market)
    requires fee <= BalanceOf(balances, seller)
    ensures r == Failure(NotApproved) && tokenOwner == seller
  {
    var m := DeployAndApprove(owner, seller, buyer, nft, market, fee, balances);
    var minted := m.Mint(nft, 1, seller);
    r := m.ListNFT(seller, nft, 1, price, fee);
    tokenOwner := m.OwnerOf(TokenKey(nft, 1));
  }

  /** "Should successfully list an NFT and lock it". */
  method ListLocksNFT(owner: Address, seller: Address, buyer: Address, nft: Address,
                      market: Address, fee: nat, price: nat, balances: Balances)
    returns (r: Outcome, emitted: seq<Event>, tokenOwner: Address, listing: Listing)
    requires Accounts(owner, seller, buyer, nft, market)
    requires price > 0 && fee <= BalanceOf(balances, seller)
    ensures r == Success && emitted == [NFTListed(nft, 0, seller, price)]
    ensures tokenOwner == market && listing == Listing(seller, price)
  {
    var m := DeployAndApprove(owner, seller, buyer, nft, market, fee, balances);
    r := m.ListNFT(seller, nft, 0, price, fee);
    emitted := m.log;
    tokenOwner := m.OwnerOf(TokenKey(nft, 0));
    listing := m.GetListing(nft, 0);
  }

  /** "Should fail if insufficient ETH is sent". */
  method BuyUnderpaidFails(owner: Address, seller: Address, buyer: Address, nft: Address,
                           market: Address, fee: nat, price: nat, sent: nat, balances: Balances)
    returns (r: Outcome, tokenOwner: Address, listing: Listing)
    requires Accounts(owner, seller, buyer, nft, market)
    requires fee <= BalanceOf(balances, seller) && sent <= BalanceOf(balances, buyer)
    requires sent < price
    ensures r == Failure(InsufficientFunds)
    ensures tokenOwner == market && listing == Listing(seller, price)
  {
    var m := DeployAndList(owner, seller, buyer, nft, market, fee, price, balances);
    r := m.BuyNFT(buyer, nft, 0, sent);
    tokenOwner := m.OwnerOf(TokenKey(nft, 0));
    listing := m.GetListing(nft, 0);
  }

  /** "Should successfully complete the purchase and transfer assets". */
  method BuyTransfersAssets(owner: Address, seller: Address, buyer: Address, nft: Address,
                            market: Address, fee: nat, price: nat, balances: Balances)
    returns (r: Outcome, tokenOwner: Address, sellerInitial: nat, sellerFinal: nat, listedPrice: nat)
    requires Accounts(owner, seller, buyer, nft, market)
    requires price > 0 && fee <= BalanceOf(balances, seller) && price <= BalanceOf(balances, buyer)
    ensures r == Success && tokenOwner == buyer
    ensures sellerFinal == sellerInitial + price
    ensures listedPrice == 0
  {
    var m := DeployAndList(owner, seller, buyer, nft, market, fee, price, balances);
    sellerInitial := BalanceOf(m.ether, seller);
    r := m.BuyNFT(buyer, nft, 0, price);
    tokenOwner := m.OwnerOf(TokenKey(nft, 0));
    sellerFinal := BalanceOf(m.ether, seller);
    listedPrice := m.GetListing(nft, 0).price;
  }

  /** "Should fail if a non-seller tries to cancel". */
  method CancelByOtherFails(owner: Address, seller: Address, buyer: Address, nft: Address,
                            market: Address, fee: nat, price: nat, balances: Balances)
    returns (r: Outcome, tokenOwner: Address)
    requires Accounts(owner, seller, buyer, nft, market)
    requires price > 0 && fee <= BalanceOf(balances, seller)
    ensures r == Failure(NotSeller) && tokenOwner == market
  {
    var m := DeployAndList(owner, seller, buyer, nft, market, fee, price, balances);
    r := m.CancelListing(buyer, nft, 0);
    tokenOwner := m.OwnerOf(TokenKey(nft, 0));
  }

  /** "Should allow the seller to cancel and retrieve the NFT". */
  method CancelReturnsNFT(owner: Address, seller: Address, buyer: Address, nft: Address,
                          market: Address, fee: nat, price: nat, balances: Balances)
    returns (r: Outcome, tokenOwner: Address, listedPrice: nat)
    requires Accounts(owner, seller, buyer, nft, market)
    requires price > 0 && fee <= BalanceOf(balances, seller)
    ensures r == Success && tokenOwner == seller && listedPrice == 0
  {
    var m := DeployAndList(owner, seller, buyer, nft, market, fee, price, balances);
    r := m.CancelListing(seller, nft, 0);
    tokenOwner := m.OwnerOf(TokenKey(nft, 0));
    listedPrice := m.GetListing(nft, 0).price;
  }

  /** "Should allow owner to update the listing fee". */
  method OwnerUpdatesFee(owner: Address, seller: Address, buyer: Address, nft: Address,
                         market: Address, fee: nat, newFee: nat, balances: Balances)
    returns (r: Outcome, listingFee: nat)
    requires Accounts(owner, seller, buyer, nft, market)
    ensures r == Success && listingFee == newFee
  {
    var m := Deploy(owner, seller, buyer, nft, market, fee, balances);
    r := m.UpdateListingFee(owner, newFee);
    listingFee := m.GetListingFee();
  }

  /** "Should allow owner to withdraw fees": after one listing the owner
      gains exactly the contract balance, which is the one fee paid. */
  method OwnerWithdrawsFees(owner: Address, seller: Address, buyer: Address, nft: Address,
                            market: Address, fee: nat, price: nat, balances: Balances)
    returns (r: Outcome, ownerInitial: nat, contractBalance: nat, ownerFinal: nat, contractFinal: nat)
    requires Accounts(owner, seller, buyer, nft, market)
    requires price > 0 && fee <= BalanceOf(balances, seller)
    requires BalanceOf(balances, market) == 0
    ensures r == Success
    ensures ownerFinal == ownerInitial + contractBalance
    ensures contractBalance == fee && contractFinal == 0
  {
    var m := DeployAndList(owner, seller, buyer, nft, market, fee, price, balances);
    ownerInitial := BalanceOf(m.ether, owner);
    contractBalance := m.GetContractBalance();
    r := m.WithdrawFees(owner);
    ownerFinal := BalanceOf(m.ether, owner);
    contractFinal := m.GetContractBalance();
  }

  /** "Should allow owner to pause and unpause the contract": listing is
      refused while paused, and the very same call succeeds after unpause. */
  method PauseBlocksListing(owner: Address, seller: Address, buyer: Address, nft: Address,
                            market: Address, fee: nat, price: nat, balances: Balances)
    returns (whilePaused: Outcome, afterUnpause: Outcome, tokenOwner: Address)
    requires Accounts(owner, seller, buyer, nft, market)
    requires price > 0 && fee <= BalanceOf(balances, seller)
    ensures whilePaused == Failure(EnforcedPause)
    ensures afterUnpause == Success && tokenOwner == market
  {
    var m := Deploy(owner, seller, buyer, nft, market, fee, balances);
    var paused := m.Pause(owner);
    var approval := m.Approve(seller, nft, 0, market);
    whilePaused := m.ListNFT(seller, nft, 0, price, fee);
    var unpaused := m.Unpause(owner);
    afterUnpause := m.ListNFT(seller, nft, 0, price, fee);
    tokenOwner := m.OwnerOf(TokenKey(nft, 0));
  }

  /** Listing and then cancelling, on any reachable state, gives the token
      back and leaves the listings as they were; only the fee is kept. */
  method ListThenCancel(m: AIBNFTMarketplace, seller: Address, nft: Address, tokenId: nat, price: nat)
    returns (listed: Outcome, cancelled: Outcome)
    requires m.Valid()
    requires seller != ZeroAddress && seller != m.self
    requires m.listingFee <= BalanceOf(m.ether, seller)
    modifies m`listings, m`ownerOf, m`approved, m`ether, m`log
    ensures m.Valid()
    ensures listed.Success? ==> cancelled == Success
    ensures listed.Success? ==>
            && m.ownerOf == old(m.ownerOf)
            && m.listings == old(m.listings)
            && m.approved == old(m.approved) - {TokenKey(nft, tokenId)}
            && m.ether == Transfer(old(m.ether), seller, m.self, m.listingFee)
            && m.log == old(m.log) + [NFTListed(nft, tokenId, seller, price)]
    ensures listed.Failure? ==> unchanged(m)
  {
    listed := m.ListNFT(seller, nft, tokenId, price, m.listingFee);
    if listed.Failure? {
      return listed, listed;
    }
    cancelled := m.CancelListing(seller, nft, tokenId);
    assert m.ownerOf == old(m.ownerOf);
    assert m.listings == old(m.listings);
  }
}
