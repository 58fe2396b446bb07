/** The AIBNFTMarketplace escrow contract as a sequential state machine.

    One object holds the contract's own storage (owner, listing fee, pause
    flag, listings) together with the parts of the chain the contract acts
    on: the ERC-721 registry's owner and approval maps and the ether
    balances of all accounts. Every entry point either succeeds or reverts;
    a revert returns the error kind and leaves the whole state as it was.
 */
module Marketplace {
  import opened Ledger

  const ZeroAddress: Address := 0

  /** A token: the address of its ERC-721 contract and its id there. */
  datatype TokenKey = TokenKey(nft: Address, tokenId: nat)

  /** What `getListing` returns; a price of 0 means "not listed". */
  datatype Listing = Listing(seller: Address, price: nat)

  /** Revert reasons. The first five are the ones the tests expect. */
  datatype Error =
    | IncorrectListingFee        // "Incorrect listing fee paid."
    | NotApproved                // "Marketplace not approved for this NFT."
    | InsufficientFunds          // "Insufficient funds to purchase."
    | NotSeller                  // "You are not the seller of this NFT."
    | EnforcedPause              // Pausable: the contract is paused
    | ExpectedPause              // Pausable: unpause while not paused
    | OwnableUnauthorizedAccount(account: Address)
    | InvalidPrice               // listing at price 0
    | NotListed                  // buying a token that has no listing
    | IncorrectOwner             // ERC-721: `from` does not own the token
    | NonexistentToken           // ERC-721: the token was never minted
    | InvalidApprover            // ERC-721: approve by a non-owner
    | InvalidReceiver            // ERC-721: mint to the zero address
    | InvalidSender              // ERC-721: mint of an existing token

  datatype Outcome = Success | Failure(error: Error)

  /** Events the contract emits. */
  datatype Event = NFTListed(nft: Address, tokenId: nat, seller: Address, price: nat)

  class AIBNFTMarketplace {
    /** The contract's own address. */
    const self: Address
    /** The deployer; there is no ownership transfer in this model. */
    const owner: Address

    var listingFee: nat
    var paused: bool
    /** Active listings; a token without an entry is not listed. */
    var listings: map<TokenKey, Listing>
    /** The NFT registry: current owner and single-token approval. */
    var ownerOf: map<TokenKey, Address>
    var approved: map<TokenKey, Address>
    /** Ether held by every account, this contract included. */
    var ether: Balances
    var log: seq<Event>

    /** Custody and bookkeeping invariant kept by every entry point. */
    ghost predicate Valid()
      reads this
    {
      && self != ZeroAddress
      && owner != ZeroAddress
      && owner != self
      && (forall k :: k in ownerOf ==> ownerOf[k] != ZeroAddress)
      && (forall k :: k in approved ==> k in ownerOf)
      && (forall k :: k in listings ==> listings[k].price > 0 && listings[k].seller != ZeroAddress && listings[k].seller != self)
      // every listed token is held in escrow by the marketplace, with no approval left on it
      && (forall k :: k in listings ==> k in ownerOf && ownerOf[k] == self && k !in approved)
    }

    /** Deployment by `deployer` at address `at`, on a chain whose registry
        and ether balances are given. */
    constructor (deployer: Address, at: Address, fee: nat,
                 tokens: map<TokenKey, Address>, approvals: map<TokenKey, Address>, balances: Balances)
      requires deployer != ZeroAddress && at != ZeroAddress && deployer != at
      requires forall k :: k in tokens ==> tokens[k] != ZeroAddress
      requires forall k :: k in approvals ==> k in tokens
      ensures Valid()
      ensures self == at && owner == deployer && listingFee == fee && !paused
      ensures listings == map[] && log == []
      ensures ownerOf == tokens && approved == approvals && ether == balances
    {
      self := at;
      owner := deployer;
      listingFee := fee;
      paused := false;
      listings := map[];
      ownerOf := tokens;
      approved := approvals;
      ether := balances;
      log := [];
    }

    /** ERC-721 `ownerOf`, with the zero address for a token never minted. */
    function OwnerOf(key: TokenKey): (r: Address)
      requires Valid()
      reads this
      ensures r != ZeroAddress <==> key in ownerOf
      ensures key in listings ==> r == self
    {
      if key in ownerOf then ownerOf[key] else ZeroAddress
    }

    /** The marketplace may move `key` on its owner's behalf. */
    predicate IsApproved(key: TokenKey)
      requires Valid()
      reads this
      // only a minted token that is not already in escrow can carry the approval
      ensures IsApproved(key) ==> key in ownerOf && key !in listings
    {
      key in approved && approved[key] == self
    }

    function GetListingFee(): nat
      reads this
    {
      listingFee
    }

    /** The marketplace's ether; it never exceeds the ether in existence. */
    function GetContractBalance(): (r: nat)
      reads this
      ensures r <= Total(ether)
    {
      BalanceAtMostTotal(ether, self);
      BalanceOf(ether, self)
    }

    /** The stored listing, or the all-zero record when there is none. */
    function GetListing(nft: Address, tokenId: nat): (r: Listing)
      requires Valid()
      reads this
      ensures r.price > 0 <==> TokenKey(nft, tokenId) in listings
      ensures r.price > 0 ==> OwnerOf(TokenKey(nft, tokenId)) == self && r.seller != ZeroAddress
      ensures r.price == 0 ==> r.seller == ZeroAddress
    {
      var key := TokenKey(nft, tokenId);
      if key in listings then listings[key] else Listing(ZeroAddress, 0)
    }

    /** `listNFT(nft, tokenId, price)` sent by `caller` with `value` wei.
        On success the token moves into escrow, the fee into the contract
        and the listing is recorded with the caller as seller. */
    method ListNFT(caller: Address, nft: Address, tokenId: nat, price: nat, value: nat)
      returns (r: Outcome)
      requires Valid()
      requires caller != ZeroAddress && caller != self
      requires value <= BalanceOf(ether, caller)
      modifies this`listings, this`ownerOf, this`approved, this`ether, this`log
      ensures Valid()
      ensures old(paused) ==> r == Failure(EnforcedPause)
      ensures !old(paused) && value != listingFee ==> r == Failure(IncorrectListingFee)
      ensures !old(paused) && value == listingFee && !old(IsApproved(TokenKey(nft, tokenId)))
              ==> r == Failure(NotApproved)
      ensures !old(paused) && value == listingFee && old(IsApproved(TokenKey(nft, tokenId))) && price == 0
              ==> r == Failure(InvalidPrice)
      ensures !old(paused) && value == listingFee && old(IsApproved(TokenKey(nft, tokenId))) && price > 0
              && old(OwnerOf(TokenKey(nft, tokenId))) != caller
              ==> r == Failure(IncorrectOwner)
      ensures r.Success? <==>
              !old(paused) && value == listingFee && old(IsApproved(TokenKey(nft, tokenId)))
              && price > 0 && old(OwnerOf(TokenKey(nft, tokenId))) == caller
      // a token already in escrow cannot be listed a second time
      ensures TokenKey(nft, tokenId) in old(listings) ==> r.Failure?
      ensures r.Failure? ==> unchanged(this)
      ensures r.Success? ==>
              && listings == old(listings)[TokenKey(nft, tokenId) := Listing(caller, price)]
              && ownerOf == old(ownerOf)[TokenKey(nft, tokenId) := self]
              && approved == old(approved) - {TokenKey(nft, tokenId)}
              && ether == Transfer(old(ether), caller, self, value)
              && log == old(log) + [NFTListed(nft, tokenId, caller, price)]
      ensures r.Success? ==>
              && BalanceOf(ether, caller) == old(BalanceOf(ether, caller)) - value
              && GetContractBalance() == old(GetContractBalance()) + value
      ensures Total(ether) == Total(old(ether))
    {
      var key := TokenKey(nft, tokenId);
      if paused {
        return Failure(EnforcedPause);
      }
      if value != listingFee {
        return Failure(IncorrectListingFee);
      }
      if !IsApproved(key) {
        return Failure(NotApproved);
      }
      if price == 0 {
        return Failure(InvalidPrice);
      }
      // the registry's transferFrom(caller, marketplace, tokenId)
      if OwnerOf(key) != caller {
        return Failure(IncorrectOwner);
      }
      ether := Transfer(ether, caller, self, value);
      ownerOf := ownerOf[key := self];
      approved := approved - {key};
      listings := listings[key := Listing(caller, price)];
      log := log + [NFTListed(nft, tokenId, caller, price)];
      r := Success;
    }

    /** `buyNFT(nft, tokenId)` sent by `caller` with `value` wei. On success
        the buyer gets the token, the seller exactly the price, and any
        excess stays with the contract. */
    method BuyNFT(caller: Address, nft: Address, tokenId: nat, value: nat) returns (r: Outcome)
      requires Valid()
      requires caller != ZeroAddress && caller != self
      requires value <= BalanceOf(ether, caller)
      modifies this`listings, this`ownerOf, this`ether
      ensures Valid()
      ensures old(paused) ==> r == Failure(EnforcedPause)
      ensures !old(paused) && TokenKey(nft, tokenId) !in old(listings) ==> r == Failure(NotListed)
      ensures !old(paused) && TokenKey(nft, tokenId) in old(listings)
              && value < old(listings)[TokenKey(nft, tokenId)].price
              ==> r == Failure(InsufficientFunds)
      ensures r.Success? <==>
              !old(paused) && TokenKey(nft, tokenId) in old(listings)
              && value >= old(listings)[TokenKey(nft, tokenId)].price
      ensures r.Failure? ==> unchanged(this)
      ensures r.Success? ==>
              && listings == old(listings) - {TokenKey(nft, tokenId)}
              && ownerOf == old(ownerOf)[TokenKey(nft, tokenId) := caller]
              && ether == Transfer(Transfer(old(ether), caller, self, value), self,
                                   old(listings)[TokenKey(nft, tokenId)].seller,
                                   old(listings)[TokenKey(nft, tokenId)].price)
      ensures r.Success? ==> OwnerOf(TokenKey(nft, tokenId)) == caller && GetListing(nft, tokenId).price == 0
      ensures r.Success? && old(listings)[TokenKey(nft, tokenId)].seller != caller ==>
              && BalanceOf(ether, old(listings)[TokenKey(nft, tokenId)].seller)
                 == old(BalanceOf(ether, listings[TokenKey(nft, tokenId)].seller))
                    + old(listings)[TokenKey(nft, tokenId)].price
              && BalanceOf(ether, caller) == old(BalanceOf(ether, caller)) - value
              && GetContractBalance()
                 == old(GetContractBalance()) + value - old(listings)[TokenKey(nft, tokenId)].price
      ensures Total(ether) == Total(old(ether))
    {
      var key := TokenKey(nft, tokenId);
      if paused {
        return Failure(EnforcedPause);
      }
      if key !in listings {
        return Failure(NotListed);
      }
      var listing := listings[key];
      if value < listing.price {
        return Failure(InsufficientFunds);
      }
      // effects first: the listing is gone before any transfer happens
      listings := listings - {key};
      ether := Transfer(ether, caller, self, value);
      ownerOf := ownerOf[key := caller];
      ether := Transfer(ether, self, listing.seller, listing.price);
      r := Success;
    }

    /** `cancelListing(nft, tokenId)` sent by `caller`: the seller takes the
        token back out of escrow. */
    method CancelListing(caller: Address, nft: Address, tokenId: nat) returns (r: Outcome)
      requires Valid()
      requires caller != ZeroAddress && caller != self
      modifies this`listings, this`ownerOf
      ensures Valid()
      ensures old(paused) ==> r == Failure(EnforcedPause)
      ensures !old(paused) && old(GetListing(nft, tokenId)).seller != caller ==> r == Failure(NotSeller)
      ensures r.Success? <==>
              !old(paused) && TokenKey(nft, tokenId) in old(listings)
              && old(listings)[TokenKey(nft, tokenId)].seller == caller
      ensures r.Failure? ==> unchanged(this)
      ensures r.Success? ==>
              && listings == old(listings) - {TokenKey(nft, tokenId)}
              && ownerOf == old(ownerOf)[TokenKey(nft, tokenId) := caller]
      ensures r.Success? ==> OwnerOf(TokenKey(nft, tokenId)) == caller && GetListing(nft, tokenId).price == 0
    {
      var key := TokenKey(nft, tokenId);
      if paused {
        return Failure(EnforcedPause);
      }
      if GetListing(nft, tokenId).seller != caller {
        return Failure(NotSeller);
      }
      listings := listings - {key};
      ownerOf := ownerOf[key := caller];
      r := Success;
    }

    /** `updateListingFee(newFee)`, owner only; applies to later listings. */
    method UpdateListingFee(caller: Address, newFee: nat) returns (r: Outcome)
      requires Valid()
      modifies this`listingFee
      ensures Valid()
      ensures r.Success? <==> caller == owner
      ensures caller != owner ==> r == Failure(OwnableUnauthorizedAccount(caller)) && listingFee == old(listingFee)
      ensures caller == owner ==> GetListingFee() == newFee
    {
      if caller != owner {
        return Failure(OwnableUnauthorizedAccount(caller));
      }
      listingFee := newFee;
      r := Success;
    }

    /** `withdrawFees()`, owner only: the whole contract balance goes to the owner. */
    method WithdrawFees(caller: Address) returns (r: Outcome)
      requires Valid()
      modifies this`ether
      ensures Valid()
      ensures r.Success? <==> caller == owner
      ensures caller != owner ==> r == Failure(OwnableUnauthorizedAccount(caller)) && ether == old(ether)
      ensures caller == owner ==>
              && ether == Transfer(old(ether), self, owner, old(GetContractBalance()))
              && GetContractBalance() == 0
              && BalanceOf(ether, owner) == old(BalanceOf(ether, owner)) + old(GetContractBalance())
      ensures forall a :: a != self && a != owner ==> BalanceOf(ether, a) == old(BalanceOf(ether, a))
      ensures Total(ether) == Total(old(ether))
    {
      if caller != owner {
        return Failure(OwnableUnauthorizedAccount(caller));
      }
      ether := Transfer(ether, self, owner, GetContractBalance());
      r := Success;
    }

    /** `pause()`, owner only; pausing twice reverts. */
    method Pause(caller: Address) returns (r: Outcome)
      requires Valid()
      modifies this`paused
      ensures Valid()
      ensures caller != owner ==> r == Failure(OwnableUnauthorizedAccount(caller))
      ensures caller == owner && old(paused) ==> r == Failure(EnforcedPause)
      ensures r.Success? <==> caller == owner && !old(paused)
      ensures paused == (old(paused) || r.Success?)
    {
      if caller != owner {
        return Failure(OwnableUnauthorizedAccount(caller));
      }
      if paused {
        return Failure(EnforcedPause);
      }
      paused := true;
      r := Success;
    }

    /** `unpause()`, owner only; unpausing a running contract reverts. */
    method Unpause(caller: Address) returns (r: Outcome)
      requires Valid()
      modifies this`paused
      ensures Valid()
      ensures caller != owner ==> r == Failure(OwnableUnauthorizedAccount(caller))
      ensures caller == owner && !old(paused) ==> r == Failure(ExpectedPause)
      ensures r.Success? <==> caller == owner && old(paused)
      ensures paused == (old(paused) && !r.Success?)
    {
      if caller != owner {
        return Failure(OwnableUnauthorizedAccount(caller));
      }
      if !paused {
        return Failure(ExpectedPause);
      }
      paused := false;
      r := Success;
    }

    /** The mock registry's `mint(to)` of token `tokenId` of contract `nft`. */
    method Mint(nft: Address, tokenId: nat, to: Address) returns (r: Outcome)
      requires Valid()
      modifies this`ownerOf
      ensures Valid()
      ensures to == ZeroAddress ==> r == Failure(InvalidReceiver)
      ensures to != ZeroAddress && TokenKey(nft, tokenId) in old(ownerOf) ==> r == Failure(InvalidSender)
      ensures r.Success? <==> to != ZeroAddress && TokenKey(nft, tokenId) !in old(ownerOf)
      ensures ownerOf == if r.Success? then old(ownerOf)[TokenKey(nft, tokenId) := to] else old(ownerOf)
    {
      var key := TokenKey(nft, tokenId);
      if to == ZeroAddress {
        return Failure(InvalidReceiver);
      }
      if key in ownerOf {
        return Failure(InvalidSender);
      }
      ownerOf := ownerOf[key := to];
      r := Success;
    }

    /** The registry's `approve(spender, tokenId)` sent by the token's owner. */
    method Approve(caller: Address, nft: Address, tokenId: nat, spender: Address) returns (r: Outcome)
      requires Valid()
      requires caller != ZeroAddress && caller != self
      modifies this`approved
      ensures Valid()
      ensures TokenKey(nft, tokenId) !in ownerOf ==> r == Failure(NonexistentToken)
      ensures TokenKey(nft, tokenId) in ownerOf && ownerOf[TokenKey(nft, tokenId)] != caller
              ==> r == Failure(InvalidApprover)
      ensures r.Success? <==> OwnerOf(TokenKey(nft, tokenId)) == caller
      ensures approved == if r.Success? then old(approved)[TokenKey(nft, tokenId) := spender] else old(approved)
    {
      var key := TokenKey(nft, tokenId);
      if key !in ownerOf {
        return Failure(NonexistentToken);
      }
      if ownerOf[key] != caller {
        return Failure(InvalidApprover);
      }
      approved := approved[key := spender];
      r := Success;
    }
  }
}
