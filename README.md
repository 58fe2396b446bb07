# AIBNFTMarketplace — a verified model of the NFT escrow marketplace

`AIBNFTMarketplace` is a Solidity contract. A seller lists an ERC-721 token
at a price and pays a flat listing fee. The token then moves into the
contract's custody. A buyer who sends at least the price gets the token, and
the seller is paid the price. The seller may cancel instead and take the
token back. The owner can change the fee, withdraw the contract's ether, and
pause or unpause the contract.

The contract's own source is not part of this model. Its behaviour is
modelled from what the Hardhat suite `test/AIBNFTMarketplace.test.js`
asserts. Where the suite says nothing, the model makes an explicit choice,
listed under "Choices" below.

- `ledger.dfy`, module `Ledger`: ether balances of all accounts. `Transfer`
  moves value between two accounts and is proved to keep the total amount of
  ether constant (`Total`, `TotalRemove`, `TotalUpdate`).
- `marketplace.dfy`, module `Marketplace`: class `AIBNFTMarketplace`. It
  holds the contract's storage (`owner`, `listingFee`, `paused`, `listings`)
  and the chain state the contract acts on: the NFT registry's `ownerOf` and
  `approved` maps, the `ether` balances, and an event `log`. Each entry point
  returns `Success` or `Failure(error)`. A failure leaves the object
  unchanged, the way a revert does. Every entry point keeps `Valid()`. Under
  `Valid()`, every listed token has a price above 0 and a seller who is
  neither the zero address nor the marketplace. The marketplace owns every
  listed token, and no approval remains on it. Each method that moves ether
  also proves that the total amount of ether is unchanged. The getter
  `GetListingFee` is a plain read of the fee.
- `scenarios.dfy`, module `Scenarios`: each `it` block of the suite is a
  method. The method deploys a fresh marketplace the way the `beforeEach`
  hooks do, replays the test's calls, and returns the values the test reads
  back. Its postcondition is the test's expectation. It is proved for all
  distinct accounts, and for any fee, price and starting balances that let
  the test's calls go through. Typically that means a price above 0, a
  seller and a buyer who hold what they send, a positive fee where the test
  relies on one, and a marketplace that starts with 0 wei in the withdrawal
  test. `ListThenCancel`
  proves the custody round trip on any valid state.

`ListNFT`, `BuyNFT`, `CancelListing` and `Approve` require that the caller
is neither the zero address nor the marketplace itself. A transaction's
sender is never `address(0)`, and the contract never calls its own entry
points. The owner-only methods need neither requirement, because they
compare the caller with the non-zero `owner`. A payable call also requires
the sender to hold the value it sends, as the chain does.

### Choices where the suite is silent

- `listNFT` checks in this order: pause, fee (`value == listingFee`
  exactly), marketplace approval (`getApproved(tokenId) == marketplace`),
  `price > 0` (`InvalidPrice`), and then the registry's `transferFrom`, which
  fails with `IncorrectOwner` when the caller does not own the token. A
  token that is already listed cannot be listed again. By `Valid()` it has
  no approval left, so the call fails.
- `buyNFT` checks pause, then that a listing exists (`NotListed`), then
  `value >= price`. Any overpayment stays in the contract and becomes part of
  what `withdrawFees` pays out.
- `cancelListing` compares the caller with `getListing(...).seller`. On a
  token that is not listed, that seller is the zero address, so the call
  fails with `NotSeller`.
- Only `listNFT`, `buyNFT` and `cancelListing` are blocked by the pause.
  `updateListingFee`, `withdrawFees`, `pause` and `unpause` are owner-only
  and fail with `OwnableUnauthorizedAccount(caller)`. `pause` while paused
  fails with `EnforcedPause`; `unpause` while running fails with
  `ExpectedPause`. These are the error names of OpenZeppelin's Ownable and
  Pausable contracts; the suite's `EnforcedPause` is one of them.
- `withdrawFees` sends the whole contract balance to the owner. On a zero
  balance it succeeds and moves nothing.
- The mock registry: `Mint(nft, tokenId, to)` fails for the zero receiver
  and for a token already minted. `Approve` fails for a token never minted
  and for a caller that does not own the token. A transfer clears the token's
  approval, as ERC-721 does.
- The suite checks only the name of the `NFTListed` event. The field
  layout `NFTListed(nft, tokenId, seller, price)` is a choice of this model,
  and so is `ListLocksNFT`'s claim about the logged fields.

## Model

| member | source | states |
|---|---|---|
| Ledger.Transfer | test/AIBNFTMarketplace.test.js:93-104 | the sender loses exactly the amount, the receiver gains exactly the amount, every other balance stays the same, and the total amount of ether is unchanged |
| Ledger.TotalUpdate | test/AIBNFTMarketplace.test.js:93-104 | setting one account's balance changes the total by exactly the difference between the new and the old balance; this is the proof step behind `Ledger.Transfer`'s conservation of total ether, which underlies the seller's exact gain the test checks |
| Ledger.BalanceAtMostTotal | test/AIBNFTMarketplace.test.js:149 | no account, the marketplace included, holds more than the total ether of all accounts |
| Marketplace.AIBNFTMarketplace.constructor | test/AIBNFTMarketplace.test.js:26-29 | the deployer becomes the owner, the fee is the constructor argument, the contract is not paused and has no listings, and the invariant holds |
| Marketplace.AIBNFTMarketplace.OwnerOf | test/AIBNFTMarketplace.test.js:70 | the registry's `ownerOf`: it is non-zero exactly when the token was minted, and it is the marketplace for every listed token (the reads at lines 70, 99 and 128) |
| Marketplace.AIBNFTMarketplace.IsApproved | test/AIBNFTMarketplace.test.js:56-62 | the approval check behind NotApproved; an approved token is minted and not already in escrow |
| Marketplace.AIBNFTMarketplace.GetContractBalance | test/AIBNFTMarketplace.test.js:149 | `getContractBalance()`: the marketplace's ether, never more than the total ether of all accounts |
| Marketplace.AIBNFTMarketplace.GetListingFee | test/AIBNFTMarketplace.test.js:141 | `getListingFee()`: a plain read of the current fee, with no contract of its own; what it returns after deployment and after an update is proved in `Scenarios.DeploymentSetsOwnerAndFee` and `Scenarios.OwnerUpdatesFee` |
| Marketplace.AIBNFTMarketplace.GetListing | test/AIBNFTMarketplace.test.js:73-75 | the price is above 0 exactly when the token is listed; a listed token is held by the marketplace and has a non-zero seller; a missing listing has the zero seller |
| Marketplace.AIBNFTMarketplace.ListNFT | test/AIBNFTMarketplace.test.js:50-76 | paused gives EnforcedPause; a wrong fee gives IncorrectListingFee; a missing approval gives NotApproved; success holds exactly when every check passes; failure changes nothing; success moves the token to the marketplace, records (caller, price), moves the fee from the caller to the contract, clears the approval, logs NFTListed and keeps total ether; a listed token cannot be listed again |
| Marketplace.AIBNFTMarketplace.BuyNFT | test/AIBNFTMarketplace.test.js:86-108 | paused gives EnforcedPause, no listing gives NotListed, value below the price gives InsufficientFunds; failure changes nothing; success makes the buyer the owner and removes the listing; when the buyer is not the seller, the seller gains exactly the price, the buyer loses the value sent, the contract keeps value minus price, and total ether is unchanged |
| Marketplace.AIBNFTMarketplace.CancelListing | test/AIBNFTMarketplace.test.js:118-133 | paused gives EnforcedPause; a caller other than the listing's seller gets NotSeller; success holds exactly when the caller is the seller of an active listing, and then the token goes back to the seller and the listing price reads 0; failure changes nothing |
| Marketplace.AIBNFTMarketplace.UpdateListingFee | test/AIBNFTMarketplace.test.js:138-142 | the owner sets the fee to the new value; anyone else gets OwnableUnauthorizedAccount and the fee stays; nothing else changes |
| Marketplace.AIBNFTMarketplace.WithdrawFees | test/AIBNFTMarketplace.test.js:144-157 | the owner receives exactly the whole contract balance and the contract is left with 0; no other balance changes; total ether is unchanged; others get OwnableUnauthorizedAccount |
| Marketplace.AIBNFTMarketplace.Pause | test/AIBNFTMarketplace.test.js:159-160 | owner only; the contract is paused afterwards exactly when it was paused before or the call succeeded |
| Marketplace.AIBNFTMarketplace.Unpause | test/AIBNFTMarketplace.test.js:167 | owner only; the contract is running afterwards exactly when the call succeeded or it was running before |
| Marketplace.AIBNFTMarketplace.Mint | test/AIBNFTMarketplace.test.js:23-24 | a new token gets the receiver as owner; the zero receiver and an existing token are refused and change nothing |
| Marketplace.AIBNFTMarketplace.Approve | test/AIBNFTMarketplace.test.js:45-47 | only the token's owner can set its approval; a token that was never minted is refused |
| Scenarios.Deploy | test/AIBNFTMarketplace.test.js:15-30 | the outer setup: a fresh, valid marketplace owned by the deployer, with the given fee, not paused, no listings, token 0 owned by the seller, no approvals and the given balances |
| Scenarios.DeployAndApprove | test/AIBNFTMarketplace.test.js:45-48 | the listing group's setup: the same state, with the marketplace approved for token 0 |
| Scenarios.DeployAndList | test/AIBNFTMarketplace.test.js:81-84 | the buying group's setup (and the cancelling group's, lines 113-116): token 0 is in escrow, listed as (seller, price), and the fee has moved from the seller to the marketplace |
| Scenarios.DeploymentSetsOwnerAndFee | test/AIBNFTMarketplace.test.js:34-40 | after deployment the owner is the deployer and the listing fee is the constructor argument |
| Scenarios.ListWithoutFeeFails | test/AIBNFTMarketplace.test.js:50-54 | listing without sending the fee reverts with IncorrectListingFee, and the seller keeps the token |
| Scenarios.ListUnapprovedFails | test/AIBNFTMarketplace.test.js:56-62 | listing a newly minted, unapproved token with the right fee reverts with NotApproved, and the seller keeps it |
| Scenarios.ListLocksNFT | test/AIBNFTMarketplace.test.js:64-76 | a paid, approved listing succeeds, emits NFTListed, puts the token with the marketplace, and getListing returns (seller, price) |
| Scenarios.BuyUnderpaidFails | test/AIBNFTMarketplace.test.js:86-91 | sending less than the price reverts with InsufficientFunds, and the token and the listing stay as they were |
| Scenarios.BuyTransfersAssets | test/AIBNFTMarketplace.test.js:93-108 | buying at the price succeeds, the buyer owns the token, the seller's balance rises by exactly the price, and getListing's price is 0 |
| Scenarios.CancelByOtherFails | test/AIBNFTMarketplace.test.js:118-123 | a cancel by the buyer reverts with NotSeller, and the token stays with the marketplace |
| Scenarios.CancelReturnsNFT | test/AIBNFTMarketplace.test.js:125-133 | the seller's cancel succeeds, the seller owns the token again, and getListing's price is 0 |
| Scenarios.OwnerUpdatesFee | test/AIBNFTMarketplace.test.js:138-142 | the owner's fee update succeeds and getListingFee returns the new fee |
| Scenarios.OwnerWithdrawsFees | test/AIBNFTMarketplace.test.js:144-157 | after one listing the contract holds exactly the fee, and the withdrawal raises the owner's balance by exactly that amount and empties the contract |
| Scenarios.PauseBlocksListing | test/AIBNFTMarketplace.test.js:159-172 | while the contract is paused, listing reverts with EnforcedPause; after unpause the same call succeeds and the marketplace holds the token, so the reverted call left the token and its approval untouched |
| Scenarios.ListThenCancel | test/AIBNFTMarketplace.test.js:64-76 | on any valid state, a successful listing followed by the seller's cancel succeeds, restores the token owners and the listings, drops the approval, leaves the fee with the contract and logs one NFTListed; the fee and the pause flag are untouched |

## Left out

- The Hardhat, ethers and chai harness (`getSigners`, deployment waits, `getAddress`). Accounts and contract addresses are parameters of the scenario methods.
- Gas. In the withdrawal test the owner pays gas. The model gives the owner exactly the contract balance and charges no gas.
- `parseEther`. All amounts are natural numbers of wei.
- Operator approvals (`setApprovalForAll`). The approval check looks at the single-token approval only.
- The MockNFT's own token counter. `Mint` takes the token id as an argument.
- Events other than `NFTListed`. The suite asserts no other event, so their names are not known. Even for `NFTListed`, the fields are a choice of this model (see the choices above).
- Ownership transfer and renouncement (Ownable). The suite does not use them, so `owner` is fixed at deployment.
- Reentrancy and failing external calls. Each call is atomic, and the registry and ether transfers always succeed once the checks pass. `BuyNFT` still removes the listing before it moves the token or the ether.
- 256-bit overflow. Amounts are unbounded naturals. With ether supply bounded, no addition in the contract can overflow.
