# RoyaltyNFT: a verified model of the recency-weighted royalty ledger

RoyaltyNFT is an NFT marketplace in which every resale pays the earlier
owners of a token. The pool is 10% of the sale price. Each earlier owner
gets a share of it weighted by how recently they held the token. This
project models three parts of it:

- **The ledger contract** (`ledger.dfy`, module `RoyaltyLedger`). It is the
  class `RoyaltyNft`, which holds a token counter and, per token:
  - an append-only ownership history of `(owner, level)` records, where
    level 1 is the current owner;
  - a current price;
  - a running royalty total.

  `Mint` and `Buy` change this state. `Buy` does the following:
  - checks the three revert conditions, in a fixed order;
  - pays every record except the seller's `floor(pool * level / sumLevels)`;
  - pays the seller `price - pool`;
  - refunds any overpayment;
  - adds the pool to the royalty total;
  - ages every record by one level and appends the buyer at level 1;
  - raises the price to `floor(price * 110 / 100)`.

  The loops of a sale are methods proved against recursive functions:
  - `WeightOf` sums the levels;
  - `SplitPool` computes the royalty transfers;
  - `Age` raises every level.

  `Settle` and `AfterSale` describe a whole sale as a function of the state
  before it. The lemmas about them state:
  - the level invariant `level[i] == n - i`;
  - that the royalties stay within the pool;
  - conservation of the payment;
  - the splits of the second and third sales.

  The query functions mirror `ownerOf`, `getCurrentPrice`,
  `getOwnershipHistory`, `getRoyaltyPool` and `getTotalRoyalties`.
- **The royalty preview** of the token page (`preview.dfy`, module
  `RoyaltyPreview`). It computes the total weight and the BigInt shares of
  `RoyaltyBreakdown`. It is proved:
  - to agree with the contract's split arithmetic;
  - never to hand out more than the pool;
  - never to divide by zero on a history the contract produces.

  It is also proved to differ from the contract in one way: it counts the
  current owner.
- **`shortenAddress`** (`format_eth.dfy`, module `FormatEth`). It includes
  JavaScript's `slice` handling of negative, out-of-range and `-0` indices.

`money.dfy` holds the floor-percentage arithmetic. `wrappers.dfy` holds
`Option`.

`scenario.dfy` replays the test suite's story against the contracts of
`RoyaltyNft`:
- a mint at 1 ether;
- the three reverts;
- three successive sales;
- an overpaid sale.

The Solidity contract itself is not part of this model. Its behaviour is
taken from the assertions of `blockchain/test/RoyaltyNFT.test.js`, which the
table below cites. Where those assertions are silent or leave room, the
model makes four choices, listed under "## Left out": a zero mint price is
rejected; queries on an unknown token fail; an owner who underpays for
their own token is refused as the owner, not for the payment; and the seller
receives the price less the pool. The assertions compute the seller's amount as
`price * 90 / 100`, but only at 1 ether, where the two agree.

Amounts are wei, as unbounded naturals. Addresses are strings.

## Model

| member | source | states |
|---|---|---|
| RoyaltyLedger.RoyaltyNft.constructor | blockchain/test/RoyaltyNFT.test.js:13-16 | A freshly deployed contract has no tokens, the next id is 0, and the ledger invariant holds. |
| RoyaltyLedger.RoyaltyNft.Mint | blockchain/test/RoyaltyNFT.test.js:23-38 | Minting with a positive price returns the next id (0 for the first mint), stores the price, and stores the history `[(caller, 1)]` with a royalty total of 0, so the caller owns the new token. Nothing else changes. A zero price fails with InvalidPrice and leaves the state unchanged. |
| RoyaltyLedger.RoyaltyNft.Buy | blockchain/test/RoyaltyNFT.test.js:174-195 | An unknown id gives TokenDoesNotExist, a purchase by the current owner gives CannotBuyOwnNft, and a payment below the price gives InsufficientPayment. The unknown id is checked first, as the test suite does; the owner check before the payment check is the model's choice. Every failure leaves the state unchanged. The sale succeeds exactly when none applies, and then has the effect stated for Sell with the ledger invariant kept, and the buyer owns the token. |
| RoyaltyLedger.RoyaltyNft.Sell | blockchain/test/RoyaltyNFT.test.js:53-87 | Once the checks have passed, a sale pays exactly the `Settle` receipt (seller, royalties, refund), turns the history into `AfterSale` (new owner last), sets the price to `NextPrice`, adds the pool to the royalty total, keeps the unpaid part of the pool, changes no other token and keeps the ledger invariant. |
| RoyaltyLedger.RoyaltyNft.Store | blockchain/test/RoyaltyNFT.test.js:74-87 | The commit step of a sale, not an operation of the contract: the ledger takes the new state Sell computed (token counter, histories, prices, royalty totals and kept wei) at once. It requires that state to satisfy the ledger invariant for every token, so the invariant holds afterwards. |
| RoyaltyLedger.RoyaltyNft.OwnerOf | blockchain/test/RoyaltyNFT.test.js:58-59 | Returns the owner of the newest record, which by the ledger invariant has level 1; an unknown id is an error. |
| RoyaltyLedger.RoyaltyNft.GetCurrentPrice | blockchain/test/RoyaltyNFT.test.js:27-28 | Returns the token's stored price, which is always positive; an unknown id is an error. |
| RoyaltyLedger.RoyaltyNft.GetOwnershipHistory | blockchain/test/RoyaltyNFT.test.js:34-37 | Returns the stored history, which always satisfies the level invariant; an unknown id is an error. |
| RoyaltyLedger.RoyaltyNft.GetRoyaltyPool | blockchain/test/RoyaltyNFT.test.js:150-158 | Returns the history without its last record: appending the current owner at level 1 gives back the whole history. |
| RoyaltyLedger.RoyaltyNft.GetTotalRoyalties | blockchain/test/RoyaltyNFT.test.js:160-170 | Returns the sum of the pools of all sales of the token, including sales in which nobody was paid. |
| RoyaltyLedger.RoyaltyPool | blockchain/test/RoyaltyNFT.test.js:109 | The pool is `floor(price * 10 / 100)` and never exceeds the price. |
| RoyaltyLedger.SellerAmount | blockchain/test/RoyaltyNFT.test.js:62 | The seller receives the price less the pool, which lies within one wei of 90% of the price and is never below it. |
| RoyaltyLedger.SellerAmountMatchesTest | blockchain/test/RoyaltyNFT.test.js:62-63 | For a price that is a multiple of 10 wei, such as 1 ether, the seller's amount is exactly `price * 90 / 100`. |
| RoyaltyLedger.NextPrice | blockchain/test/RoyaltyNFT.test.js:66-72 | The next price is `floor(price * 110 / 100)`. It never falls, and it strictly rises from 10 wei up. |
| RoyaltyLedger.OwnerAfterSale | blockchain/test/RoyaltyNFT.test.js:58-59 | After a sale, the buyer is the token's owner. |
| RoyaltyLedger.SumLevels | blockchain/test/RoyaltyNFT.test.js:132 | The weight of a run of records is at least each of their levels. Its exact value for a well-levelled history is stated by WellLeveledWeight. |
| RoyaltyLedger.AfterSale | blockchain/test/RoyaltyNFT.test.js:74-87 | The history after a sale is the aged old history followed by the buyer at level 1, one record longer. |
| RoyaltyLedger.Settle | blockchain/test/RoyaltyNFT.test.js:98-139 | The payout of a sale as a receipt. It carries no postcondition of its own: its content is stated by SettlePaysEarlierOwners, and its bounds by SettleWithinPool and SettleConserves. |
| RoyaltyLedger.SettlePaysEarlierOwners | blockchain/test/RoyaltyNFT.test.js:98-139 | `Settle`, the receipt of a sale, has the pool `RoyaltyPool(price)`, pays the seller `SellerAmount(price)` and refunds `payment - price`. It pays no royalty when the eligible weight is 0. Otherwise it pays one royalty per earlier owner, in history order, to that owner, of `floor(pool * level / total)`. |
| RoyaltyLedger.TotalPools | blockchain/test/RoyaltyNFT.test.js:160-170 | The royalty total of a token is at least the pool of each of its sales. |
| RoyaltyLedger.Eligible | blockchain/test/RoyaltyNFT.test.js:150-158 | The eligible records followed by the seller's record make up the whole history. |
| RoyaltyLedger.Bumped | blockchain/test/RoyaltyNFT.test.js:74-87 | Aging a history keeps its length. |
| RoyaltyLedger.BumpedAt | blockchain/test/RoyaltyNFT.test.js:80-82 | Aging raises each record's level by one and keeps its owner. |
| RoyaltyLedger.AfterSaleKeepsLevels | blockchain/test/RoyaltyNFT.test.js:74-87 | After a sale the history has one more record. Every earlier record keeps its owner and position with its level raised by one, and the buyer is last at level 1. A history satisfying `level[i] == n - i` still satisfies it. |
| RoyaltyLedger.SumLevelsAppend | blockchain/test/RoyaltyNFT.test.js:132 | Appending a record adds its level to the level sum. |
| RoyaltyLedger.WellLeveledWeight | blockchain/test/RoyaltyNFT.test.js:132 | The levels of a well-levelled history of length n add up to n(n+1)/2. |
| RoyaltyLedger.EligibleWeight | blockchain/test/RoyaltyNFT.test.js:130-135 | The royalty divisor is n(n+1)/2 - 1. It is positive exactly when the token has had an earlier owner. |
| RoyaltyLedger.RoyaltySharesAt | blockchain/test/RoyaltyNFT.test.js:134-135 | The split has one payment per eligible record, in history order, paying that record's owner `floor(pool * level / total)`. |
| RoyaltyLedger.RoyaltyShares | blockchain/test/RoyaltyNFT.test.js:113-139 | The split has one payment per eligible record, in history order, each to that record's owner. |
| RoyaltyLedger.ScaledSharesBound | blockchain/test/RoyaltyNFT.test.js:130-135 | The shares paid, times the divisor, never exceed the pool times the weight of the records paid. |
| RoyaltyLedger.RoyaltySharesWithinPool | blockchain/test/RoyaltyNFT.test.js:130-139 | When the divisor covers the recipients' weights, the floored shares add up to at most the pool. |
| RoyaltyLedger.SettleWithinPool | blockchain/test/RoyaltyNFT.test.js:98-139 | No sale pays more royalties than its pool. |
| RoyaltyLedger.SettleConserves | blockchain/test/RoyaltyNFT.test.js:197-212 | The royalties, the seller's amount, the refund and the kept remainder add up to exactly the payment. The remainder is never negative, the seller and the pool split the price, and the buyer's net cost is exactly the price. |
| RoyaltyLedger.FirstSaleStrandsPool | blockchain/test/RoyaltyNFT.test.js:160-170 | The first sale pays no royalty, and the whole pool stays in the contract although it is counted in the total. |
| RoyaltyLedger.SoleEligibleTakesPool | blockchain/test/RoyaltyNFT.test.js:98-111 | On the second sale the minter, the only earlier owner, receives the whole pool `price * 10 / 100`. |
| RoyaltyLedger.ThreeTwoSplit | blockchain/test/RoyaltyNFT.test.js:113-139 | On the third sale the owners at levels 3 and 2 receive `pool * 3 / 5` and `pool * 2 / 5`. |
| RoyaltyLedger.WeightOf | blockchain/test/RoyaltyNFT.test.js:132 | The loop over the eligible records computes their level sum. |
| RoyaltyLedger.SplitPool | blockchain/test/RoyaltyNFT.test.js:113-139 | The loop paying earlier owners produces exactly the recency-weighted split, one payment per record in history order. |
| RoyaltyLedger.Age | blockchain/test/RoyaltyNFT.test.js:74-87 | The loop raising every level produces the aged history. |
| RoyaltyLedger.Transfer | blockchain/test/RoyaltyNFT.test.js:53-139 | The computing half of a sale returns the `Settle` receipt, whose royalties stay within its pool, and the `AfterSale` history. |
| RoyaltyLedger.AllTokensValidAfterUpdate | blockchain/test/RoyaltyNFT.test.js:47-51 | Updating one token with a valid state keeps every token valid. |
| Money.PercentageOf | blockchain/test/RoyaltyNFT.test.js:62 | `amount * numerator / denominator` is the floor of the exact ratio. |
| Money.WholeRatio | blockchain/test/RoyaltyNFT.test.js:109-110 | A weight divided by itself yields the whole amount. |
| Money.PartAtMostWhole | blockchain/test/RoyaltyNFT.test.js:131 | A fraction of at most one never exceeds the amount. |
| RoyaltyPreview.ShareOf | src/components/RoyaltyBreakdown.jsx:23-25 | A row's share is `floor(pool * weight / total)` when a non-zero pool is given and 0 otherwise. |
| RoyaltyPreview.Preview | src/components/RoyaltyBreakdown.jsx:4-25 | The "no data" result comes exactly from a missing or empty history. The BigInt division throws exactly when the history is non-empty, the pool is non-zero, and the levels sum to 0. |
| RoyaltyPreview.TotalWeight | src/components/RoyaltyBreakdown.jsx:13-16 | The reduce over the history equals the contract's sum of its levels. |
| RoyaltyPreview.SharesOf | src/components/RoyaltyBreakdown.jsx:19-33 | There is one row per record, in the same order. Each row keeps the record's owner and level and has weight equal to level. |
| RoyaltyPreview.SharesOfAt | src/components/RoyaltyBreakdown.jsx:19-33 | There is one row per record in the same order. Each row keeps owner and level, has weight equal to level, and has that weight's share. |
| RoyaltyPreview.SharesMatchContractSplit | src/components/RoyaltyBreakdown.jsx:23-25 | With a non-zero pool, the rows pay in total what the contract's split pays the same records with the same divisor. |
| RoyaltyPreview.ShareAtMostSum | src/components/RoyaltyBreakdown.jsx:19-33 | No row's share exceeds the sum of all shares. |
| RoyaltyPreview.SharesWithinPool | src/components/RoyaltyBreakdown.jsx:13-25 | Every share, and the sum of all shares, is at most the pool. |
| RoyaltyPreview.PreviewRows | src/components/RoyaltyBreakdown.jsx:13-33 | A non-empty history with positive total level never divides by zero. It yields one row per record, with the level sum as total weight. |
| RoyaltyPreview.PreviewOfLedgerHistory | src/components/RoyaltyBreakdown.jsx:23-25 | No history the contract can produce makes the BigInt division throw. |
| RoyaltyPreview.PreviewCountsSeller | src/components/RoyaltyBreakdown.jsx:13-33 | The preview's divisor is the contract's divisor plus 1, and its last row is the current owner at weight 1, whom the contract pays nothing. |
| FormatEth.Slice | frontend/src/utils/formatEth.js:33 | `s.slice(begin, end)` is the run of characters from the resolved begin up to the resolved end, and empty when end does not lie past begin. |
| FormatEth.SliceFrom | frontend/src/utils/formatEth.js:33 | `s.slice(begin)` is the suffix from the resolved begin. |
| FormatEth.ShortenAddressDefault | frontend/src/utils/formatEth.js:31 | With the defaults 6 and 4, the result is empty exactly for an absent or empty address. An address longer than 10 characters shortens to 13. |
| FormatEth.SliceIndex | frontend/src/utils/formatEth.js:33 | The slice index is clamped to `[0, length]`, and a negative index counts from the end. |
| FormatEth.ShortenAddress | frontend/src/utils/formatEth.js:31-34 | The result is empty exactly when the address is absent or empty. |
| FormatEth.SliceHead | frontend/src/utils/formatEth.js:33 | `slice(0, startChars)` is the first `startChars` characters, or the whole address when it is shorter. |
| FormatEth.SliceTail | frontend/src/utils/formatEth.js:33 | `slice(-endChars)` is the last `endChars` characters. When `endChars` is 0 or at least the length, it is the whole address. |
| FormatEth.ShortenShape | frontend/src/utils/formatEth.js:33 | A shortened address is its first `startChars` characters, then `"..."`, then its last `endChars` characters. |
| FormatEth.ShortenLength | frontend/src/utils/formatEth.js:33 | An address longer than both parts shortens to `startChars + 3 + endChars` characters. |
| FormatEth.ShortenZeroTail | frontend/src/utils/formatEth.js:33 | With `endChars` 0 the whole address follows the ellipsis. |
| FormatEth.ShortenEthereumAddress | frontend/src/utils/formatEth.js:31-34 | With the defaults 6 and 4, a 42-character address shortens to its first 6 and last 4 characters around `"..."`, 13 characters in all. |

## Left out

- The Solidity contract is not part of this model. The ledger follows the test suite's assertions.
- uint256 overflow is not modelled: amounts are unbounded naturals. At realistic prices no product in the arithmetic comes near 2^256.
- Gas is not modelled. The refund is exactly `payment - price`, where the test only checks the buyer's cost to within gas and 0.001 ether.
- Events (`NFTMinted`, `RoyaltyPaid`) are not modelled. The royalty payments they announce are the receipt's `royalties`.
- Account balances are not modelled. A sale returns a `Receipt` listing the transfers, and `held` counts the wei the contract keeps.
- A revert is modelled as an `Err` result with the state unchanged.
- The contract's storage arrays are updated in place: every level is incremented and the buyer is pushed. The model rebuilds the history as a new sequence and reassigns it.
- RoyaltyLedger.SellerAmount: the seller gets `price - pool`, which is 90% rounded up. The test computes `price * 90 / 100`, which rounds down. The two agree on prices that are multiples of 10 wei, as `SellerAmountMatchesTest` states, which covers every price the tests use.
- RoyaltyLedger.RoyaltyNft.Mint: a zero price is rejected with InvalidPrice. The test suite never exercises this case.
- RoyaltyLedger.RoyaltyNft.Buy: every transfer in the receipt is assumed to succeed. In the contract, a buy reverts with no state change when any recipient refuses ether. That recipient can be an earlier owner, the seller, or the buyer receiving a refund. So one past owner whose address refuses ether blocks every later sale of the token, and the model does not capture this.
- RoyaltyLedger.RoyaltyNft.Buy: the own-token check comes before the payment check. The test suite exercises each revert on its own, so an owner who underpays for their own token gets CannotBuyOwnNft by choice.
- FormatEth.ShortenAddress: JavaScript's `slice` counts UTF-16 code units, but a Dafny string counts Unicode scalar values. The two differ on characters outside the Basic Multilingual Plane, never on hexadecimal addresses.
- Query functions on an unknown id return `Err(TokenDoesNotExist)`. The test suite only exercises this for `buyNFT`.
- The remainder of the pool that rounding or the first sale leaves unpaid is not paid out to anyone. It is counted in `held`, and the royalty total counts the whole pool.
- The float `percentage` of `RoyaltyBreakdown`, its progress bar and all rendering are left out: they are floating-point display code.
- `RoyaltyPreview.Preview` takes the pool as an optional integer. The token detail page passes it the array returned by `getRoyaltyPool`, and that call shape is not modelled.
- Left out because they are floating point, a thin library wrapper, and clock and locale respectively: `formatEth`, `parseEth` and `formatDate`.
- Left out as UI, wallet I/O and network polling: the React pages and components, the Web3 context, and the asynchronous loops that poll the contract.
- Deployment scripts, setup checks and contract-address constants are left out as tooling.
- The frontend calls `mintNFT(tokenId, price)`, which disagrees with the tested `mintNFT(price)` and is not modelled.
