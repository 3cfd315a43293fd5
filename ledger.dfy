/**
 * The RoyaltyNFT ledger: per token an append-only ownership history of
 * (owner, level) records, a current price and a running royalty total.
 * Every sale pays the previous owners a recency-weighted share of a 10%
 * pool, pays the seller the rest of the price, refunds any overpayment,
 * raises every level by one, appends the buyer at level 1 and lifts the
 * price by 10%.
 */
module RoyaltyLedger {

  import opened Money

  type Address = string

  /** One entry of a token's ownership history; level 1 is the current owner. */
  datatype Record = Record(owner: Address, level: nat)

  /** A transfer of wei out of the contract. */
  datatype Payment = Payment(to: Address, amount: nat)

  /** Everything one sale moves: the royalty transfers (oldest owner first),
      the seller's transfer and the refund to the buyer. */
  datatype Receipt = Receipt(salePrice: nat, pool: nat, royalties: seq<Payment>, seller: Payment, refund: nat)

  /** The contract's revert reasons. */
  datatype Error = TokenDoesNotExist | CannotBuyOwnNft | InsufficientPayment | InvalidPrice

  datatype Result<T> = Ok(value: T) | Err(error: Error)

  // ---------------------------------------------------------------------
  // Sale arithmetic
  // ---------------------------------------------------------------------

  /** The royalty pool of a sale: 10% of the price, rounded down. */
  function RoyaltyPool(price: nat): (pool: nat)
    ensures pool <= price
    ensures pool * 100 <= price * 10 < pool * 100 + 100
  {
    PartAtMostWhole(price, 10, 100);
    PercentageOf(price, 10, 100)
  }

  /** What the seller receives: the price less the pool, that is 90% of the
      price rounded up. */
  function SellerAmount(price: nat): (amount: nat)
    ensures amount * 100 >= price * 90
    ensures amount * 100 < price * 90 + 100
  {
    price - RoyaltyPool(price)
  }

  /** The price after a sale: 110% of the sale price, rounded down; it never
      falls, and it rises once the price reaches 10 wei. */
  function NextPrice(price: nat): (next: nat)
    ensures price <= next
    ensures price >= 10 ==> price < next
    ensures next * 100 <= price * 110 < next * 100 + 100
  {
    PercentageOf(price, 110, 100)
  }

  /** With a price that is a whole multiple of 10 wei, as in the test suite,
      the seller gets exactly price * 90 / 100. */
  lemma SellerAmountMatchesTest(price: nat)
    requires price % 10 == 0
    ensures SellerAmount(price) == price * 90 / 100
  {
    var q := price / 10;
    assert price == 10 * q;
    assert RoyaltyPool(price) == q;
    assert price * 90 == (9 * q) * 100;
  }

  // ---------------------------------------------------------------------
  // Ownership histories
  // ---------------------------------------------------------------------

  /** The current owner is the newest record. */
  function Owner(history: seq<Record>): (owner: Address)
    requires |history| > 0
    ensures history[|history| - 1] == Record(owner, history[|history| - 1].level)
  {
    history[|history| - 1].owner
  }

  /** Whoever buys a token becomes its owner. */
  lemma OwnerAfterSale(history: seq<Record>, buyer: Address)
    ensures Owner(AfterSale(history, buyer)) == buyer
  {
  }

  /** The records eligible for royalties: all but the seller's. */
  function Eligible(history: seq<Record>): (eligible: seq<Record>)
    requires |history| > 0
    ensures eligible + [history[|history| - 1]] == history
  {
    history[..|history| - 1]
  }

  /** The weight of a run of records: the sum of their levels, which no
      single level exceeds. */
  function SumLevels(records: seq<Record>): (total: nat)
    ensures forall i :: 0 <= i < |records| ==> records[i].level <= total
  {
    if records == [] then 0
    else
      assert forall i :: 1 <= i < |records| ==> records[i] == records[1..][i - 1];
      records[0].level + SumLevels(records[1..])
  }

  /** Every record one level older. */
  function Bumped(history: seq<Record>): (bumped: seq<Record>)
    ensures |bumped| == |history|
  {
    if history == [] then []
    else [Record(history[0].owner, history[0].level + 1)] + Bumped(history[1..])
  }

  /** The history after a sale to buyer. */
  function AfterSale(history: seq<Record>, buyer: Address): (after: seq<Record>)
    ensures |after| == |history| + 1
    ensures after[..|history|] == Bumped(history)
    ensures after[|history|] == Record(buyer, 1)
  {
    Bumped(history) + [Record(buyer, 1)]
  }

  /** The level invariant: in a history of length n the record at index i
      has level n - i, so the newest has level 1. */
  predicate WellLeveled(history: seq<Record>)
  {
    |history| > 0 && forall i :: 0 <= i < |history| ==> history[i].level == |history| - i
  }

  lemma {:induction false} BumpedAt(history: seq<Record>, i: nat)
    requires i < |history|
    ensures Bumped(history)[i] == Record(history[i].owner, history[i].level + 1)
  {
    if i > 0 {
      BumpedAt(history[1..], i - 1);
    }
  }

  /** A sale keeps every owner in place, ages every record by one level,
      appends the buyer at level 1 and so keeps the level invariant. */
  lemma AfterSaleKeepsLevels(history: seq<Record>, buyer: Address)
    requires WellLeveled(history)
    ensures |AfterSale(history, buyer)| == |history| + 1
    ensures forall i :: 0 <= i < |history| ==>
      AfterSale(history, buyer)[i] == Record(history[i].owner, history[i].level + 1)
    ensures AfterSale(history, buyer)[|history|] == Record(buyer, 1)
    ensures WellLeveled(AfterSale(history, buyer))
  {
    var after := AfterSale(history, buyer);
    forall i | 0 <= i < |history|
      ensures after[i] == Record(history[i].owner, history[i].level + 1)
    {
      BumpedAt(history, i);
    }
  }

  lemma {:induction false} SumLevelsAppend(records: seq<Record>, r: Record)
    ensures SumLevels(records + [r]) == SumLevels(records) + r.level
  {
    if records != [] {
      assert (records + [r])[1..] == records[1..] + [r];
      SumLevelsAppend(records[1..], r);
    }
  }

  /** The levels of a well-levelled history of length n sum to n(n+1)/2. */
  lemma {:induction false} WellLeveledWeight(history: seq<Record>)
    requires WellLeveled(history)
    ensures SumLevels(history) * 2 == |history| * (|history| + 1)
  {
    if |history| > 1 {
      WellLeveledWeight(history[1..]);
    }
  }

  /** The royalty weight of a sale: n(n+1)/2 - 1 for a history of length n,
      so positive exactly when there is an earlier owner. */
  lemma EligibleWeight(history: seq<Record>)
    requires WellLeveled(history)
    ensures SumLevels(Eligible(history)) * 2 == |history| * (|history| + 1) - 2
    ensures SumLevels(Eligible(history)) > 0 <==> |history| > 1
  {
    WellLeveledWeight(history);
    SumLevelsAppend(Eligible(history), history[|history| - 1]);
  }

  // ---------------------------------------------------------------------
  // Royalty split
  // ---------------------------------------------------------------------

  /** Each eligible record's share: floor(pool * level / total), one
      payment per record, to that record's owner, in history order. */
  function RoyaltyShares(eligible: seq<Record>, pool: nat, total: nat): (shares: seq<Payment>)
    requires total > 0
    ensures |shares| == |eligible|
    ensures forall i :: 0 <= i < |shares| ==> shares[i].to == eligible[i].owner
  {
    if eligible == [] then []
    else
      assert forall i :: 1 <= i < |eligible| ==> eligible[i] == eligible[1..][i - 1];
      [Payment(eligible[0].owner, PercentageOf(pool, eligible[0].level, total))]
      + RoyaltyShares(eligible[1..], pool, total)
  }

  function Paid(payments: seq<Payment>): nat
  {
    if payments == [] then 0 else payments[0].amount + Paid(payments[1..])
  }

  /** One payment per eligible record, in history order, to that record's
      owner, of floor(pool * level / total). */
  lemma {:induction false} RoyaltySharesAt(eligible: seq<Record>, pool: nat, total: nat, i: nat)
    requires total > 0 && i < |eligible|
    ensures |RoyaltyShares(eligible, pool, total)| == |eligible|
    ensures RoyaltyShares(eligible, pool, total)[i]
         == Payment(eligible[i].owner, PercentageOf(pool, eligible[i].level, total))
  {
    if i > 0 {
      RoyaltySharesAt(eligible[1..], pool, total, i - 1);
    }
  }

  /** The shares, scaled by the total weight, never exceed the pool scaled
      by the weight of the records they are paid to. */
  lemma {:induction false} ScaledSharesBound(eligible: seq<Record>, pool: nat, total: nat)
    requires total > 0
    ensures Paid(RoyaltyShares(eligible, pool, total)) * total <= pool * SumLevels(eligible)
  {
    if eligible != [] {
      var rest := eligible[1..];
      var s := PercentageOf(pool, eligible[0].level, total);
      var shares := RoyaltyShares(eligible, pool, total);
      assert shares[1..] == RoyaltyShares(rest, pool, total);
      ScaledSharesBound(rest, pool, total);
      var p := Paid(RoyaltyShares(rest, pool, total));
      assert Paid(shares) == s + p;
      AddScaledBounds(s, p, total, pool, eligible[0].level, SumLevels(rest));
    }
  }

  /** Because every share rounds down, the royalties paid never exceed the
      pool when the divisor covers the weights of all recipients. */
  lemma RoyaltySharesWithinPool(eligible: seq<Record>, pool: nat, total: nat)
    requires total > 0 && SumLevels(eligible) <= total
    ensures Paid(RoyaltyShares(eligible, pool, total)) <= pool
  {
    ScaledSharesBound(eligible, pool, total);
    ScaledBelowWhole(Paid(RoyaltyShares(eligible, pool, total)), pool, SumLevels(eligible), total);
  }

  // ---------------------------------------------------------------------
  // A sale, as a function of the state before it
  // ---------------------------------------------------------------------

  /** The transfers of one sale at price, computed from the history before
      it. With no earlier owner the eligible weight is 0 and nobody is paid
      a royalty. */
  function Settle(history: seq<Record>, price: nat, buyer: Address, payment: nat): Receipt
    requires |history| > 0 && price <= payment
  {
    var eligible := Eligible(history);
    var total := SumLevels(eligible);
    var pool := RoyaltyPool(price);
    Receipt(price, pool,
            if total == 0 then [] else RoyaltyShares(eligible, pool, total),
            Payment(Owner(history), SellerAmount(price)),
            payment - price)
  }

  /** The receipt of a sale in full: the pool, the seller's payment and the
      refund, and one royalty per earlier owner, in history order, of
      floor(pool * level / total), where total is the eligible weight; no
      royalty at all when that weight is 0. */
  lemma SettlePaysEarlierOwners(history: seq<Record>, price: nat, buyer: Address, payment: nat)
    requires |history| > 0 && price <= payment
    ensures var receipt, pool, total := Settle(history, price, buyer, payment), RoyaltyPool(price), SumLevels(Eligible(history));
      && receipt.salePrice == price && receipt.pool == pool
      && receipt.seller == Payment(Owner(history), SellerAmount(price))
      && receipt.refund == payment - price
      && |receipt.royalties| == (if total == 0 then 0 else |history| - 1)
      && forall i :: 0 <= i < |receipt.royalties| ==>
           receipt.royalties[i] == Payment(history[i].owner, PercentageOf(pool, history[i].level, total))
  {
    var eligible, pool, total := Eligible(history), RoyaltyPool(price), SumLevels(Eligible(history));
    if total > 0 {
      forall i | 0 <= i < |eligible|
        ensures RoyaltyShares(eligible, pool, total)[i] == Payment(history[i].owner, PercentageOf(pool, history[i].level, total))
      {
        RoyaltySharesAt(eligible, pool, total, i);
      }
    }
  }

  /** What a sale leaves in the contract: the part of the pool that no
      earlier owner received. */
  function Stranded(receipt: Receipt): int
  {
    receipt.pool - Paid(receipt.royalties)
  }

  /** The royalties of a sale never exceed its pool. */
  lemma SettleWithinPool(history: seq<Record>, price: nat, buyer: Address, payment: nat)
    requires |history| > 0 && price <= payment
    ensures Paid(Settle(history, price, buyer, payment).royalties) <= RoyaltyPool(price)
  {
    var eligible := Eligible(history);
    var total := SumLevels(eligible);
    if total > 0 {
      RoyaltySharesWithinPool(eligible, RoyaltyPool(price), total);
    }
  }

  /** A sale moves exactly the payment: royalties, the seller's amount, the
      refund and the stranded remainder add up to it; nothing stranded is
      negative; the seller and the pool split the price; the buyer's net
      cost is the price. */
  lemma SettleConserves(history: seq<Record>, price: nat, buyer: Address, payment: nat)
    requires |history| > 0 && price <= payment
    ensures var receipt := Settle(history, price, buyer, payment);
      && 0 <= Stranded(receipt)
      && receipt.seller.amount + receipt.pool == price
      && Paid(receipt.royalties) + Stranded(receipt) + receipt.seller.amount + receipt.refund == payment
      && payment - receipt.refund == price
  {
    SettleWithinPool(history, price, buyer, payment);
  }

  /** The first sale pays no royalty at all: the whole pool stays in the
      contract although it is counted as collected. */
  lemma FirstSaleStrandsPool(minter: Address, price: nat, buyer: Address, payment: nat)
    requires price <= payment
    ensures Settle([Record(minter, 1)], price, buyer, payment).royalties == []
    ensures Stranded(Settle([Record(minter, 1)], price, buyer, payment)) == RoyaltyPool(price)
  {
    assert Eligible([Record(minter, 1)]) == [];
  }

  /** The second sale pays the only earlier owner the whole pool. */
  lemma SoleEligibleTakesPool(history: seq<Record>, price: nat, buyer: Address, payment: nat)
    requires WellLeveled(history) && |history| == 2 && price <= payment
    ensures Settle(history, price, buyer, payment).royalties == [Payment(history[0].owner, RoyaltyPool(price))]
  {
    assert history[0].level == 2;
    assert Eligible(history) == [history[0]];
    assert Eligible(history)[1..] == [];
    assert SumLevels(Eligible(history)) == 2;
    WholeRatio(RoyaltyPool(price), 2);
    assert RoyaltyShares(Eligible(history), RoyaltyPool(price), 2) == [Payment(history[0].owner, RoyaltyPool(price))];
  }

  /** The third sale splits the pool 3:2 between the two earlier owners. */
  lemma ThreeTwoSplit(history: seq<Record>, price: nat, buyer: Address, payment: nat)
    requires WellLeveled(history) && |history| == 3 && price <= payment
    ensures var pool := RoyaltyPool(price);
      Settle(history, price, buyer, payment).royalties
        == [Payment(history[0].owner, pool * 3 / 5), Payment(history[1].owner, pool * 2 / 5)]
  {
    var eligible := Eligible(history);
    assert history[0].level == 3 && history[1].level == 2;
    assert eligible == [history[0], history[1]];
    assert eligible[1..] == [history[1]];
    assert eligible[1..][1..] == [];
    assert SumLevels(eligible[1..]) == 2;
    assert SumLevels(eligible) == 5;
    var pool := RoyaltyPool(price);
    assert RoyaltyShares(eligible[1..], pool, 5) == [Payment(history[1].owner, pool * 2 / 5)];
  }

  /** The royalty total of a token: the pool of every sale, whether or not
      anybody was paid from it. */
  function TotalPools(salePrices: seq<nat>): (total: nat)
    ensures forall i :: 0 <= i < |salePrices| ==> RoyaltyPool(salePrices[i]) <= total
  {
    if salePrices == [] then 0
    else TotalPools(salePrices[..|salePrices| - 1]) + RoyaltyPool(salePrices[|salePrices| - 1])
  }

  ghost predicate AllTokensValid(histories: map<nat, seq<Record>>, prices: map<nat, nat>,
                                 royalties: map<nat, nat>, sales: map<nat, seq<nat>>)
  {
    && prices.Keys == histories.Keys
    && royalties.Keys == histories.Keys
    && sales.Keys == histories.Keys
    && forall id :: id in histories ==> TokenValid(histories[id], prices[id], royalties[id], sales[id])
  }

  /** Replacing (or adding) one valid token keeps every token valid. */
  lemma AllTokensValidAfterUpdate(histories: map<nat, seq<Record>>, prices: map<nat, nat>,
                                  royalties: map<nat, nat>, sales: map<nat, seq<nat>>, id: nat,
                                  history: seq<Record>, price: nat, royalty: nat, salePrices: seq<nat>)
    requires AllTokensValid(histories, prices, royalties, sales)
    requires TokenValid(history, price, royalty, salePrices)
    ensures AllTokensValid(histories[id := history], prices[id := price],
                           royalties[id := royalty], sales[id := salePrices])
  {
  }

  // ---------------------------------------------------------------------
  // The loops of a sale
  // ---------------------------------------------------------------------

  /** The sum of the eligible levels, accumulated record by record. */
  method WeightOf(eligible: seq<Record>) returns (total: nat)
    ensures total == SumLevels(eligible)
  {
    total := 0;
    var i := 0;
    while i < |eligible|
      invariant i <= |eligible|
      invariant total + SumLevels(eligible[i..]) == SumLevels(eligible)
    {
      assert eligible[i..][1..] == eligible[i + 1..];
      assert SumLevels(eligible[i..]) == eligible[i].level + SumLevels(eligible[i + 1..]);
      total := total + eligible[i].level;
      i := i + 1;
    }
  }

  /** The royalty transfers, one per eligible record, oldest first. */
  method SplitPool(eligible: seq<Record>, pool: nat, total: nat) returns (shares: seq<Payment>)
    requires total > 0
    ensures shares == RoyaltyShares(eligible, pool, total)
  {
    shares := [];
    var i := 0;
    while i < |eligible|
      invariant i <= |eligible|
      invariant shares + RoyaltyShares(eligible[i..], pool, total) == RoyaltyShares(eligible, pool, total)
    {
      var share := Payment(eligible[i].owner, PercentageOf(pool, eligible[i].level, total));
      var rest := RoyaltyShares(eligible[i + 1..], pool, total);
      assert eligible[i..][1..] == eligible[i + 1..];
      assert RoyaltyShares(eligible[i..], pool, total) == [share] + rest;
      assert (shares + [share]) + rest == shares + ([share] + rest);
      shares := shares + [share];
      i := i + 1;
    }
  }

  /** Every record of the history one level up, in place of the old ones. */
  method Age(history: seq<Record>) returns (aged: seq<Record>)
    ensures aged == Bumped(history)
  {
    aged := [];
    var i := 0;
    while i < |history|
      invariant i <= |history|
      invariant aged + Bumped(history[i..]) == Bumped(history)
    {
      assert history[i..][1..] == history[i + 1..];
      assert Bumped(history[i..]) == [Record(history[i].owner, history[i].level + 1)] + Bumped(history[i + 1..]);
      aged := aged + [Record(history[i].owner, history[i].level + 1)];
      i := i + 1;
    }
  }

  /** The computing half of a sale, run on the state before it: the
      weight sum, the royalty transfers, the seller's amount and the
      refund, and the aged history with the buyer appended. */
  method Transfer(history: seq<Record>, price: nat, buyer: Address, payment: nat)
    returns (receipt: Receipt, after: seq<Record>)
    requires |history| > 0 && price <= payment
    ensures receipt == Settle(history, price, buyer, payment)
    ensures after == AfterSale(history, buyer)
    ensures receipt.pool == RoyaltyPool(price)
    ensures Paid(receipt.royalties) <= receipt.pool
  {
    var pool := RoyaltyPool(price);
    var eligible := history[..|history| - 1];
    var total := WeightOf(eligible);
    var shares: seq<Payment> := [];
    if total > 0 {
      shares := SplitPool(eligible, pool, total);
    }
    var aged := Age(history);
    receipt := Receipt(price, pool, shares, Payment(history[|history| - 1].owner, SellerAmount(price)), payment - price);
    after := aged + [Record(buyer, 1)];
    SettleWithinPool(history, price, buyer, payment);
  }

  // ---------------------------------------------------------------------
  // The contract
  // ---------------------------------------------------------------------

  /** What holds of every token at all times: the level invariant, a
      positive price, one more record than sales, and a royalty total that
      is the sum of the pools of all sales. */
  ghost predicate TokenValid(history: seq<Record>, price: nat, royalty: nat, salePrices: seq<nat>)
  {
    && WellLeveled(history)
    && price > 0
    && |history| == |salePrices| + 1
    && royalty == TotalPools(salePrices)
  }

  class RoyaltyNft {
    /** The id the next mint receives; ids are 0, 1, 2, ... */
    var nextId: nat
    var histories: map<nat, seq<Record>>
    var prices: map<nat, nat>
    var royalties: map<nat, nat>
    /** Wei kept by the contract: pool remainders nobody was paid. */
    var held: nat
    /** The sale prices of each token, oldest first. */
    ghost var sales: map<nat, seq<nat>>

    ghost predicate Valid()
      reads this
    {
      (forall id: nat :: id in histories <==> id < nextId)
      && AllTokensValid(histories, prices, royalties, sales)
    }

    constructor ()
      ensures Valid()
      ensures nextId == 0 && held == 0
      ensures histories == map[] && prices == map[] && royalties == map[]
    {
      nextId := 0;
      histories := map[];
      prices := map[];
      royalties := map[];
      held := 0;
      sales := map[];
    }

    /** mintNFT(price): the caller owns a new token at level 1. */
    method Mint(caller: Address, price: nat) returns (r: Result<nat>)
      requires Valid()
      modifies this
      ensures Valid()
      ensures price == 0 ==> r == Err(InvalidPrice) && unchanged(this)
      ensures price > 0 ==>
        && r == Ok(old(nextId))
        && nextId == old(nextId) + 1
        && histories == old(histories)[old(nextId) := [Record(caller, 1)]]
        && prices == old(prices)[old(nextId) := price]
        && royalties == old(royalties)[old(nextId) := 0]
        && sales == old(sales)[old(nextId) := []]
        && held == old(held)
        && OwnerOf(old(nextId)) == Ok(caller)
    {
      if price == 0 {
        return Err(InvalidPrice);
      }
      var id := nextId;
      AllTokensValidAfterUpdate(histories, prices, royalties, sales, id, [Record(caller, 1)], price, 0, []);
      histories := histories[id := [Record(caller, 1)]];
      prices := prices[id := price];
      royalties := royalties[id := 0];
      sales := sales[id := []];
      nextId := nextId + 1;
      r := Ok(id);
    }

    /** buyNFT(id) with payment attached: the three checks, in this order,
        then the sale. A failed check reverts and changes nothing. */
    method Buy(buyer: Address, id: nat, payment: nat) returns (r: Result<Receipt>)
      requires Valid()
      modifies this
      ensures Valid()
      ensures old(id >= nextId) ==> r == Err(TokenDoesNotExist)
      ensures old(id < nextId && Owner(histories[id]) == buyer) ==> r == Err(CannotBuyOwnNft)
      ensures old(id < nextId && Owner(histories[id]) != buyer && payment < prices[id]) ==>
        r == Err(InsufficientPayment)
      ensures r.Err? ==> unchanged(this)
      ensures r.Ok? <==> old(id < nextId && Owner(histories[id]) != buyer && prices[id] <= payment)
      ensures r.Ok? ==>
        && r.value == old(Settle(histories[id], prices[id], buyer, payment))
        && nextId == old(nextId)
        && histories == old(histories[id := AfterSale(histories[id], buyer)])
        && prices == old(prices[id := NextPrice(prices[id])])
        && royalties == old(royalties[id := royalties[id] + RoyaltyPool(prices[id])])
        && sales == old(sales[id := sales[id] + [prices[id]]])
        && held == old(held) + Stranded(r.value)
        && OwnerOf(id) == Ok(buyer)
    {
      if id >= nextId {
        return Err(TokenDoesNotExist);
      }
      if Owner(histories[id]) == buyer {
        return Err(CannotBuyOwnNft);
      }
      if payment < prices[id] {
        return Err(InsufficientPayment);
      }
      var receipt := Sell(buyer, id, payment);
      r := Ok(receipt);
    }

    /** The body of a sale once its checks have passed: pay the earlier
        owners, the seller and the refund, add the pool to the royalty
        total, age the history, append the buyer and raise the price. */
    method Sell(buyer: Address, id: nat, payment: nat) returns (receipt: Receipt)
      requires Valid()
      requires id < nextId && Owner(histories[id]) != buyer && prices[id] <= payment
      modifies this
      ensures Valid()
      ensures receipt == old(Settle(histories[id], prices[id], buyer, payment))
      ensures nextId == old(nextId)
      ensures histories == old(histories[id := AfterSale(histories[id], buyer)])
      ensures prices == old(prices[id := NextPrice(prices[id])])
      ensures royalties == old(royalties[id := royalties[id] + RoyaltyPool(prices[id])])
      ensures sales == old(sales[id := sales[id] + [prices[id]]])
      ensures held == old(held) + Stranded(receipt)
    {
      // The state before the sale, read once; the new state is computed from it.
      var count, hs, ps, rs, kept0 := nextId, histories, prices, royalties, held;
      ghost var ss := sales;
      var history, price := hs[id], ps[id];
      var royalty: nat := rs[id] + RoyaltyPool(price);
      var raised: map<nat, nat> := rs[id := royalty];
      assert raised == old(royalties[id := royalties[id] + RoyaltyPool(prices[id])]);
      ghost var sold: seq<nat> := ss[id] + [price];
      assert sold[..|sold| - 1] == ss[id];
      var after;
      receipt, after := Transfer(history, price, buyer, payment);
      assert TokenValid(after, NextPrice(price), royalty, sold) by {
        AfterSaleKeepsLevels(history, buyer);
      }
      AllTokensValidAfterUpdate(hs, ps, rs, ss, id, after, NextPrice(price), royalty, sold);
      var kept: nat := kept0 + (receipt.pool - Paid(receipt.royalties));
      Store(count, hs[id := after], ps[id := NextPrice(price)], raised, ss[id := sold], kept);
    }

    /** The commit step of Sell, not an operation of the contract: writes
        the whole state of the ledger, computed beforehand, at once. */
    method Store(count: nat, hs: map<nat, seq<Record>>, ps: map<nat, nat>, rs: map<nat, nat>,
                 ghost ss: map<nat, seq<nat>>, kept: nat)
      requires forall id: nat :: id in hs <==> id < count
      requires AllTokensValid(hs, ps, rs, ss)
      modifies this
      ensures Valid()
      ensures nextId == count && histories == hs && prices == ps && royalties == rs && sales == ss
      ensures held == kept
    {
      nextId, histories, prices, royalties, sales, held := count, hs, ps, rs, ss, kept;
    }

    /** ownerOf(id): the newest record's owner. */
    function OwnerOf(id: nat): (r: Result<Address>)
      reads this
      requires Valid()
      ensures r.Err? <==> nextId <= id
      ensures r.Err? ==> r.error == TokenDoesNotExist
      ensures r.Ok? ==> histories[id][|histories[id]| - 1] == Record(r.value, 1)
    {
      if id < nextId then Ok(Owner(histories[id])) else Err(TokenDoesNotExist)
    }

    /** getCurrentPrice(id): what the next buyer must pay, never 0. */
    function GetCurrentPrice(id: nat): (r: Result<nat>)
      reads this
      requires Valid()
      ensures r.Err? <==> nextId <= id
      ensures r.Ok? ==> r.value == prices[id] && r.value > 0
    {
      if id < nextId then Ok(prices[id]) else Err(TokenDoesNotExist)
    }

    /** getOwnershipHistory(id): the whole history, oldest first, with the
        level invariant. */
    function GetOwnershipHistory(id: nat): (r: Result<seq<Record>>)
      reads this
      requires Valid()
      ensures r.Err? <==> nextId <= id
      ensures r.Ok? ==> r.value == histories[id] && WellLeveled(r.value)
    {
      if id < nextId then Ok(histories[id]) else Err(TokenDoesNotExist)
    }

    /** getRoyaltyPool(id): the records a sale now would pay royalties to. */
    function GetRoyaltyPool(id: nat): (r: Result<seq<Record>>)
      reads this
      requires Valid()
      ensures r.Err? <==> nextId <= id
      ensures r.Ok? ==> r.value + [Record(Owner(histories[id]), 1)] == histories[id]
    {
      if id < nextId then Ok(Eligible(histories[id])) else Err(TokenDoesNotExist)
    }

    /** getTotalRoyalties(id): the pools of all sales so far. */
    function GetTotalRoyalties(id: nat): (r: Result<nat>)
      reads this
      requires Valid()
      ensures r.Err? <==> nextId <= id
      ensures r.Ok? ==> r.value == TotalPools(sales[id])
    {
      if id < nextId then Ok(royalties[id]) else Err(TokenDoesNotExist)
    }
  }
}

