/** The test suite's story, told against the ledger's contracts: a mint at
    1 ether, three sales, the three reverts and an overpaid sale. */
module RoyaltyScenario {

  import opened RoyaltyLedger

  const Ether: nat := 1_000_000_000_000_000_000

  method MintAndReverts(owner: Address, buyer1: Address)
    requires owner != buyer1
  {
    var nft := new RoyaltyNft();
    var sale := nft.Buy(buyer1, 999, Ether);
    assert sale == Err(TokenDoesNotExist);

    var minted := nft.Mint(owner, Ether);
    assert minted == Ok(0);
    assert nft.GetCurrentPrice(0) == Ok(Ether);
    assert nft.GetOwnershipHistory(0) == Ok([Record(owner, 1)]);

    sale := nft.Buy(owner, 0, Ether);
    assert sale == Err(CannotBuyOwnNft);
    sale := nft.Buy(buyer1, 0, Ether / 2);
    assert sale == Err(InsufficientPayment);
    assert nft.GetOwnershipHistory(0) == Ok([Record(owner, 1)]);
  }

  const Price1: nat := Ether * 110 / 100
  const Price2: nat := Price1 * 110 / 100

  /** First sale: nobody is eligible, the seller gets 90% and the pool is
      still counted. */
  method FirstSale(owner: Address, buyer1: Address) returns (nft: RoyaltyNft)
    requires owner != buyer1
    ensures fresh(nft) && nft.Valid() && nft.nextId == 1
    ensures nft.histories[0] == [Record(owner, 2), Record(buyer1, 1)] && nft.prices[0] == Price1
    ensures nft.royalties[0] == Ether * 10 / 100
  {
    nft := new RoyaltyNft();
    var minted := nft.Mint(owner, Ether);
    FirstSaleStrandsPool(owner, Ether, buyer1, Ether);
    SellerAmountMatchesTest(Ether);
    assert [Record(owner, 1)][1..] == [];
    assert AfterSale([Record(owner, 1)], buyer1) == [Record(owner, 2), Record(buyer1, 1)];
    var sale := nft.Buy(buyer1, 0, Ether);
    assert sale.Ok?;
    assert sale.value.seller == Payment(owner, Ether * 90 / 100);
    assert sale.value.royalties == [];
    assert nft.OwnerOf(0) == Ok(buyer1);
    FirstSaleQueries(nft, owner, buyer1);
  }

  /** What the queries report after the first sale. */
  method FirstSaleQueries(nft: RoyaltyNft, owner: Address, buyer1: Address)
    requires nft.Valid() && nft.nextId == 1
    requires nft.histories[0] == [Record(owner, 2), Record(buyer1, 1)] && nft.prices[0] == Price1
    requires nft.royalties[0] == Ether * 10 / 100
  {
    assert nft.GetCurrentPrice(0) == Ok(Price1);
    assert nft.GetOwnershipHistory(0) == Ok([Record(owner, 2), Record(buyer1, 1)]);
    assert [Record(owner, 2), Record(buyer1, 1)][..1] == [Record(owner, 2)];
    assert nft.GetRoyaltyPool(0) == Ok([Record(owner, 2)]);
    assert nft.GetTotalRoyalties(0) == Ok(Ether * 10 / 100);
  }

  /** Second sale: the minter, alone at level 2, takes the whole pool. */
  method SecondSale(nft: RoyaltyNft, owner: Address, buyer1: Address, buyer2: Address)
    requires owner != buyer2 && buyer1 != buyer2
    requires nft.Valid() && nft.nextId == 1
    requires nft.histories[0] == [Record(owner, 2), Record(buyer1, 1)] && nft.prices[0] == Price1
    modifies nft
    ensures nft.Valid() && nft.nextId == 1
    ensures nft.histories[0] == [Record(owner, 3), Record(buyer1, 2), Record(buyer2, 1)]
    ensures nft.prices[0] == Price2
  {
    SoleEligibleTakesPool([Record(owner, 2), Record(buyer1, 1)], Price1, buyer2, Price1);
    var sale := nft.Buy(buyer2, 0, Price1);
    assert sale.Ok?;
    assert sale.value.royalties == [Payment(owner, Price1 * 10 / 100)];
    var before := [Record(owner, 2), Record(buyer1, 1)];
    AfterSaleKeepsLevels(before, buyer2);
    assert AfterSale(before, buyer2) == [Record(owner, 3), Record(buyer1, 2), Record(buyer2, 1)];
  }

  /** Third sale: levels 3 and 2 split the pool 3:2. */
  method ThirdSale(nft: RoyaltyNft, owner: Address, buyer1: Address, buyer2: Address, buyer3: Address)
    requires owner != buyer3 && buyer1 != buyer3 && buyer2 != buyer3
    requires nft.Valid() && nft.nextId == 1
    requires nft.histories[0] == [Record(owner, 3), Record(buyer1, 2), Record(buyer2, 1)]
    requires nft.prices[0] == Price2
    modifies nft
  {
    var pool2 := Price2 * 10 / 100;
    ThreeTwoSplit([Record(owner, 3), Record(buyer1, 2), Record(buyer2, 1)], Price2, buyer3, Price2);
    var sale := nft.Buy(buyer3, 0, Price2);
    assert sale.Ok?;
    assert sale.value.royalties == [Payment(owner, pool2 * 3 / 5), Payment(buyer1, pool2 * 2 / 5)];
    assert sale.value.seller == Payment(buyer2, Price2 - pool2);
  }

  method ThreeSales(owner: Address, buyer1: Address, buyer2: Address, buyer3: Address)
    requires owner != buyer1 && owner != buyer2 && owner != buyer3
    requires buyer1 != buyer2 && buyer1 != buyer3 && buyer2 != buyer3
  {
    var nft := FirstSale(owner, buyer1);
    SecondSale(nft, owner, buyer1, buyer2);
    ThirdSale(nft, owner, buyer1, buyer2, buyer3);
  }

  /** Paying twice the price refunds the excess exactly. */
  method Overpayment(owner: Address, buyer: Address)
    requires owner != buyer
  {
    assert RoyaltyPool(Ether) == Ether / 10;
    var nft := new RoyaltyNft();
    var minted := nft.Mint(owner, Ether);
    assert nft.royalties[0] == 0;
    var sale := nft.Buy(buyer, 0, 2 * Ether);
    assert sale.Ok?;
    assert sale.value.refund == Ether;
    assert nft.royalties[0] == RoyaltyPool(Ether);
    assert nft.GetTotalRoyalties(0) == Ok(Ether / 10);
  }
}
