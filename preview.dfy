/**
 * The royalty preview of the token detail page: a weighted split of a
 * royalty amount over an ownership history, computed in BigInt.
 * Unlike the contract it splits over the whole history, the current owner
 * included.
 */
module RoyaltyPreview {

  import opened Wrappers
  import opened Money
  import opened RoyaltyLedger

  /** One row of the breakdown: the record with its weight and share. */
  datatype Share = Share(owner: Address, level: nat, weight: nat, share: nat)

  /** What the component computes: the "no data" branch, the rows with
      their total weight, or the RangeError BigInt division by zero throws. */
  datatype Breakdown = NoData | Rows(totalWeight: nat, shares: seq<Share>) | DivisionByZero

  /** The reduce over the history: levels added up from the left, which
      is the contract's level sum. */
  function TotalWeight(history: seq<Record>): (total: nat)
    ensures total == SumLevels(history)
  {
    if history == [] then 0
    else
      var init := history[..|history| - 1];
      assert init + [history[|history| - 1]] == history;
      SumLevelsAppend(init, history[|history| - 1]);
      TotalWeight(init) + history[|history| - 1].level
  }

  /** A row's share: floor(pool * weight / total) when a non-zero pool is
      given, 0n otherwise. */
  function ShareOf(pool: Option<nat>, weight: nat, total: nat): (share: nat)
    requires pool.Some? && pool.value > 0 ==> total > 0
    ensures pool.None? || pool.value == 0 ==> share == 0
    ensures pool.Some? && pool.value > 0 ==>
      share * total <= pool.value * weight < share * total + total
  {
    if pool.Some? && pool.value > 0 then PercentageOf(pool.value, weight, total) else 0
  }

  /** The map over the history: one row per record, in order, keeping its
      owner and level and weighing it by its level. */
  function SharesOf(history: seq<Record>, pool: Option<nat>, total: nat): (rows: seq<Share>)
    requires pool.Some? && pool.value > 0 ==> total > 0
    ensures |rows| == |history|
    ensures forall i :: 0 <= i < |rows| ==>
      rows[i].owner == history[i].owner && rows[i].level == history[i].level && rows[i].weight == history[i].level
  {
    if history == [] then []
    else
      assert forall i :: 1 <= i < |history| ==> history[i] == history[1..][i - 1];
      [Share(history[0].owner, history[0].level, history[0].level, ShareOf(pool, history[0].level, total))]
      + SharesOf(history[1..], pool, total)
  }

  function Preview(history: Option<seq<Record>>, pool: Option<nat>): (b: Breakdown)
    ensures b == NoData <==> history.None? || history.value == []
    ensures b == DivisionByZero <==>
      history.Some? && history.value != [] && pool.Some? && pool.value > 0 && SumLevels(history.value) == 0
  {
    if history.None? || history.value == [] then NoData
    else
      var total := TotalWeight(history.value);
      if pool.Some? && pool.value > 0 && total == 0 then DivisionByZero
      else Rows(total, SharesOf(history.value, pool, total))
  }

  function SumShares(shares: seq<Share>): nat
  {
    if shares == [] then 0 else shares[0].share + SumShares(shares[1..])
  }

  /** One row per record, in history order, keeping owner and level, with
      weight equal to level and the share of that weight. */
  lemma {:induction false} SharesOfAt(history: seq<Record>, pool: Option<nat>, total: nat, i: nat)
    requires pool.Some? && pool.value > 0 ==> total > 0
    requires i < |history|
    ensures |SharesOf(history, pool, total)| == |history|
    ensures SharesOf(history, pool, total)[i]
         == Share(history[i].owner, history[i].level, history[i].level, ShareOf(pool, history[i].level, total))
  {
    if i > 0 {
      SharesOfAt(history[1..], pool, total, i - 1);
    }
  }

  /** With a non-zero pool the rows pay what the contract's split would pay
      the same records with the same divisor. */
  lemma {:induction false} SharesMatchContractSplit(history: seq<Record>, pool: nat, total: nat)
    requires pool > 0 && total > 0
    ensures SumShares(SharesOf(history, Some(pool), total)) == Paid(RoyaltyShares(history, pool, total))
  {
    if history != [] {
      var rows := SharesOf(history, Some(pool), total);
      assert rows[1..] == SharesOf(history[1..], Some(pool), total);
      var payments := RoyaltyShares(history, pool, total);
      assert payments[1..] == RoyaltyShares(history[1..], pool, total);
      SharesMatchContractSplit(history[1..], pool, total);
    }
  }

  /** A single row's share never exceeds the total of all rows. */
  lemma {:induction false} ShareAtMostSum(shares: seq<Share>, i: nat)
    requires i < |shares|
    ensures shares[i].share <= SumShares(shares)
  {
    if i > 0 {
      ShareAtMostSum(shares[1..], i - 1);
    }
  }

  /** Because each share rounds down and the weights add up to the total,
      every share, and the sum of all of them, is at most the pool. */
  lemma SharesWithinPool(history: seq<Record>, pool: nat)
    requires history != [] && pool > 0
    requires Preview(Some(history), Some(pool)).Rows?
    ensures var rows := Preview(Some(history), Some(pool)).shares;
      && SumShares(rows) <= pool
      && forall i :: 0 <= i < |rows| ==> rows[i].share <= pool
  {
    var total := TotalWeight(history);
    var rows := SharesOf(history, Some(pool), total);
    SharesMatchContractSplit(history, pool, total);
    RoyaltySharesWithinPool(history, pool, total);
    forall i | 0 <= i < |rows|
      ensures rows[i].share <= pool
    {
      ShareAtMostSum(rows, i);
    }
  }

  /** A non-empty history with a positive level never makes the division
      throw, and then the breakdown has one row per record. */
  lemma PreviewRows(history: seq<Record>, pool: Option<nat>)
    requires history != [] && SumLevels(history) > 0
    ensures Preview(Some(history), pool).Rows?
    ensures Preview(Some(history), pool).totalWeight == SumLevels(history)
    ensures |Preview(Some(history), pool).shares| == |history|
  {
  }

  /** Every history the contract returns has a positive total weight: the
      preview never throws on it. */
  lemma PreviewOfLedgerHistory(history: seq<Record>, pool: Option<nat>)
    requires WellLeveled(history)
    ensures Preview(Some(history), pool).Rows?
  {
    WellLeveledWeight(history);
    PreviewRows(history, pool);
  }

  /** The preview and the contract split differently: the preview's divisor
      counts the current owner's level 1 as well, and the preview has a row
      for the current owner, whom the contract pays no royalty. */
  lemma PreviewCountsSeller(history: seq<Record>, pool: Option<nat>)
    requires WellLeveled(history)
    ensures TotalWeight(history) == SumLevels(Eligible(history)) + 1
    ensures var rows := Preview(Some(history), pool).shares;
      |rows| == |Eligible(history)| + 1
      && rows[|rows| - 1].owner == Owner(history)
      && rows[|rows| - 1].weight == 1
  {
    SumLevelsAppend(Eligible(history), history[|history| - 1]);
    PreviewOfLedgerHistory(history, pool);
  }
}
