/**
 * The inventory valuation calculator: the weighted-average cost update applied
 * on a purchase, and first-in-first-out cost of goods sold computed on a sale
 * (src/lib/valuation.ts). Quantities are integers and money is `real`; the
 * calculator never touches storage, it only returns what the caller should
 * persist.
 */
module Valuation {

  /** The stock state of one item as the calculator reads it. */
  datatype InventoryItem = InventoryItem(id: string, quantity: int, weighted_avg_cost: real)

  /** One stock receipt: how much of it is left and what each unit cost. */
  datatype StockBatch = StockBatch(id: string, quantity_remaining: int, unit_cost: real)

  /** The new remaining quantity of one batch a sale has drawn from. */
  datatype BatchUpdate = BatchUpdate(id: string, quantity_remaining: int)

  /** What the FIFO calculation returns: the cost of the units taken and the batch updates. */
  datatype FifoResult = FifoResult(totalCost: real, batchUpdates: seq<BatchUpdate>)

  /** `Math.min` on integers. */
  function Min(a: int, b: int): (m: int)
    ensures m <= a && m <= b && (m == a || m == b)
  {
    if a <= b then a else b
  }

  // ---------------------------------------------------------------------------
  // Weighted average cost
  // ---------------------------------------------------------------------------

  /**
   * The average unit cost after adding `newQuantity` units bought for
   * `totalPurchaseCost` to `oldQuantity` units valued at `oldAvgCost` each.
   * A combined stock of zero or less yields 0 instead of dividing by it.
   */
  function NewWeightedAverage(oldQuantity: int, oldAvgCost: real, newQuantity: int, totalPurchaseCost: real): (avg: real)
    ensures oldQuantity + newQuantity <= 0 ==> avg == 0.0
    ensures oldQuantity + newQuantity > 0 ==>
      avg * (oldQuantity + newQuantity) as real == oldQuantity as real * oldAvgCost + totalPurchaseCost
  {
    var updatedStock := oldQuantity + newQuantity;
    if updatedStock <= 0 then 0.0
    else
      var oldTotalValue := oldQuantity as real * oldAvgCost;
      var newTotalValue := totalPurchaseCost;
      (oldTotalValue + newTotalValue) / updatedStock as real
  }

  /** From an empty stock the new average is the purchase's own unit cost, whatever the old average was. */
  lemma WacFromEmptyStock(oldAvgCost: real, newQuantity: int, totalPurchaseCost: real)
    requires newQuantity > 0
    ensures NewWeightedAverage(0, oldAvgCost, newQuantity, totalPurchaseCost) == totalPurchaseCost / newQuantity as real
  {
  }

  /**
   * With non-negative stock and a positive purchase, the new average lies
   * between the old average and the purchase's unit cost.
   */
  lemma WacBetween(oldQuantity: int, oldAvgCost: real, newQuantity: int, totalPurchaseCost: real)
    requires oldQuantity >= 0 && newQuantity > 0
    ensures var avg := NewWeightedAverage(oldQuantity, oldAvgCost, newQuantity, totalPurchaseCost);
            var unit := totalPurchaseCost / newQuantity as real;
            (if oldAvgCost <= unit then oldAvgCost else unit) <= avg <= (if oldAvgCost <= unit then unit else oldAvgCost)
  {
    var avg := NewWeightedAverage(oldQuantity, oldAvgCost, newQuantity, totalPurchaseCost);
    var unit := totalPurchaseCost / newQuantity as real;
    var o, n := oldQuantity as real, newQuantity as real;
    assert totalPurchaseCost == unit * n;
    assert avg * (o + n) == o * oldAvgCost + n * unit;
    BlendBounds(o, n, oldAvgCost, unit, avg);
  }

  /** A weighted blend `avg` of `a` (weight `o`) and `b` (weight `n > 0`) lies between `a` and `b`. */
  lemma BlendBounds(o: real, n: real, a: real, b: real, avg: real)
    requires o >= 0.0 && n > 0.0
    requires avg * (o + n) == o * a + n * b
    ensures (if a <= b then a else b) <= avg <= (if a <= b then b else a)
  {
    if a <= b {
      BlendAtLeast(o, n, a, b, avg);
      BlendAtMost(o, n, a, b, avg);
    } else {
      assert avg * (n + o) == n * b + o * a;
      BlendAtLeast(n, o, b, a, avg);
      BlendAtMost(n, o, b, a, avg);
    }
  }

  lemma BlendAtLeast(o: real, n: real, a: real, b: real, avg: real)
    requires o >= 0.0 && n >= 0.0 && o + n > 0.0 && a <= b
    requires avg * (o + n) == o * a + n * b
    ensures a <= avg
  {
    MulMono(n, a, b);
    assert a * (o + n) == o * a + n * a;
    CancelPositive(o + n, a, avg);
  }

  lemma BlendAtMost(o: real, n: real, a: real, b: real, avg: real)
    requires o >= 0.0 && n >= 0.0 && o + n > 0.0 && a <= b
    requires avg * (o + n) == o * a + n * b
    ensures avg <= b
  {
    MulMono(o, a, b);
    assert o * a + n * b <= o * b + n * b;
    assert b * (o + n) == o * b + n * b;
    assert avg * (o + n) <= b * (o + n);
    CancelPositive(o + n, avg, b);
  }

  lemma MulMono(k: real, x: real, y: real)
    requires k >= 0.0 && x <= y
    ensures k * x <= k * y
  {
    assert k * y - k * x == k * (y - x);
  }

  lemma MulStrict(k: real, x: real, y: real)
    requires k > 0.0 && x < y
    ensures x * k < y * k
  {
    assert y * k - x * k == k * (y - x);
  }

  /** Multiplying by a positive factor can be cancelled from an inequality. */
  lemma CancelPositive(k: real, x: real, y: real)
    requires k > 0.0 && x * k <= y * k
    ensures x <= y
  {
    if x > y {
      MulStrict(k, y, x);
      assert false;
    }
  }

  /** Buying more at exactly the current average cost leaves the average unchanged. */
  lemma WacSameCostUnchanged(oldQuantity: int, oldAvgCost: real, newQuantity: int)
    requires oldQuantity + newQuantity > 0
    ensures NewWeightedAverage(oldQuantity, oldAvgCost, newQuantity, newQuantity as real * oldAvgCost) == oldAvgCost
  {
    var avg := NewWeightedAverage(oldQuantity, oldAvgCost, newQuantity, newQuantity as real * oldAvgCost);
    var s := (oldQuantity + newQuantity) as real;
    assert avg * s == oldAvgCost * s;
    CancelPositive(s, avg, oldAvgCost);
    CancelPositive(s, oldAvgCost, avg);
  }

  /** Two purchases from an empty stock: 10 units for 100, then 10 units for 300. */
  lemma WacTwoPurchases()
    ensures NewWeightedAverage(0, 0.0, 10, 100.0) == 10.0
    ensures NewWeightedAverage(10, 10.0, 10, 300.0) == 20.0
  {
  }

  // ---------------------------------------------------------------------------
  // FIFO cost of goods sold
  // ---------------------------------------------------------------------------

  /**
   * The FIFO consumption of `remaining` units from `batches`, oldest first:
   * each batch gives up `Min(remaining, quantity_remaining)` until nothing is
   * left to sell or the batches run out. Every batch visited gets an update,
   * drained ones included; an unmet remainder is silently dropped.
   */
  function Fifo(remaining: int, batches: seq<StockBatch>): (r: FifoResult)
    ensures |r.batchUpdates| <= |batches|
    decreases |batches|
  {
    if |batches| == 0 || remaining <= 0 then FifoResult(0.0, [])
    else
      var batch := batches[0];
      var take := Min(remaining, batch.quantity_remaining);
      var rest := Fifo(remaining - take, batches[1..]);
      FifoResult(take as real * batch.unit_cost + rest.totalCost,
                 [BatchUpdate(batch.id, batch.quantity_remaining - take)] + rest.batchUpdates)
  }

  /** Total remaining quantity over a list of batches. */
  function Supply(batches: seq<StockBatch>): int
  {
    if |batches| == 0 then 0 else batches[0].quantity_remaining + Supply(batches[1..])
  }

  /** No batch has a negative remaining quantity. */
  predicate NonNegative(batches: seq<StockBatch>)
  {
    forall k :: 0 <= k < |batches| ==> batches[k].quantity_remaining >= 0
  }

  /** The units taken from each batch, read off the updates paired with the batches they replace. */
  function Consumed(batches: seq<StockBatch>, updates: seq<BatchUpdate>): int
  {
    if |batches| == 0 || |updates| == 0 then 0
    else (batches[0].quantity_remaining - updates[0].quantity_remaining) + Consumed(batches[1..], updates[1..])
  }

  /** The value of those units at each batch's own unit cost. */
  function CostOf(batches: seq<StockBatch>, updates: seq<BatchUpdate>): real
  {
    if |batches| == 0 || |updates| == 0 then 0.0
    else (batches[0].quantity_remaining - updates[0].quantity_remaining) as real * batches[0].unit_cost
         + CostOf(batches[1..], updates[1..])
  }

  /** The updates name a prefix of the batches, in the batches' order. */
  predicate IsIdPrefix(updates: seq<BatchUpdate>, batches: seq<StockBatch>)
  {
    |updates| <= |batches| && forall k :: 0 <= k < |updates| ==> updates[k].id == batches[k].id
  }

  lemma SupplyPrefix(batches: seq<StockBatch>, k: nat)
    requires 0 < k <= |batches|
    ensures Supply(batches[..k]) == batches[0].quantity_remaining + Supply(batches[1..][..k - 1])
  {
    assert batches[..k][1..] == batches[1..][..k - 1];
  }

  lemma {:induction false} SupplyNonNegative(batches: seq<StockBatch>)
    requires NonNegative(batches)
    ensures Supply(batches) >= 0
  {
    if |batches| > 0 {
      SupplyNonNegative(batches[1..]);
    }
  }

  /** Consumption is strictly oldest-first: the updated batches are the first ones, in order. */
  lemma {:induction false} FifoOldestFirst(remaining: int, batches: seq<StockBatch>)
    ensures IsIdPrefix(Fifo(remaining, batches).batchUpdates, batches)
    decreases |batches|
  {
    if |batches| > 0 && remaining > 0 {
      var take := Min(remaining, batches[0].quantity_remaining);
      FifoOldestFirst(remaining - take, batches[1..]);
    }
  }

  /** The total cost is the sum, over the batches touched, of units taken times that batch's unit cost. */
  lemma {:induction false} FifoCostIsSumOfTakes(remaining: int, batches: seq<StockBatch>)
    ensures Fifo(remaining, batches).totalCost == CostOf(batches, Fifo(remaining, batches).batchUpdates)
    decreases |batches|
  {
    if |batches| > 0 && remaining > 0 {
      var take := Min(remaining, batches[0].quantity_remaining);
      FifoCostIsSumOfTakes(remaining - take, batches[1..]);
    }
  }

  /** Every slice of non-negative batches is non-negative. */
  lemma NonNegativeSlice(batches: seq<StockBatch>, i: nat, j: nat)
    requires NonNegative(batches) && i <= j <= |batches|
    ensures NonNegative(batches[i..j])
  {
    forall k | 0 <= k < j - i ensures batches[i..j][k].quantity_remaining >= 0 {
      assert batches[i..j][k] == batches[i + k];
    }
  }

  /**
   * The update at position `k` belongs to a batch visited while the request
   * was unmet, and is that batch's quantity less `Min(still to sell,
   * quantity_remaining)`, where what is still to sell is the request less
   * everything in the older batches. Every batch passed on the way is taken
   * whole, so this holds for batches of any sign.
   */
  lemma {:induction false} FifoUpdateAt(remaining: int, batches: seq<StockBatch>, k: nat)
    requires k < |Fifo(remaining, batches).batchUpdates|
    ensures k < |batches|
    ensures Supply(batches[..k]) < remaining
    ensures Fifo(remaining, batches).batchUpdates[k].quantity_remaining
            == batches[k].quantity_remaining - Min(remaining - Supply(batches[..k]), batches[k].quantity_remaining)
    decreases k
  {
    var b := batches[0];
    var take := Min(remaining, b.quantity_remaining);
    var rest := batches[1..];
    var u := Fifo(remaining, batches).batchUpdates;
    var v := Fifo(remaining - take, rest).batchUpdates;
    assert u == [BatchUpdate(b.id, b.quantity_remaining - take)] + v;
    if k == 0 {
      assert batches[..0] == [];
      assert u[0].quantity_remaining == b.quantity_remaining - take;
    } else {
      FifoUpdateAt(remaining - take, rest, k - 1);
      var older := Supply(rest[..k - 1]);
      assert Supply(batches[..k]) == b.quantity_remaining + older by {
        SupplyPrefix(batches, k);
      }
      // a later batch was visited, so something was still to sell after this one and it was drained completely
      assert remaining - take > 0;
      DrainedBeforeLater(remaining, b.quantity_remaining, older, take);
      assert u[k] == v[k - 1] && batches[k] == rest[k - 1];
    }
  }

  /** Arithmetic of a batch passed on the way to a later one: it was drained, and the shortfall carries over. */
  lemma DrainedBeforeLater(remaining: int, quantity: int, older: int, take: int)
    requires take == Min(remaining, quantity) && take < remaining && older < remaining - take
    ensures take == quantity
    ensures quantity + older < remaining
    ensures remaining - (quantity + older) == (remaining - take) - older
  {
  }

  /** Iteration stops right after the batch that meets the request, or at the end. */
  lemma {:induction false} FifoStopsWhenMet(remaining: int, batches: seq<StockBatch>)
    ensures var n := |Fifo(remaining, batches).batchUpdates|;
            n <= |batches| && (n < |batches| ==> remaining <= Supply(batches[..n]))
    decreases |batches|
  {
    FifoOldestFirst(remaining, batches);
    var n := |Fifo(remaining, batches).batchUpdates|;
    if remaining <= 0 {
      assert batches[..0] == [];
    } else if |batches| > 0 {
      var b := batches[0];
      var take := Min(remaining, b.quantity_remaining);
      var rest := batches[1..];
      FifoStopsWhenMet(remaining - take, rest);
      assert n == 1 + |Fifo(remaining - take, rest).batchUpdates|;
      if n < |batches| {
        SupplyPrefix(batches, n);
        if remaining - take <= 0 {
          assert rest[..0] == [];
        }
      }
    }
  }

  /**
   * The FIFO updates in full, for batches of any sign: update `k` is batch
   * `k`'s quantity less `Min(request less all older batches, quantity_remaining)`;
   * a batch is touched only while the request is unmet; and iteration stops
   * right after the batch that meets it.
   */
  lemma FifoTakes(remaining: int, batches: seq<StockBatch>)
    ensures var u := Fifo(remaining, batches).batchUpdates;
            && |u| <= |batches|
            && (forall k :: 0 <= k < |u| ==> Supply(batches[..k]) < remaining)
            && (forall k :: 0 <= k < |u| ==>
                  u[k].quantity_remaining
                  == batches[k].quantity_remaining - Min(remaining - Supply(batches[..k]), batches[k].quantity_remaining))
            && (|u| < |batches| ==> remaining <= Supply(batches[..|u|]))
  {
    var u := Fifo(remaining, batches).batchUpdates;
    forall k | 0 <= k < |u|
      ensures k < |batches| && Supply(batches[..k]) < remaining
      ensures u[k].quantity_remaining
              == batches[k].quantity_remaining - Min(remaining - Supply(batches[..k]), batches[k].quantity_remaining)
    {
      FifoUpdateAt(remaining, batches, k);
    }
    FifoStopsWhenMet(remaining, batches);
  }

  /**
   * With a non-negative request and non-negative batches, exactly
   * `Min(request, supply)` units are consumed: a short supply is drained
   * rather than reported.
   */
  lemma {:induction false} FifoConsumesMinOfRequestAndSupply(remaining: int, batches: seq<StockBatch>)
    requires remaining >= 0 && NonNegative(batches)
    ensures Consumed(batches, Fifo(remaining, batches).batchUpdates) == Min(remaining, Supply(batches))
  {
    SupplyNonNegative(batches);
    if |batches| > 0 && remaining > 0 {
      var b := batches[0];
      var take := Min(remaining, b.quantity_remaining);
      var rest := batches[1..];
      NonNegativeSlice(batches, 1, |batches|);
      SupplyNonNegative(rest);
      FifoConsumesMinOfRequestAndSupply(remaining - take, rest);
    }
  }

  /** When the request exceeds the supply, every batch is visited and each is drained to 0. */
  lemma {:induction false} FifoShortSupplyDrainsAll(remaining: int, batches: seq<StockBatch>)
    requires NonNegative(batches) && Supply(batches) < remaining
    ensures var u := Fifo(remaining, batches).batchUpdates;
            |u| == |batches| && forall k :: 0 <= k < |u| ==> u[k].quantity_remaining == 0
  {
    if |batches| > 0 {
      var b := batches[0];
      var rest := batches[1..];
      NonNegativeSlice(batches, 1, |batches|);
      SupplyNonNegative(rest);
      assert Min(remaining, b.quantity_remaining) == b.quantity_remaining;
      FifoShortSupplyDrainsAll(remaining - b.quantity_remaining, rest);
      var u := Fifo(remaining, batches).batchUpdates;
      var v := Fifo(remaining - b.quantity_remaining, rest).batchUpdates;
      assert u == [BatchUpdate(b.id, 0)] + v;
    }
  }

  /** Each update lies between 0 and the batch's original quantity, for non-negative batches. */
  lemma FifoUpdatesInRange(remaining: int, batches: seq<StockBatch>)
    requires NonNegative(batches)
    ensures var u := Fifo(remaining, batches).batchUpdates;
            && |u| <= |batches|
            && forall k :: 0 <= k < |u| ==> 0 <= u[k].quantity_remaining <= batches[k].quantity_remaining
  {
    var u := Fifo(remaining, batches).batchUpdates;
    FifoOldestFirst(remaining, batches);
    forall k | 0 <= k < |u| ensures 0 <= u[k].quantity_remaining <= batches[k].quantity_remaining {
      FifoUpdateAt(remaining, batches, k);
    }
  }

  /** A request of zero or less costs nothing and touches no batch. */
  lemma FifoNothingToSell(remaining: int, batches: seq<StockBatch>)
    requires remaining <= 0
    ensures Fifo(remaining, batches) == FifoResult(0.0, [])
  {
  }

  /** Two batches of 5 at 10 and at 20 each: a sale of 7 costs 90, a sale of 20 costs 150 and drains both. */
  lemma FifoTwoBatches()
    ensures var batches := [StockBatch("a", 5, 10.0), StockBatch("b", 5, 20.0)];
            && Fifo(7, batches) == FifoResult(90.0, [BatchUpdate("a", 0), BatchUpdate("b", 3)])
            && Fifo(20, batches) == FifoResult(150.0, [BatchUpdate("a", 0), BatchUpdate("b", 0)])
  {
    var batches := [StockBatch("a", 5, 10.0), StockBatch("b", 5, 20.0)];
    assert batches[1..] == [StockBatch("b", 5, 20.0)] && batches[1..][1..] == [];
  }

  /** What has been accumulated so far followed by what the remaining batches add. */
  function Then(done: FifoResult, rest: FifoResult): FifoResult
  {
    FifoResult(done.totalCost + rest.totalCost, done.batchUpdates + rest.batchUpdates)
  }

  /** Nothing more to add leaves the accumulated result as it is. */
  lemma ThenNothing(done: FifoResult)
    ensures Then(done, FifoResult(0.0, [])) == done
  {
    assert done.batchUpdates + [] == done.batchUpdates;
  }

  /**
   * One pass of the loop: taking `take` units from batch `i` and moving the
   * cost and the update into the accumulated result leaves the overall
   * result unchanged.
   */
  lemma FifoStep(remaining: int, batches: seq<StockBatch>, i: nat, done: FifoResult, take: int)
    requires i < |batches| && remaining > 0
    requires take == Min(remaining, batches[i].quantity_remaining)
    ensures Then(done, Fifo(remaining, batches[i..]))
            == Then(FifoResult(done.totalCost + take as real * batches[i].unit_cost,
                               done.batchUpdates + [BatchUpdate(batches[i].id, batches[i].quantity_remaining - take)]),
                    Fifo(remaining - take, batches[i + 1..]))
  {
    var update := BatchUpdate(batches[i].id, batches[i].quantity_remaining - take);
    var later := Fifo(remaining - take, batches[i + 1..]);
    assert batches[i..][1..] == batches[i + 1..];
    assert batches[i..][0] == batches[i];
    assert Fifo(remaining, batches[i..])
           == FifoResult(take as real * batches[i].unit_cost + later.totalCost, [update] + later.batchUpdates);
    assert done.batchUpdates + ([update] + later.batchUpdates) == (done.batchUpdates + [update]) + later.batchUpdates;
  }

  /** Past the last batch the rest adds nothing. */
  lemma FifoAtEnd(remaining: int, batches: seq<StockBatch>)
    ensures Fifo(remaining, batches[|batches|..]) == FifoResult(0.0, [])
  {
    assert batches[|batches|..] == [];
  }

  /**
   * The FIFO calculation as the source runs it: a loop over the batches in
   * order that stops as soon as nothing is left to sell, accumulating the
   * cost and appending one update per batch visited. The batches themselves
   * are a value and are not changed.
   */
  method CalculateFIFOCOGS(quantityToSell: int, batches: seq<StockBatch>)
    returns (totalCost: real, batchUpdates: seq<BatchUpdate>)
    ensures FifoResult(totalCost, batchUpdates) == Fifo(quantityToSell, batches)
    ensures IsIdPrefix(batchUpdates, batches)
    ensures totalCost == CostOf(batches, batchUpdates)
  {
    var remaining := quantityToSell;
    totalCost := 0.0;
    batchUpdates := [];
    ThenNothing(Fifo(quantityToSell, batches));
    assert batches[0..] == batches;
    for i := 0 to |batches|
      invariant Fifo(quantityToSell, batches) == Then(FifoResult(totalCost, batchUpdates), Fifo(remaining, batches[i..]))
    {
      if remaining <= 0 {
        FifoNothingToSell(remaining, batches[i..]);
        ThenNothing(FifoResult(totalCost, batchUpdates));
        break;
      }
      var take := Min(remaining, batches[i].quantity_remaining);
      FifoStep(remaining, batches, i, FifoResult(totalCost, batchUpdates), take);
      totalCost := totalCost + take as real * batches[i].unit_cost;
      batchUpdates := batchUpdates + [BatchUpdate(batches[i].id, batches[i].quantity_remaining - take)];
      remaining := remaining - take;
    }
    FifoAtEnd(remaining, batches);
    ThenNothing(FifoResult(totalCost, batchUpdates));
    FifoOldestFirst(quantityToSell, batches);
    FifoCostIsSumOfTakes(quantityToSell, batches);
  }
}
