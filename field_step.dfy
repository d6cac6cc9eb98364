/**
 * The engine's step on values: what `PatchAgent.step` does to one patch and
 * to the model's books, what `schedule.step()` does by activating every patch
 * in a given order, and an order-free description of the same step.
 */
module FieldStep {
  import opened FieldTypes
  import opened FieldPrice

  const GrowthRate: real := 0.00123
  const SugarRate: real := 0.0000688
  /** Charged per patch on every dry step. */
  const IrrigationCost: real := 0.3
  /** Charged per harvest. */
  const HarvestCost: real := 0.05

  /** The state of a placed patch. */
  datatype Patch = Patch(pos: Pos, height: real, sugar: real, price: real)

  /** The model's running totals that the patches update as they step. */
  datatype Books = Books(cashflow: real, numberHarvested: int, capacity: int)

  /**
   * What every activation of one step reads from the model: the price's square
   * root, the harvest threshold, whether this step's rain was good, and the best
   * patch selected before any patch stepped.
   */
  datatype Env = Env(sqrt: real -> real, minHeight: real, wet: bool, best: Option<Pos>)

  /** A good-rain step: the draw does not exceed the rain probability. */
  predicate IsWet(rain: real, rainProbability: real) {
    rain <= rainProbability
  }

  function HeightGain(wet: bool): real {
    if wet then GrowthRate * 2.0 else GrowthRate
  }

  function SugarGain(wet: bool): real {
    if wet then SugarRate * 2.0 else SugarRate
  }

  /** What one patch's growth adds to the cashflow. */
  function GrowthCashflow(wet: bool): real {
    if wet then 0.0 else -IrrigationCost
  }

  /** What `n` patches' growth adds to the cashflow. */
  function TotalGrowthCashflow(wet: bool, n: nat): real {
    if wet then 0.0 else -IrrigationCost * n as real
  }

  /** The growth rule and price refresh, before the harvest decision. */
  function Grown(e: Env, p: Patch): (q: Patch)
    ensures q.pos == p.pos
    ensures e.wet ==> q.height == p.height + 0.00246 && q.sugar == p.sugar + 0.0001376
    ensures !e.wet ==> q.height == p.height + 0.00123 && q.sugar == p.sugar + 0.0000688
    ensures p.height >= 0.0 ==> q.height > 0.0
    ensures p.sugar >= 0.0 ==> q.sugar > 0.0
    ensures q.price == PriceFormula(e.sqrt, q.sugar, q.pos)
  {
    var h := p.height + HeightGain(e.wet);
    var s := p.sugar + SugarGain(e.wet);
    Patch(p.pos, h, s, PriceFormula(e.sqrt, s, p.pos))
  }

  /** The three-part harvest guard, on a patch that has just grown. */
  predicate HarvestGuard(e: Env, q: Patch, capacity: int)
    ensures e.best != Some(q.pos) ==> !HarvestGuard(e, q, capacity)
    ensures q.height < e.minHeight ==> !HarvestGuard(e, q, capacity)
    ensures capacity <= 0 ==> !HarvestGuard(e, q, capacity)
  {
    e.best == Some(q.pos) && q.height >= e.minHeight && capacity > 0
  }

  /** `being_harvested`: height and sugar go to exactly 0; the cached price stays. */
  function Cut(q: Patch): (c: Patch)
    ensures c.pos == q.pos && c.price == q.price
    ensures c.height == 0.0 && c.sugar == 0.0
  {
    q.(height := 0.0, sugar := 0.0)
  }

  /** One activation (`PatchAgent.step`) of a placed patch. */
  function Activate(e: Env, p: Patch, b: Books): (r: (Patch, Books))
    ensures r.0.pos == p.pos
    ensures r.1.numberHarvested + r.1.capacity == b.numberHarvested + b.capacity
    ensures r.1.numberHarvested == b.numberHarvested + 1 <==> HarvestGuard(e, Grown(e, p), b.capacity)
    ensures r.1.numberHarvested == b.numberHarvested + 1 ==>
              r.0.height == 0.0 && r.0.sugar == 0.0 && r.0.price == Grown(e, p).price &&
              r.1.cashflow == b.cashflow + GrowthCashflow(e.wet) + r.0.price - HarvestCost
    ensures r.1.numberHarvested != b.numberHarvested + 1 ==>
              r.0 == Grown(e, p) && r.1 == b.(cashflow := b.cashflow + GrowthCashflow(e.wet))
  {
    var q := Grown(e, p);
    var grownBooks := b.(cashflow := b.cashflow + GrowthCashflow(e.wet));
    if HarvestGuard(e, q, grownBooks.capacity) then
      (Cut(q), Books(grownBooks.cashflow + q.price - HarvestCost, grownBooks.numberHarvested + 1, grownBooks.capacity - 1))
    else
      (q, grownBooks)
  }

  predicate InRange(order: seq<nat>, n: nat) {
    forall k :: 0 <= k < |order| ==> order[k] < n
  }

  predicate NoRepeats(order: seq<nat>) {
    forall k, l :: 0 <= k < l < |order| ==> order[k] != order[l]
  }

  /** `order` lists each of `0 .. n-1` exactly once. */
  predicate IsPermutation(order: seq<nat>, n: nat) {
    |order| == n && InRange(order, n) && NoRepeats(order) && forall i :: 0 <= i < n ==> i in order
  }

  /** `schedule.step()`: activate the patches `ps[order[0]]`, `ps[order[1]]`, ... in turn. */
  function ApplyOrder(e: Env, ps: seq<Patch>, order: seq<nat>, b: Books): (r: (seq<Patch>, Books))
    requires InRange(order, |ps|)
    ensures |r.0| == |ps|
    decreases |order|
  {
    if order == [] then (ps, b)
    else
      var prefix := ApplyOrder(e, ps, order[..|order| - 1], b);
      var k := order[|order| - 1];
      var step := Activate(e, prefix.0[k], prefix.1);
      (prefix.0[k := step.0], step.1)
  }

  predicate SamePositions(ps: seq<Patch>, qs: seq<Patch>) {
    |ps| == |qs| && forall i :: 0 <= i < |ps| ==> ps[i].pos == qs[i].pos
  }

  /**
   * After every prefix of a step's activations (so at every moment of the step):
   * no patch moved, each harvest moved one unit from capacity to the count, the
   * count never fell, the capacity never rose, and it never went below zero
   * when it started at zero or above.
   */
  lemma {:induction false} ApplyOrderBounds(e: Env, ps: seq<Patch>, order: seq<nat>, b: Books)
    requires InRange(order, |ps|)
    ensures SamePositions(ApplyOrder(e, ps, order, b).0, ps)
    ensures ApplyOrder(e, ps, order, b).1.numberHarvested + ApplyOrder(e, ps, order, b).1.capacity
            == b.numberHarvested + b.capacity
    ensures ApplyOrder(e, ps, order, b).1.numberHarvested >= b.numberHarvested
    ensures ApplyOrder(e, ps, order, b).1.capacity <= b.capacity
    ensures b.capacity >= 0 ==> ApplyOrder(e, ps, order, b).1.capacity >= 0
    decreases |order|
  {
    if order != [] {
      ApplyOrderBounds(e, ps, order[..|order| - 1], b);
    }
  }

  // ---- the same step, without an order ----

  predicate DistinctPositions(ps: seq<Patch>) {
    forall i, j :: 0 <= i < j < |ps| ==> ps[i].pos != ps[j].pos
  }

  /** The first patch, in schedule order, standing on `pos`. */
  function IndexAt(ps: seq<Patch>, pos: Pos): (r: Option<nat>)
    ensures r.Some? ==> r.value < |ps| && ps[r.value].pos == pos &&
                        forall j :: 0 <= j < r.value ==> ps[j].pos != pos
    ensures r.None? ==> forall j :: 0 <= j < |ps| ==> ps[j].pos != pos
  {
    if ps == [] then None
    else if ps[0].pos == pos then Some(0)
    else match IndexAt(ps[1..], pos)
      case None => None
      case Some(k) => Some(k + 1)
  }

  /** The patch a step harvests: the one on the best cell, if it grows tall enough and capacity remains. */
  function HarvestedIndex(e: Env, ps: seq<Patch>, capacity: int): (r: Option<nat>)
    ensures r.Some? ==> r.value < |ps| && HarvestGuard(e, Grown(e, ps[r.value]), capacity)
    ensures DistinctPositions(ps) ==>
              forall i :: 0 <= i < |ps| ==> (r == Some(i) <==> HarvestGuard(e, Grown(e, ps[i]), capacity))
  {
    if e.best.None? then None
    else match IndexAt(ps, e.best.value)
      case None => None
      case Some(i) => if HarvestGuard(e, Grown(e, ps[i]), capacity) then Some(i) else None
  }

  /**
   * Each patch after the step, whatever the activation order. A patch that
   * started with no negative height or sugar keeps none, and ends with both at
   * 0 exactly when it met the harvest guard.
   */
  function StepPatches(e: Env, ps: seq<Patch>, capacity: int): (qs: seq<Patch>)
    ensures SamePositions(qs, ps)
    ensures forall i :: 0 <= i < |ps| && ps[i].height >= 0.0 && ps[i].sugar >= 0.0 ==>
              qs[i].height >= 0.0 && qs[i].sugar >= 0.0
    ensures forall i :: 0 <= i < |ps| && ps[i].height >= 0.0 && ps[i].sugar >= 0.0 ==>
              (qs[i].height == 0.0 && qs[i].sugar == 0.0 <==> HarvestGuard(e, Grown(e, ps[i]), capacity))
  {
    seq(|ps|, i requires 0 <= i < |ps| =>
      if HarvestGuard(e, Grown(e, ps[i]), capacity) then Cut(Grown(e, ps[i])) else Grown(e, ps[i]))
  }

  /**
   * The books after the step, whatever the activation order: every patch's
   * growth cashflow, plus the price less the harvest cost when a patch is cut.
   */
  function StepBooks(e: Env, ps: seq<Patch>, b: Books): (r: Books)
    ensures r.numberHarvested == b.numberHarvested || r.numberHarvested == b.numberHarvested + 1
    ensures r.numberHarvested + r.capacity == b.numberHarvested + b.capacity
    ensures r.numberHarvested == b.numberHarvested + 1 <==> HarvestedIndex(e, ps, b.capacity).Some?
    ensures r.numberHarvested == b.numberHarvested ==>
              r.cashflow == b.cashflow + TotalGrowthCashflow(e.wet, |ps|)
    ensures r.numberHarvested == b.numberHarvested + 1 ==>
              r.cashflow == b.cashflow + TotalGrowthCashflow(e.wet, |ps|)
                            + Grown(e, ps[HarvestedIndex(e, ps, b.capacity).value]).price - HarvestCost
  {
    var growth := b.cashflow + TotalGrowthCashflow(e.wet, |ps|);
    match HarvestedIndex(e, ps, b.capacity)
    case None => b.(cashflow := growth)
    case Some(i) =>
      Books(growth + Grown(e, ps[i]).price - HarvestCost, b.numberHarvested + 1, b.capacity - 1)
  }

  /** The state after activating the patches listed in `done`, in any order. */
  function PartialPatches(e: Env, ps: seq<Patch>, done: seq<nat>, capacity: int): (qs: seq<Patch>)
    ensures |qs| == |ps|
  {
    seq(|ps|, i requires 0 <= i < |ps| =>
      if i in done then StepPatches(e, ps, capacity)[i] else ps[i])
  }

  function PartialBooks(e: Env, ps: seq<Patch>, done: seq<nat>, b: Books): Books {
    var growth := b.cashflow + TotalGrowthCashflow(e.wet, |done|);
    var h := HarvestedIndex(e, ps, b.capacity);
    if h.Some? && h.value in done then
      Books(growth + Grown(e, ps[h.value]).price - HarvestCost, b.numberHarvested + 1, b.capacity - 1)
    else
      b.(cashflow := growth)
  }

  /** Activating one more patch `k` extends the partial step by `k`. */
  lemma ActivateNext(e: Env, ps: seq<Patch>, earlier: seq<nat>, k: nat, b: Books)
    requires DistinctPositions(ps)
    requires InRange(earlier, |ps|) && k < |ps| && k !in earlier
    ensures Activate(e, ps[k], PartialBooks(e, ps, earlier, b))
            == (StepPatches(e, ps, b.capacity)[k], PartialBooks(e, ps, earlier + [k], b))
  {
    var h := HarvestedIndex(e, ps, b.capacity);
    var c := PartialBooks(e, ps, earlier, b);
    var n := |earlier|;
    assert TotalGrowthCashflow(e.wet, n + 1) == TotalGrowthCashflow(e.wet, n) + GrowthCashflow(e.wet);
    assert h.Some? && h.value in earlier + [k] <==> (h.Some? && h.value in earlier) || h == Some(k);
    if h.Some? && h.value in earlier {
      // the best cell is already cut, and patch k is not on it
      assert h.value != k;
      assert !HarvestGuard(e, Grown(e, ps[k]), c.capacity);
      assert !HarvestGuard(e, Grown(e, ps[k]), b.capacity);
    } else {
      assert c.capacity == b.capacity;
    }
  }

  lemma {:induction false} ApplyOrderPartial(e: Env, ps: seq<Patch>, done: seq<nat>, b: Books)
    requires DistinctPositions(ps)
    requires InRange(done, |ps|) && NoRepeats(done)
    ensures ApplyOrder(e, ps, done, b) == (PartialPatches(e, ps, done, b.capacity), PartialBooks(e, ps, done, b))
    decreases |done|
  {
    if done == [] {
      assert PartialPatches(e, ps, done, b.capacity) == ps;
    } else {
      var n := |done| - 1;
      var earlier, k := done[..n], done[n];
      assert done == earlier + [k];
      assert k !in earlier;
      ApplyOrderPartial(e, ps, earlier, b);
      ActivateNext(e, ps, earlier, k, b);
      var qs := PartialPatches(e, ps, earlier, b.capacity);
      assert qs[k] == ps[k];
      assert qs[k := StepPatches(e, ps, b.capacity)[k]] == PartialPatches(e, ps, done, b.capacity);
    }
  }

  /**
   * The activation order does not matter: activating every patch once, in any
   * order, gives the order-free step. This holds because no two patches share
   * a cell, so only the patch on the best cell can be harvested.
   */
  lemma {:induction false} StepIsOrderIndependent(e: Env, ps: seq<Patch>, order: seq<nat>, b: Books)
    requires DistinctPositions(ps)
    requires IsPermutation(order, |ps|)
    ensures ApplyOrder(e, ps, order, b) == (StepPatches(e, ps, b.capacity), StepBooks(e, ps, b))
  {
    ApplyOrderPartial(e, ps, order, b);
    assert PartialPatches(e, ps, order, b.capacity) == StepPatches(e, ps, b.capacity);
  }
}
