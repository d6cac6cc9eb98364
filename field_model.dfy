/**
 * The simulation engine: patches (`PatchAgent`) that grow, price themselves
 * and may be harvested, and the model (`FieldModel`) that owns them, selects
 * the best patch, records metrics and steps every patch in a given order.
 */
module Field {
  import opened FieldTypes
  import opened FieldPrice
  import opened FieldGrid
  import opened FieldStep
  import opened FieldSelect
  import opened FieldMetrics

  const InitialCashflow: real := 1000000.0
  /** The step count `run_model` uses. */
  const NumSteps: nat := 3240

  /** The random draws a patch's constructor makes: `uniform(0, 0.112)` for sugar, `uniform(0, 2)` for height. */
  predicate IsInitialDraw(d: (real, real)) {
    0.0 <= d.0 <= 0.112 && 0.0 <= d.1 <= 2.0
  }

  /** The running maximum of `find_best_patch`, which starts at `-inf`. */
  datatype Bound = NegInfinity | Finite(value: real)

  predicate Exceeds(price: real, b: Bound) {
    b.NegInfinity? || price > b.value
  }

  /**
   * `find_best_patch`: the position of the first patch, in schedule order,
   * whose cached price is the highest; None when there are no patches.
   */
  method FindBestPatch(model: FieldModel) returns (bestPatch: Option<Pos>)
    ensures |model.agents| == 0 ==> bestPatch == None
    ensures |model.agents| > 0 ==> bestPatch == model.agents[FirstArgmax(model.Prices())].pos
  {
    var agents := model.agents;
    var maxPrice := NegInfinity;
    bestPatch := None;
    ghost var k := 0;
    var i := 0;
    while i < |agents|
      invariant 0 <= i <= |agents|
      invariant i == 0 ==> maxPrice == NegInfinity && bestPatch == None
      invariant i > 0 ==> k < i && maxPrice == Finite(agents[k].priceAtMill) && bestPatch == agents[k].pos
      invariant i > 0 ==> forall j :: 0 <= j < i ==> agents[j].priceAtMill <= agents[k].priceAtMill
      invariant i > 0 ==> forall j :: 0 <= j < k ==> agents[j].priceAtMill < agents[k].priceAtMill
    {
      if Exceeds(agents[i].priceAtMill, maxPrice) {
        maxPrice := Finite(agents[i].priceAtMill);
        bestPatch := agents[i].pos;
        k := i;
      }
      i := i + 1;
    }
    if |agents| > 0 {
      FirstArgmaxIsFirst(model.Prices());
      FirstArgmaxUnique(model.Prices(), k, FirstArgmax(model.Prices()));
    }
  }

  /** `average_height`: the mean patch height; None (numpy's NaN) when there are no patches. */
  function AverageHeight(model: FieldModel): (m: Option<real>)
    reads model`agents, model.agents
    ensures m.None? <==> |model.agents| == 0
  {
    Mean(model.Heights())
  }

  class PatchAgent {
    const uniqueId: nat
    const model: FieldModel
    var sugarContent: real
    var height: real
    var priceAtMill: real
    var pos: Option<Pos>

    constructor (uniqueId: nat, model: FieldModel, sugarDraw: real, heightDraw: real)
      requires IsInitialDraw((sugarDraw, heightDraw))
      ensures this.uniqueId == uniqueId && this.model == model
      ensures sugarContent == sugarDraw && height == heightDraw
      ensures priceAtMill == 0.0 && pos == None
    {
      this.uniqueId := uniqueId;
      this.model := model;
      sugarContent := sugarDraw;
      height := heightDraw;
      priceAtMill := 0.0;
      pos := None;
    }

    /** The patch's state as a value, once it is placed. */
    ghost function State(): Patch
      reads this
      requires pos.Some?
    {
      Patch(pos.value, height, sugarContent, priceAtMill)
    }

    /**
     * `calculate_price_at_mill`: it fails on an unplaced patch; otherwise the
     * price depends on the sugar content and the cell alone, and a patch with
     * no sugar is worth nothing.
     */
    function CalculatePriceAtMill(): (r: Result<real>)
      reads this`sugarContent, this`pos
      ensures r.Err? <==> pos.None?
      ensures r.Err? ==> r.error == UnplacedPatch
      ensures r.Ok? ==> r.value == PriceFormula(model.sqrt, sugarContent, pos.value)
      ensures r.Ok? && sugarContent == 0.0 ==> r.value == 0.0
    {
      if pos.None? then Err(UnplacedPatch)
      else Ok(PriceFormula(model.sqrt, sugarContent, pos.value))
    }

    /** `being_harvested`: the crop is cut and sold at the cached price, less the harvest cost. */
    method BeingHarvested()
      modifies this`height, this`sugarContent, model`numberHarvested, model`cashflow
      ensures height == 0.0 && sugarContent == 0.0
      ensures model.numberHarvested == old(model.numberHarvested) + 1
      ensures model.cashflow == old(model.cashflow) + priceAtMill - HarvestCost
    {
      height := 0.0;
      sugarContent := 0.0;
      model.numberHarvested := model.numberHarvested + 1;
      model.cashflow := model.cashflow + priceAtMill;
      model.cashflow := model.cashflow - HarvestCost;
    }

    /** `PatchAgent.step`: grow, refresh the price, and harvest under the three-part guard. */
    method Step() returns (r: Outcome)
      modifies this`height, this`sugarContent, this`priceAtMill
      modifies model`cashflow, model`numberHarvested, model`currentHarvestingCapacity
      ensures model.rain.None? ==> r == Fail(RainNotDrawn) && unchanged(this) && unchanged(model)
      ensures model.rain.Some? && pos.None? ==> r == Fail(UnplacedPatch)
      ensures model.rain.Some? && pos.None? ==>
                height == old(height) + HeightGain(IsWet(model.rain.value, model.rainProbability)) &&
                sugarContent == old(sugarContent) + SugarGain(IsWet(model.rain.value, model.rainProbability))
      ensures model.rain.Some? && pos.None? ==>
                priceAtMill == old(priceAtMill) &&
                model.Ledger() == old(model.Ledger()).(cashflow := old(model.cashflow) + GrowthCashflow(IsWet(model.rain.value, model.rainProbability)))
      ensures model.rain.Some? && old(pos).Some? ==>
                && r == Pass
                && State() == Activate(model.StepEnv(), old(State()), old(model.Ledger())).0
                && model.Ledger() == Activate(model.StepEnv(), old(State()), old(model.Ledger())).1
    {
      if model.rain.None? {
        return Fail(RainNotDrawn);
      }
      if model.rain.value <= model.rainProbability {
        height := height + GrowthRate * 2.0;
        sugarContent := sugarContent + SugarRate * 2.0;
      } else {
        height := height + GrowthRate;
        sugarContent := sugarContent + SugarRate;
        model.cashflow := model.cashflow - IrrigationCost;
      }
      var price := CalculatePriceAtMill();
      if price.Err? {
        return Fail(price.error);
      }
      priceAtMill := price.value;
      ghost var grown := State();
      ghost var books := model.Ledger();
      assert grown == Grown(model.StepEnv(), old(State()));
      assert books == old(model.Ledger()).(cashflow := old(model.cashflow) + GrowthCashflow(IsWet(model.rain.value, model.rainProbability)));
      if model.bestPatch == pos && height >= model.minimumHeightToHarvest && model.currentHarvestingCapacity > 0 {
        BeingHarvested();
        model.currentHarvestingCapacity := model.currentHarvestingCapacity - 1;
        assert State() == Cut(grown);
      }
      return Pass;
    }
  }

  class FieldModel {
    const width: int
    const height: int
    /** Stands for `math.sqrt` in the mill price. */
    const sqrt: real -> real
    const minimumHeightToHarvest: real
    const harvestingCapacityPerStep: int
    const rainProbability: real
    var rain: Option<real>
    var bestPatch: Option<Pos>
    var numberHarvested: nat
    var cashflow: real
    var currentHarvestingCapacity: int
    /** `schedule.agents`, kept in the order they were added (see `FindBestPatch`). */
    var agents: seq<PatchAgent>
    /** The collector's model-level rows, one per `collect`. */
    var modelRows: seq<ModelRow>
    /** The collector's "Height" rows: entry `i` of a row is the height of the patch with id `i`. */
    var agentRows: seq<seq<real>>

    /**
     * Every patch is placed, refers back to this model, has its index as its
     * id, and has no negative height or sugar; no two patches share a cell.
     */
    ghost predicate Valid()
      reads this`agents, agents
    {
      && (forall i :: 0 <= i < |agents| ==>
            && agents[i].model == this && agents[i].uniqueId == i && agents[i].pos.Some?
            && agents[i].height >= 0.0 && agents[i].sugarContent >= 0.0)
      && (forall i, j :: 0 <= i < j < |agents| ==> agents[i].pos != agents[j].pos)
    }

    /** Between steps the capacity is full. */
    ghost predicate Ready()
      reads this`currentHarvestingCapacity
    {
      currentHarvestingCapacity == harvestingCapacityPerStep
    }

    ghost predicate Placed()
      reads this`agents, agents
    {
      forall i :: 0 <= i < |agents| ==> agents[i].pos.Some?
    }

    ghost function Snapshot(): (ps: seq<Patch>)
      reads this`agents, agents
      requires Placed()
      ensures |ps| == |agents| && forall i {:trigger ps[i]} :: 0 <= i < |agents| ==> ps[i] == agents[i].State()
    {
      var list := agents;
      seq(|list|, i requires 0 <= i < |list| && list[i].pos.Some? reads list => list[i].State())
    }

    ghost function Prices(): (ps: seq<real>)
      reads this`agents, agents
      ensures |ps| == |agents| && forall i {:trigger ps[i]} :: 0 <= i < |agents| ==> ps[i] == agents[i].priceAtMill
    {
      var list := agents;
      seq(|list|, i requires 0 <= i < |list| reads list => list[i].priceAtMill)
    }

    function Heights(): (hs: seq<real>)
      reads this`agents, agents
      ensures |hs| == |agents| && forall i {:trigger hs[i]} :: 0 <= i < |agents| ==> hs[i] == agents[i].height
    {
      var list := agents;
      seq(|list|, i requires 0 <= i < |list| reads list => list[i].height)
    }

    function Ledger(): Books
      reads this`cashflow, this`numberHarvested, this`currentHarvestingCapacity
    {
      Books(cashflow, numberHarvested, currentHarvestingCapacity)
    }

    /** What this step's activations read from the model. */
    ghost function StepEnv(): Env
      reads this`rain, this`bestPatch
      requires rain.Some?
    {
      Env(sqrt, minimumHeightToHarvest, IsWet(rain.value, rainProbability), bestPatch)
    }

    /**
     * `FieldModel.__init__`: one patch per cell except the mill's, created in
     * x-major order with ids 0, 1, ...; `draws[i]` are patch i's random
     * (sugar, height) draws.
     */
    constructor (sqrt: real -> real, draws: seq<(real, real)>, width: int, height: int,
                 minimumHeightToHarvest: real := 2.4, harvestingCapacityPerStep: int := 1,
                 rainProbability: real := 0.3)
      requires |draws| == AgentCount(width, height)
      requires forall i :: 0 <= i < |draws| ==> IsInitialDraw(draws[i])
      ensures Valid() && Ready()
      ensures this.width == width && this.height == height && this.sqrt == sqrt
      ensures this.minimumHeightToHarvest == minimumHeightToHarvest
      ensures this.harvestingCapacityPerStep == harvestingCapacityPerStep
      ensures this.rainProbability == rainProbability
      ensures rain == None && bestPatch == None
      ensures numberHarvested == 0 && cashflow == InitialCashflow
      ensures modelRows == [] && agentRows == []
      ensures |agents| == AgentCount(width, height)
      ensures forall i :: 0 <= i < |agents| ==>
                && fresh(agents[i])
                && agents[i].pos == Some(CellOf(width, height, i))
                && agents[i].sugarContent == draws[i].0 && agents[i].height == draws[i].1
                && agents[i].priceAtMill == 0.0
    {
      this.width := width;
      this.height := height;
      this.sqrt := sqrt;
      this.rain := None;
      this.bestPatch := None;
      this.harvestingCapacityPerStep := harvestingCapacityPerStep;
      this.numberHarvested := 0;
      this.cashflow := InitialCashflow;
      this.minimumHeightToHarvest := minimumHeightToHarvest;
      this.currentHarvestingCapacity := harvestingCapacityPerStep;
      this.rainProbability := rainProbability;
      this.agents := [];
      this.modelRows := [];
      this.agentRows := [];
      new;
      var x := 0;
      while x < width
        invariant 0 <= x && (width >= 0 ==> x <= width)
        invariant Initial()
        invariant Built(draws, CellsUpTo(width, height, x))
        invariant forall i :: 0 <= i < |agents| ==> fresh(agents[i])
      {
        PlaceColumn(draws, x);
        x := x + 1;
      }
      LoopsVisitCellOf(width, height);
      forall i, j | 0 <= i < j < |agents|
        ensures agents[i].pos != agents[j].pos
      {
        CellOfInjective(width, height, i, j);
      }
    }

    /** The inner loop of `__init__`: a patch on every crop cell of column `x`, bottom to top. */
    method PlaceColumn(draws: seq<(real, real)>, x: int)
      requires 0 <= x < width
      requires |draws| == AgentCount(width, height)
      requires forall i :: 0 <= i < |draws| ==> IsInitialDraw(draws[i])
      requires Built(draws, CellsUpTo(width, height, x))
      modifies this`agents
      ensures Built(draws, CellsUpTo(width, height, x + 1))
      ensures |agents| >= |old(agents)| && agents[..|old(agents)|] == old(agents)
      ensures forall i :: |old(agents)| <= i < |agents| ==> fresh(agents[i])
    {
      ghost var cells := CellsUpTo(width, height, x);
      var y := 0;
      ColumnCellsNext(width, height, x, 0);
      while y < height
        invariant 0 <= y && (height >= 0 ==> y <= height)
        invariant cells == CellsUpTo(width, height, x) + ColumnCells(width, height, x, y)
        invariant Built(draws, cells)
        invariant |agents| >= |old(agents)| && agents[..|old(agents)|] == old(agents)
        invariant forall i :: |old(agents)| <= i < |agents| ==> fresh(agents[i])
      {
        ColumnCellsNext(width, height, x, y);
        if x == width - 1 && y == 0 {
          y := y + 1;
          continue;
        }
        VisitedBeforeCrop(width, height, x, y);
        PlaceNewPatch(draws, cells, Pos(x, y));
        cells := cells + [Pos(x, y)];
        y := y + 1;
      }
      CellsUpToNext(width, height, x);
    }

    /** `schedule.add` then `grid.place_agent`: a new patch with the next id and its draws, on cell `p`. */
    method PlaceNewPatch(draws: seq<(real, real)>, ghost cells: seq<Pos>, p: Pos)
      requires Built(draws, cells) && |cells| < |draws|
      requires IsInitialDraw(draws[|agents|])
      modifies this`agents
      ensures Built(draws, cells + [p])
      ensures |agents| == |old(agents)| + 1 && agents[..|old(agents)|] == old(agents)
      ensures fresh(agents[|old(agents)|])
    {
      var a := new PatchAgent(|agents|, this, draws[|agents|].0, draws[|agents|].1);
      agents := agents + [a];
      a.pos := Some(p);
    }

    /** `datacollector.collect`: one model-level row and one row of patch heights. */
    method Collect()
      modifies this`modelRows, this`agentRows
      ensures modelRows == old(modelRows) + [ModelRow(old(AverageHeight(this)), cashflow, numberHarvested)]
      ensures agentRows == old(agentRows) + [old(Heights())]
    {
      var average := AverageHeight(this);
      var heights := Heights();
      modelRows := modelRows + [ModelRow(average, cashflow, numberHarvested)];
      agentRows := agentRows + [heights];
    }

    /**
     * `schedule.step()` with the shuffle fixed to `order`: patch `order[0]`
     * steps first, then `order[1]`, and so on. No patch fails, since all are
     * placed and the rain is drawn.
     */
    method ScheduleStep(order: seq<nat>)
      requires Valid() && rain.Some?
      requires IsPermutation(order, |agents|)
      modifies this`cashflow, this`numberHarvested, this`currentHarvestingCapacity, agents
      ensures Valid()
      ensures Snapshot() == StepPatches(old(StepEnv()), old(Snapshot()), old(currentHarvestingCapacity))
      ensures Ledger() == StepBooks(old(StepEnv()), old(Snapshot()), old(Ledger()))
    {
      ghost var e := StepEnv();
      ghost var ps0 := Snapshot();
      ghost var b0 := Ledger();
      var n := 0;
      while n < |order|
        invariant 0 <= n <= |order|
        invariant Valid() && rain == old(rain) && bestPatch == old(bestPatch)
        invariant (Snapshot(), Ledger()) == ApplyOrder(e, ps0, order[..n], b0)
      {
        assert order[..n + 1][..n] == order[..n];
        StepAgent(order[n]);
        n := n + 1;
      }
      assert order[..n] == order;
      StepIsOrderIndependent(e, ps0, order, b0);
    }

    /** One activation of `schedule.step()`: patch `k` steps, as `Activate` says, and no other patch changes. */
    method StepAgent(k: nat)
      requires Valid() && rain.Some? && k < |agents|
      modifies this`cashflow, this`numberHarvested, this`currentHarvestingCapacity, agents[k]
      ensures Valid()
      ensures Snapshot() == old(Snapshot())[k := Activate(StepEnv(), old(Snapshot())[k], old(Ledger())).0]
      ensures Ledger() == Activate(StepEnv(), old(Snapshot())[k], old(Ledger())).1
    {
      ghost var before := Snapshot();
      var outcome := agents[k].Step();
      assert outcome == Pass;
      assert Snapshot() == before[k := agents[k].State()];
    }

    /**
     * `FieldModel.step`, with the rain draw fixed to `rain` and the shuffle to
     * `order`: draw the rain, choose the best patch on the prices cached by the
     * previous step, record the metrics as they stand, step every patch, and
     * refill the capacity. Whatever the order, the patches and the books end as
     * the order-free `StepPatches` and `StepBooks` say.
     */
    method Step(rain: real, order: seq<nat>)
      requires Valid() && Ready()
      requires IsPermutation(order, |agents|)
      modifies this`rain, this`bestPatch, this`modelRows, this`agentRows
      modifies this`cashflow, this`numberHarvested, this`currentHarvestingCapacity, agents
      ensures Valid() && Ready()
      ensures this.rain == Some(rain)
      ensures |agents| == 0 ==> bestPatch == None
      ensures |agents| > 0 ==> bestPatch == old(agents[FirstArgmax(Prices())].pos)
      ensures modelRows == old(modelRows) + [ModelRow(old(AverageHeight(this)), old(cashflow), old(numberHarvested))]
      ensures agentRows == old(agentRows) + [old(Heights())]
      ensures Snapshot() == StepPatches(StepEnv(), old(Snapshot()), harvestingCapacityPerStep)
      ensures cashflow == StepBooks(StepEnv(), old(Snapshot()), old(Ledger())).cashflow
      ensures numberHarvested == StepBooks(StepEnv(), old(Snapshot()), old(Ledger())).numberHarvested
    {
      ghost var ps0, b0 := Snapshot(), Ledger();
      Prepare(rain);
      ScheduleStepAndRefill(order, ps0, b0);
    }

    /** The first half of `FieldModel.step`: draw the rain, choose the best patch, collect the metrics. */
    method Prepare(rain: real)
      modifies this`rain, this`bestPatch, this`modelRows, this`agentRows
      ensures this.rain == Some(rain)
      ensures |agents| == 0 ==> bestPatch == None
      ensures |agents| > 0 ==> bestPatch == agents[FirstArgmax(old(Prices()))].pos
      ensures modelRows == old(modelRows) + [ModelRow(old(AverageHeight(this)), cashflow, numberHarvested)]
      ensures agentRows == old(agentRows) + [old(Heights())]
    {
      // `find_best_patch` does not read the rain, so the draw is stored after it.
      var best := FindBestPatch(this);
      this.rain := Some(rain);
      bestPatch := best;
      Collect();
    }

    /** The second half of `FieldModel.step`: `schedule.step()`, then the capacity is refilled. */
    method ScheduleStepAndRefill(order: seq<nat>, ghost ps0: seq<Patch>, ghost b0: Books)
      requires Valid() && Ready() && rain.Some?
      requires IsPermutation(order, |agents|)
      requires Snapshot() == ps0 && Ledger() == b0
      modifies this`cashflow, this`numberHarvested, this`currentHarvestingCapacity, agents
      ensures Valid() && Ready()
      ensures Snapshot() == StepPatches(StepEnv(), ps0, harvestingCapacityPerStep)
      ensures cashflow == StepBooks(StepEnv(), ps0, b0).cashflow
      ensures numberHarvested == StepBooks(StepEnv(), ps0, b0).numberHarvested
    {
      ScheduleStep(order);
      currentHarvestingCapacity := harvestingCapacityPerStep;
    }

    /** The model's own state as construction leaves it. */
    ghost predicate Initial()
      reads this
    {
      && rain == None && bestPatch == None
      && numberHarvested == 0 && cashflow == InitialCashflow
      && currentHarvestingCapacity == harvestingCapacityPerStep
      && modelRows == [] && agentRows == []
    }

    /** The patches so far are the constructor's, one per cell of `cells`, with their draws. */
    ghost predicate Built(draws: seq<(real, real)>, cells: seq<Pos>)
      reads this`agents, agents
    {
      && |cells| <= |draws|
      && |agents| == |cells|
      && (forall i, j :: 0 <= i < j < |agents| ==> agents[i] != agents[j])
      && (forall i :: 0 <= i < |agents| ==>
            && agents[i].model == this && agents[i].uniqueId == i
            && agents[i].pos == Some(cells[i])
            && agents[i].sugarContent == draws[i].0 && agents[i].height == draws[i].1
            && agents[i].priceAtMill == 0.0)
    }
  }

  /** The heights the patches start with. */
  function InitialHeights(draws: seq<(real, real)>): (hs: seq<real>)
    ensures |hs| == |draws| && forall i :: 0 <= i < |draws| ==> hs[i] == draws[i].1
  {
    seq(|draws|, i requires 0 <= i < |draws| => draws[i].1)
  }

  /** The first row's average height lies within the height draw's range; on an empty grid there is none. */
  lemma InitialAverageHeight(draws: seq<(real, real)>)
    requires forall i :: 0 <= i < |draws| ==> IsInitialDraw(draws[i])
    ensures draws == [] <==> Mean(InitialHeights(draws)).None?
    ensures draws != [] ==> 0.0 <= Mean(InitialHeights(draws)).value <= 2.0
  {
    if draws != [] {
      MeanBounds(InitialHeights(draws), 0.0, 2.0);
    }
  }

  /**
   * Books that follow the metrics row `prev` one step later, with growth wet or
   * dry over `n` patches: at most one more harvest, and without one the
   * cashflow moved by the irrigation bill alone.
   */
  predicate FollowsRow(prev: ModelRow, numberHarvested: nat, cashflow: real, wet: bool, n: nat) {
    (numberHarvested == prev.numberHarvested || numberHarvested == prev.numberHarvested + 1) &&
    (numberHarvested == prev.numberHarvested ==> cashflow == prev.cashflow + TotalGrowthCashflow(wet, n))
  }

  /**
   * A metrics table as `run_model` collects it, against the rain draws: row `s`
   * counts at most `s` harvests, and each row follows the one before it.
   */
  predicate RowsFollow(rows: seq<ModelRow>, rains: seq<real>, rainProbability: real, n: nat)
    requires |rows| <= |rains| + 1
  {
    (forall s :: 0 <= s < |rows| ==> rows[s].numberHarvested <= s) &&
    (forall s :: 0 < s < |rows| ==>
       FollowsRow(rows[s - 1], rows[s].numberHarvested, rows[s].cashflow, IsWet(rains[s - 1], rainProbability), n))
  }

  /** Collecting one more row keeps the table `RowsFollow`. */
  lemma RowsFollowSnoc(rows: seq<ModelRow>, row: ModelRow, rains: seq<real>, rainProbability: real, n: nat)
    requires |rows| + 1 <= |rains| + 1
    requires RowsFollow(rows, rains, rainProbability, n)
    requires row.numberHarvested <= |rows|
    requires |rows| > 0 ==>
               FollowsRow(rows[|rows| - 1], row.numberHarvested, row.cashflow, IsWet(rains[|rows| - 1], rainProbability), n)
    ensures RowsFollow(rows + [row], rains, rainProbability, n)
  {
    var rows' := rows + [row];
    forall s | 0 < s < |rows'|
      ensures FollowsRow(rows'[s - 1], rows'[s].numberHarvested, rows'[s].cashflow, IsWet(rains[s - 1], rainProbability), n)
    {
      if s < |rows| {
        assert rows'[s - 1] == rows[s - 1] && rows'[s] == rows[s];
      }
    }
  }

  /** One pass of `run_model`'s loop: `model.step()`, seen through the row it collects. */
  method Advance(model: FieldModel, rain: real, order: seq<nat>)
    requires model.Valid() && model.Ready()
    requires IsPermutation(order, |model.agents|)
    modifies model`rain, model`bestPatch, model`modelRows, model`agentRows
    modifies model`cashflow, model`numberHarvested, model`currentHarvestingCapacity, model.agents
    ensures model.Valid() && model.Ready()
    ensures model.modelRows == old(model.modelRows) + [ModelRow(old(AverageHeight(model)), old(model.cashflow), old(model.numberHarvested))]
    ensures FollowsRow(model.modelRows[|model.modelRows| - 1], model.numberHarvested, model.cashflow,
                       IsWet(rain, model.rainProbability), |model.agents|)
  {
    ghost var ps0, b0 := model.Snapshot(), model.Ledger();
    model.Step(rain, order);
    assert model.StepEnv().wet == IsWet(rain, model.rainProbability);
    ghost var b1 := StepBooks(model.StepEnv(), ps0, b0);
    assert b1.numberHarvested == b0.numberHarvested || b1.numberHarvested == b0.numberHarvested + 1;
    assert b1.numberHarvested == b0.numberHarvested ==> b1.cashflow == b0.cashflow + TotalGrowthCashflow(model.StepEnv().wet, |ps0|);
  }

  /** The rest of `run_model`'s loop: step the model until it has collected one row per rain draw. */
  method RunFrom(model: FieldModel, rains: seq<real>, orders: seq<seq<nat>>)
    requires model.Valid() && model.Ready()
    requires |orders| == |rains| && forall t :: 0 <= t < |orders| ==> IsPermutation(orders[t], |model.agents|)
    requires 0 < |model.modelRows| <= |rains| && model.numberHarvested <= |model.modelRows|
    requires RowsFollow(model.modelRows, rains, model.rainProbability, |model.agents|)
    requires FollowsRow(model.modelRows[|model.modelRows| - 1], model.numberHarvested, model.cashflow,
                        IsWet(rains[|model.modelRows| - 1], model.rainProbability), |model.agents|)
    modifies model`rain, model`bestPatch, model`modelRows, model`agentRows
    modifies model`cashflow, model`numberHarvested, model`currentHarvestingCapacity, model.agents
    ensures |model.modelRows| == |rains| && model.modelRows[0] == old(model.modelRows[0])
    ensures RowsFollow(model.modelRows, rains, model.rainProbability, |model.agents|)
  {
    ghost var rainProbability, n := model.rainProbability, |model.agents|;
    ghost var first := model.modelRows[0];
    var t := |model.modelRows|;
    while t < |rains|
      invariant 0 < t <= |rains|
      invariant model.Valid() && model.Ready() && |model.agents| == n
      invariant |model.modelRows| == t && model.modelRows[0] == first
      invariant model.numberHarvested <= t
      invariant RowsFollow(model.modelRows, rains, rainProbability, n)
      invariant FollowsRow(model.modelRows[t - 1], model.numberHarvested, model.cashflow, IsWet(rains[t - 1], rainProbability), n)
    {
      ghost var rows := model.modelRows;
      Advance(model, rains[t], orders[t]);
      RowsFollowSnoc(rows, model.modelRows[t], rains, rainProbability, n);
      t := t + 1;
    }
  }

  /**
   * `run_model`: build the model, step it `NumSteps` times and return the
   * collector's model-level table, one row per step, taken before that step's
   * patches moved. The random draws are parameters: `draws` for the patches,
   * and for step `t` the rain `rains[t]` and the activation order `orders[t]`.
   * The first row is the starting state; from one row to the next at most one
   * patch is harvested, and a step without a harvest changes the cashflow by
   * the irrigation bill alone.
   */
  method RunModel(sqrt: real -> real, draws: seq<(real, real)>, width: int, height: int,
                  minimumHeightToHarvest: real, harvestingCapacityPerStep: int, rainProbability: real,
                  rains: seq<real>, orders: seq<seq<nat>>)
    returns (results: seq<ModelRow>)
    requires |draws| == AgentCount(width, height)
    requires forall i :: 0 <= i < |draws| ==> IsInitialDraw(draws[i])
    requires |rains| == NumSteps && |orders| == NumSteps
    requires forall t :: 0 <= t < NumSteps ==> IsPermutation(orders[t], AgentCount(width, height))
    ensures |results| == NumSteps
    ensures results[0] == ModelRow(Mean(InitialHeights(draws)), InitialCashflow, 0)
    ensures forall t :: 0 <= t < NumSteps ==> results[t].numberHarvested <= t
    ensures forall t :: 0 < t < NumSteps ==>
              results[t].numberHarvested == results[t - 1].numberHarvested ||
              results[t].numberHarvested == results[t - 1].numberHarvested + 1
    ensures forall t :: 0 < t < NumSteps && results[t].numberHarvested == results[t - 1].numberHarvested ==>
              results[t].cashflow == results[t - 1].cashflow
                                     + TotalGrowthCashflow(IsWet(rains[t - 1], rainProbability), AgentCount(width, height))
  {
    var model := new FieldModel(sqrt, draws, width, height, minimumHeightToHarvest, harvestingCapacityPerStep, rainProbability);
    assert model.Heights() == InitialHeights(draws);
    Advance(model, rains[0], orders[0]);
    RunFrom(model, rains, orders);
    results := model.modelRows;
  }
}
