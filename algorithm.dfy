/** `ProducerConsumerAlgorithm`: the builder object that collects the
    problem (initial date, horizon, block granularity, unit price rules,
    deliveries, company) and whose `solve` lays out the time blocks, builds
    the linear program and extracts the schedule from the solver's answer. */
module Algorithm {
  import opened Wrappers
  import opened TimeBlocks
  import opened Entities
  import opened Lp
  import opened ModelBuilder
  import opened Schedules
  import opened SolutionProperties

  /** The guard of `with_unit_price`: a rule needs a block number or both
      dates. */
  predicate UnitPriceAccepted(dateFrom: Option<Instant>, dateUntil: Option<Instant>, blockNumber: Option<int>)
  {
    blockNumber.Some? || (dateFrom.Some? && dateUntil.Some?)
  }

  const UnitPriceMessage: string := "Pass block # or dates"

  /** A rejected rule matches no block. An accepted rule with a
      non-negative block number matches that block, and an accepted rule
      with a non-empty date range matches a block starting at its first
      instant. An accepted rule with a negative number or an empty range
      matches nothing, as in the source. */
  lemma UnitPriceGuard(rule: UnitPrice)
    ensures !UnitPriceAccepted(rule.dateFrom, rule.dateUntil, rule.blockNumber) ==>
              forall date: Instant, number: nat :: !Matches(rule, date, number)
    ensures rule.blockNumber.Some? && rule.blockNumber.value >= 0 ==>
              forall date: Instant :: Matches(rule, date, rule.blockNumber.value)
    ensures rule.dateFrom.Some? && rule.dateUntil.Some? && rule.dateFrom.value < rule.dateUntil.value ==>
              forall number: nat :: Matches(rule, rule.dateFrom.value, number)
  {
  }

  /** `_get_producers`: the set of the producers of the deliveries, each
      producer once however many deliveries it serves. */
  function ProducersOf(order: seq<string>, deliveries: map<string, Delivery>): (r: set<Producer>)
    requires Registered(order, deliveries) && forall id :: id in deliveries ==> id in order
    ensures forall p :: p in r ==> exists i :: 0 <= i < |order| && deliveries[order[i]].producer == p
    ensures forall i :: 0 <= i < |order| ==> deliveries[order[i]].producer in r
  {
    assert forall id :: id in deliveries ==> exists i :: 0 <= i < |order| && order[i] == id;
    set id | id in deliveries :: deliveries[id].producer
  }

  /** The part of `solve` after the blocks are laid out: builds the
      record, takes the solver's answer and extracts the schedule. */
  method SolveBlocks(name: string, order: seq<string>, deliveries: map<string, Delivery>, blocks: seq<TimeBlock>,
                     status: SolverStatus, value: VarKey -> real)
    returns (m: LpModel, ghost visited: seq<Producer>, keys: seq<VarKey>, schedule: Schedule)
    requires Registered(order, deliveries) && (forall id :: id in deliveries ==> id in order)
    requires Distinct(order) && IdsConsistent(deliveries)
    ensures Enumerates(visited, ProducersOf(order, deliveries))
    ensures IsModelFor(m, order, deliveries, blocks, visited)
    ensures keys == FeasibleKeys(order, deliveries, blocks)
    ensures schedule.name == name
    ensures schedule.solved <==> Solved(status)
    ensures schedule.result == ResultMessage(status)
    ensures schedule.deliveries == if Solved(status) then PositiveRecords(keys, deliveries, blocks, value) else []
    ensures schedule.totalPrice == TotalPrice(schedule.deliveries)
    ensures Solved(status) && Satisfies(m, value) ==>
              && Honours(schedule.deliveries, order, deliveries, blocks, ProducersOf(order, deliveries))
              && schedule.totalPrice == ObjectiveValue(m.variables, m.objective, value)
  {
    var producers := ProducersOf(order, deliveries);
    m, visited := BuildModel(order, deliveries, blocks, producers);
    keys := VariableKeys(m.variables);
    schedule := Extract(name, status, keys, deliveries, blocks, value);
    if Solved(status) && Satisfies(m, value) {
      SolutionHonoursRecord(m, order, deliveries, blocks, producers, visited, value);
    }
  }

  class ProducerConsumerAlgorithm {
    var name: string
    var initialDate: Instant
    var blocksPerHour: int
    var hours: int
    /** `time_blocks`, the dictionary keyed by `str(number)`, indexed by number. */
    var timeBlocks: seq<TimeBlock>
    var unitPrices: seq<UnitPrice>
    /** `deliveries`, an insertion-ordered dictionary: its keys in order and
        the map from key to delivery. */
    var deliveryOrder: seq<string>
    var deliveries: map<string, Delivery>
    var company: Company?
    /** `variables`, the per-delivery dictionaries of variables, as the keys
        in their iteration order; None until the first `solve`. */
    var variables: Option<seq<VarKey>>
    /** The record handed to the solver; None until the first `solve`. */
    var model: Option<LpModel>
    /** The order in which the last `solve` visited the producers' set. */
    ghost var producerOrder: seq<Producer>

    /** The dictionary of deliveries is well formed: its key order lists
        each key once, and every delivery is stored under its own id. */
    predicate Valid()
      reads this
    {
      && Distinct(deliveryOrder)
      && (forall id :: id in deliveries ==> id in deliveryOrder)
      && Registered(deliveryOrder, deliveries)
      && IdsConsistent(deliveries)
    }

    /** `__init__`, with the creation instant (the source's `datetime.now()`)
        passed in. */
    constructor (name: string, initialDate: Instant)
      ensures Valid()
      ensures this.name == name && this.initialDate == initialDate
      ensures blocksPerHour == 4 && hours == 24
      ensures timeBlocks == [] && unitPrices == [] && deliveryOrder == [] && deliveries == map[]
      ensures company == null && variables == None && model == None
    {
      this.name := name;
      this.initialDate := initialDate;
      blocksPerHour := 4;
      hours := 24;
      timeBlocks := [];
      unitPrices := [];
      deliveryOrder := [];
      deliveries := map[];
      company := null;
      variables := None;
      model := None;
      producerOrder := [];
    }

    method WithInitialDate(initialDate: Instant)
      modifies this
      ensures this.initialDate == initialDate
      ensures name == old(name) && blocksPerHour == old(blocksPerHour) && hours == old(hours)
      ensures timeBlocks == old(timeBlocks) && unitPrices == old(unitPrices)
      ensures deliveryOrder == old(deliveryOrder) && deliveries == old(deliveries) && company == old(company)
      ensures variables == old(variables) && model == old(model) && producerOrder == old(producerOrder)
    {
      this.initialDate := initialDate;
    }

    method WithHours(hours: int)
      modifies this
      ensures this.hours == hours
      ensures name == old(name) && initialDate == old(initialDate) && blocksPerHour == old(blocksPerHour)
      ensures timeBlocks == old(timeBlocks) && unitPrices == old(unitPrices)
      ensures deliveryOrder == old(deliveryOrder) && deliveries == old(deliveries) && company == old(company)
      ensures variables == old(variables) && model == old(model) && producerOrder == old(producerOrder)
    {
      this.hours := hours;
    }

    method WithBlocksPerHour(blocksPerHour: int)
      modifies this
      ensures this.blocksPerHour == blocksPerHour
      ensures name == old(name) && initialDate == old(initialDate) && hours == old(hours)
      ensures timeBlocks == old(timeBlocks) && unitPrices == old(unitPrices)
      ensures deliveryOrder == old(deliveryOrder) && deliveries == old(deliveries) && company == old(company)
      ensures variables == old(variables) && model == old(model) && producerOrder == old(producerOrder)
    {
      this.blocksPerHour := blocksPerHour;
    }

    method WithCompany(company: Company?)
      modifies this
      ensures this.company == company
      ensures name == old(name) && initialDate == old(initialDate)
      ensures blocksPerHour == old(blocksPerHour) && hours == old(hours)
      ensures timeBlocks == old(timeBlocks) && unitPrices == old(unitPrices)
      ensures deliveryOrder == old(deliveryOrder) && deliveries == old(deliveries)
      ensures variables == old(variables) && model == old(model) && producerOrder == old(producerOrder)
    {
      this.company := company;
    }

    /** `with_unit_price`: appends the rule, or fails its assert and
        changes nothing when it has neither a block number nor both dates. */
    method WithUnitPrice(dateFrom: Option<Instant>, dateUntil: Option<Instant>, blockNumber: Option<int>,
                         price: real)
      returns (r: Result<()>)
      modifies this
      ensures r.Err? <==> !UnitPriceAccepted(dateFrom, dateUntil, blockNumber)
      ensures r.Err? ==> r.error == AssertionFailed(UnitPriceMessage)
      ensures unitPrices == if r.Ok? then old(unitPrices) + [UnitPrice(dateFrom, dateUntil, blockNumber, price)]
                            else old(unitPrices)
      ensures name == old(name) && initialDate == old(initialDate)
      ensures blocksPerHour == old(blocksPerHour) && hours == old(hours) && timeBlocks == old(timeBlocks)
      ensures deliveryOrder == old(deliveryOrder) && deliveries == old(deliveries) && company == old(company)
      ensures variables == old(variables) && model == old(model) && producerOrder == old(producerOrder)
    {
      if !(blockNumber.Some? || (dateFrom.Some? && dateUntil.Some?)) {
        return Err(AssertionFailed("Pass block # or dates"));
      }
      unitPrices := unitPrices + [UnitPrice(dateFrom, dateUntil, blockNumber, price)];
      r := Ok(());
    }

    /** `with_delivery`: stores the delivery under its id. A new id goes to
        the end of the order; an existing id keeps its place and its
        delivery is replaced. */
    method WithDelivery(consumer: Consumer, producer: Producer)
      requires Valid()
      modifies this
      ensures Valid()
      ensures var d := Delivery(consumer, producer);
              && deliveries == old(deliveries)[d.Id() := d]
              && deliveryOrder == if d.Id() in old(deliveries) then old(deliveryOrder)
                                  else old(deliveryOrder) + [d.Id()]
      ensures name == old(name) && initialDate == old(initialDate)
      ensures blocksPerHour == old(blocksPerHour) && hours == old(hours)
      ensures timeBlocks == old(timeBlocks) && unitPrices == old(unitPrices) && company == old(company)
      ensures variables == old(variables) && model == old(model) && producerOrder == old(producerOrder)
    {
      var delivery := Delivery(consumer, producer);
      if delivery.Id() !in deliveries {
        deliveryOrder := deliveryOrder + [delivery.Id()];
      }
      deliveries := deliveries[delivery.Id() := delivery];
    }

    /** `_prepare_data`: lays out the blocks; on a failed assertion or a
        zero-width block the exception leaves every field as it was. */
    method PrepareData() returns (r: Result<()>)
      requires Valid()
      modifies this
      ensures Valid()
      ensures var laid := PeriodToBlocks(old(blocksPerHour), old(hours), old(initialDate), old(unitPrices));
              && (r.Err? <==> laid.Err?)
              && (r.Err? ==> r.error == laid.error && timeBlocks == old(timeBlocks))
              && (r.Ok? ==> timeBlocks == laid.value)
      ensures name == old(name) && initialDate == old(initialDate)
      ensures blocksPerHour == old(blocksPerHour) && hours == old(hours) && unitPrices == old(unitPrices)
      ensures deliveryOrder == old(deliveryOrder) && deliveries == old(deliveries) && company == old(company)
      ensures variables == old(variables) && model == old(model) && producerOrder == old(producerOrder)
    {
      var laid := PeriodToBlocks(blocksPerHour, hours, initialDate, unitPrices);
      if laid.Err? {
        return Err(laid.error);
      }
      timeBlocks := laid.value;
      r := Ok(());
    }

    /** `solve`. The solver is outside the model: `status` is the status
        its `Solve()` returns and `value` the solution value of each
        variable. On success the record handed to the solver is the one
        the builder specifies, and the schedule is the extraction of the
        answer; when the answer satisfies the record, the schedule gives
        every delivery its required units, keeps every producer within its
        per-block supply and costs the objective's value. */
    method Solve(status: SolverStatus, value: VarKey -> real) returns (r: Result<Schedule>)
      requires Valid()
      modifies this
      ensures Valid()
      ensures var laid := PeriodToBlocks(old(blocksPerHour), old(hours), old(initialDate), old(unitPrices));
              && (r.Err? <==> laid.Err?)
              && (r.Err? ==> r.error == laid.error && timeBlocks == old(timeBlocks)
                             && variables == old(variables) && model == old(model))
              && (r.Ok? ==> timeBlocks == laid.value)
      ensures name == old(name) && initialDate == old(initialDate)
      ensures blocksPerHour == old(blocksPerHour) && hours == old(hours) && unitPrices == old(unitPrices)
      ensures deliveryOrder == old(deliveryOrder) && deliveries == old(deliveries) && company == old(company)
      ensures r.Ok? ==>
                var keys := FeasibleKeys(deliveryOrder, deliveries, timeBlocks);
                && Enumerates(producerOrder, ProducersOf(deliveryOrder, deliveries))
                && model.Some? && IsModelFor(model.value, deliveryOrder, deliveries, timeBlocks, producerOrder)
                && variables == Some(keys)
                && r.value.name == name
                && (r.value.solved <==> Solved(status))
                && r.value.result == ResultMessage(status)
                && r.value.deliveries == (if Solved(status) then PositiveRecords(keys, deliveries, timeBlocks, value) else [])
                && r.value.totalPrice == TotalPrice(r.value.deliveries)
      ensures r.Ok? && Solved(status) && Satisfies(model.value, value) ==>
                && Honours(r.value.deliveries, deliveryOrder, deliveries, timeBlocks, ProducersOf(deliveryOrder, deliveries))
                && r.value.totalPrice == ObjectiveValue(model.value.variables, model.value.objective, value)
    {
      var prepared := PrepareData();
      if prepared.Err? {
        return Err(prepared.error);
      }
      var order, ds, blocks := deliveryOrder, deliveries, timeBlocks;
      var m, visited, keys, schedule := SolveBlocks(name, order, ds, blocks, status, value);
      model := Some(m);
      variables := Some(keys);
      producerOrder := visited;
      r := Ok(schedule);
      assert deliveryOrder == order && deliveries == ds && timeBlocks == blocks;
    }
  }
}
