/** What a solution that satisfies the built record means for the
    extracted schedule: every delivery receives exactly its consumer's
    required units, no producer exceeds its per-block supply, no allocation
    falls after its consumer's departure, the schedule keeps the variables'
    order, and the total price is the objective's value. */
module SolutionProperties {
  import opened TimeBlocks
  import opened Entities
  import opened Lp
  import opened ModelBuilder
  import opened Schedules

  /** Every delivery is stored under its own identifier. */
  predicate IdsConsistent(deliveries: map<string, Delivery>)
  {
    forall id :: id in deliveries ==> deliveries[id].Id() == id
  }

  /** The units the records send from producer `producerId` to consumer
      `consumerId`. */
  function UnitsFor(records: seq<Record>, consumerId: string, producerId: string): real
  {
    if records == [] then 0.0
    else
      var r := records[|records| - 1];
      UnitsFor(records[..|records| - 1], consumerId, producerId)
      + (if r.consumer == consumerId && r.producer == producerId then r.unitsToSupply else 0.0)
  }

  /** The units the records take from producer `producerId` in block `b`. */
  function UnitsAt(records: seq<Record>, producerId: string, b: nat): real
  {
    if records == [] then 0.0
    else
      var r := records[|records| - 1];
      UnitsAt(records[..|records| - 1], producerId, b)
      + (if r.producer == producerId && r.timeBlock == b then r.unitsToSupply else 0.0)
  }

  /** The sum of the values of delivery `id`'s keys. */
  function SumOfDelivery(keys: seq<VarKey>, value: VarKey -> real, id: string): real
  {
    if keys == [] then 0.0
    else
      var k := keys[|keys| - 1];
      SumOfDelivery(keys[..|keys| - 1], value, id) + (if k.deliveryId == id then value(k) else 0.0)
  }

  /** The sum of the values of block `b`'s keys of deliveries whose
      producer has identifier `producerId`. */
  function SumOfProducerBlock(keys: seq<VarKey>, deliveries: map<string, Delivery>, value: VarKey -> real,
                              producerId: string, b: nat): real
  {
    if keys == [] then 0.0
    else
      var k := keys[|keys| - 1];
      SumOfProducerBlock(keys[..|keys| - 1], deliveries, value, producerId, b)
      + (if k.deliveryId in deliveries && deliveries[k.deliveryId].producer.id == producerId && k.block == b
         then value(k) else 0.0)
  }

  predicate NonNegative(keys: seq<VarKey>, value: VarKey -> real)
  {
    forall i :: 0 <= i < |keys| ==> value(keys[i]) >= 0.0
  }

  // ----- from records to keys -----

  lemma {:induction false} RecordsUnitsFor(keys: seq<VarKey>, deliveries: map<string, Delivery>,
                                           blocks: seq<TimeBlock>, value: VarKey -> real, id: string)
    requires Decodable(keys, deliveries, blocks) && NonNegative(keys, value)
    requires IdsConsistent(deliveries) && id in deliveries
    ensures var d := deliveries[id];
            UnitsFor(PositiveRecords(keys, deliveries, blocks, value), d.consumer.id, d.producer.id)
            == SumOfDelivery(keys, value, id)
  {
    if keys != [] {
      var n := |keys| - 1;
      var k := keys[n];
      var d := deliveries[id];
      RecordsUnitsFor(keys[..n], deliveries, blocks, value, id);
      var prev := PositiveRecords(keys[..n], deliveries, blocks, value);
      assert value(k) >= 0.0;
      if value(k) > 0.0 {
        var r := RecordOf(k, deliveries, blocks, value);
        assert PositiveRecords(keys, deliveries, blocks, value) == prev + [r];
        assert (prev + [r])[..|prev|] == prev;
        var e := deliveries[k.deliveryId];
        if r.consumer == d.consumer.id && r.producer == d.producer.id {
          assert e.Id() == d.Id();
          assert k.deliveryId == id;
        }
        assert (r.consumer == d.consumer.id && r.producer == d.producer.id) <==> k.deliveryId == id;
      } else {
        assert PositiveRecords(keys, deliveries, blocks, value) == prev;
      }
    }
  }

  lemma {:induction false} RecordsUnitsAt(keys: seq<VarKey>, deliveries: map<string, Delivery>,
                                          blocks: seq<TimeBlock>, value: VarKey -> real,
                                          producerId: string, b: nat)
    requires Decodable(keys, deliveries, blocks) && NonNegative(keys, value)
    ensures UnitsAt(PositiveRecords(keys, deliveries, blocks, value), producerId, b)
            == SumOfProducerBlock(keys, deliveries, value, producerId, b)
  {
    if keys != [] {
      var n := |keys| - 1;
      RecordsUnitsAt(keys[..n], deliveries, blocks, value, producerId, b);
      var prev := PositiveRecords(keys[..n], deliveries, blocks, value);
      assert value(keys[n]) >= 0.0;
      if value(keys[n]) > 0.0 {
        var r := RecordOf(keys[n], deliveries, blocks, value);
        assert PositiveRecords(keys, deliveries, blocks, value) == prev + [r];
        assert (prev + [r])[..|prev|] == prev;
      } else {
        assert PositiveRecords(keys, deliveries, blocks, value) == prev;
      }
    }
  }

  // ----- sums over concatenations -----

  lemma {:induction false} SumOfDeliveryConcat(a: seq<VarKey>, b: seq<VarKey>, value: VarKey -> real, id: string)
    ensures SumOfDelivery(a + b, value, id) == SumOfDelivery(a, value, id) + SumOfDelivery(b, value, id)
  {
    if b != [] {
      var n := |b| - 1;
      assert (a + b)[..|a + b| - 1] == a + b[..n];
      SumOfDeliveryConcat(a, b[..n], value, id);
    } else {
      assert a + b == a;
    }
  }

  lemma {:induction false} SumOfProducerBlockConcat(a: seq<VarKey>, c: seq<VarKey>, deliveries: map<string, Delivery>,
                                                    value: VarKey -> real, producerId: string, b: nat)
    ensures SumOfProducerBlock(a + c, deliveries, value, producerId, b)
            == SumOfProducerBlock(a, deliveries, value, producerId, b)
               + SumOfProducerBlock(c, deliveries, value, producerId, b)
  {
    if c != [] {
      var n := |c| - 1;
      assert (a + c)[..|a + c| - 1] == a + c[..n];
      SumOfProducerBlockConcat(a, c[..n], deliveries, value, producerId, b);
    } else {
      assert a + c == a;
    }
  }

  /** Over keys that all belong to delivery `id` the delivery's sum is the
      plain sum; over keys none of which does, it is 0. */
  lemma {:induction false} SumOfDeliveryUniform(keys: seq<VarKey>, value: VarKey -> real, id: string)
    ensures (forall i :: 0 <= i < |keys| ==> keys[i].deliveryId == id) ==> SumOfDelivery(keys, value, id) == Sum(keys, value)
    ensures (forall i :: 0 <= i < |keys| ==> keys[i].deliveryId != id) ==> SumOfDelivery(keys, value, id) == 0.0
  {
    if keys != [] {
      SumOfDeliveryUniform(keys[..|keys| - 1], value, id);
    }
  }

  // ----- from key sums to rows -----

  /** The demand row of delivery `id` sums the same values as all the
      variables restricted to that delivery. */
  lemma {:induction false} DemandRowSum(order: seq<string>, deliveries: map<string, Delivery>,
                                        blocks: seq<TimeBlock>, value: VarKey -> real, id: string)
    requires Registered(order, deliveries) && Distinct(order) && id in order
    ensures SumOfDelivery(FeasibleKeys(order, deliveries, blocks), value, id)
            == Sum(BlockKeys(id, deliveries[id], blocks, |blocks|), value)
  {
    var n := |order| - 1;
    var last := order[n];
    var prefix := order[..n];
    var front := FeasibleKeys(prefix, deliveries, blocks);
    var back := BlockKeys(last, deliveries[last], blocks, |blocks|);
    SumOfDeliveryConcat(front, back, value, id);
    SumOfDeliveryUniform(back, value, id);
    if last == id {
      assert id !in prefix;
      FeasibleKeysMembership(prefix, deliveries, blocks);
      forall i | 0 <= i < |front|
        ensures front[i].deliveryId != id
      {
        assert front[i] in front;
      }
      SumOfDeliveryUniform(front, value, id);
    } else {
      assert id in prefix by {
        assert order == prefix + [last];
      }
      DemandRowSum(prefix, deliveries, blocks, value, id);
    }
  }

  /** One delivery's keys contribute to the capacity sum of block `b`
      exactly its (feasible) variable of that block, if its producer
      matches. */
  lemma {:induction false} BlockKeysProducerSum(id: string, deliveries: map<string, Delivery>,
                                                blocks: seq<TimeBlock>, n: nat, value: VarKey -> real,
                                                producerId: string, b: nat)
    requires id in deliveries && n <= |blocks|
    ensures var d := deliveries[id];
            SumOfProducerBlock(BlockKeys(id, d, blocks, n), deliveries, value, producerId, b)
            == if b < n && d.producer.id == producerId && EndsByDeparture(d, blocks[b]) then value(VarKey(id, b)) else 0.0
  {
    if n > 0 {
      var d := deliveries[id];
      var prev := BlockKeys(id, d, blocks, n - 1);
      var tail := if EndsByDeparture(d, blocks[n - 1]) then [VarKey(id, n - 1)] else [];
      BlockKeysProducerSum(id, deliveries, blocks, n - 1, value, producerId, b);
      SumOfProducerBlockConcat(prev, tail, deliveries, value, producerId, b);
      if tail != [] {
        assert tail[..0] == [];
      }
    }
  }

  /** The capacity row of a producer in block `b` sums the same values as
      all the variables restricted to that producer and block. */
  lemma {:induction false} CapacityRowSum(order: seq<string>, deliveries: map<string, Delivery>,
                                          blocks: seq<TimeBlock>, value: VarKey -> real,
                                          producerId: string, b: nat)
    requires Registered(order, deliveries) && b < |blocks|
    ensures SumOfProducerBlock(FeasibleKeys(order, deliveries, blocks), deliveries, value, producerId, b)
            == Sum(CapacityKeys(order, deliveries, blocks, producerId, b), value)
  {
    if order != [] {
      var n := |order| - 1;
      var last := order[n];
      var prefix := order[..n];
      var front := FeasibleKeys(prefix, deliveries, blocks);
      var back := BlockKeys(last, deliveries[last], blocks, |blocks|);
      CapacityRowSum(prefix, deliveries, blocks, value, producerId, b);
      SumOfProducerBlockConcat(front, back, deliveries, value, producerId, b);
      BlockKeysProducerSum(last, deliveries, blocks, |blocks|, value, producerId, b);
      var ck := CapacityKeys(prefix, deliveries, blocks, producerId, b);
      var d := deliveries[last];
      if d.producer.id == producerId && EndsByDeparture(d, blocks[b]) {
        assert (ck + [VarKey(last, b)])[..|ck|] == ck;
      } else {
        assert ck + [] == ck;
      }
    }
  }

  // ----- the properties -----

  lemma ValuesNonNegative(m: LpModel, order: seq<string>, deliveries: map<string, Delivery>,
                          blocks: seq<TimeBlock>, ps: seq<Producer>, value: VarKey -> real)
    requires IsModelFor(m, order, deliveries, blocks, ps) && Satisfies(m, value)
    ensures NonNegative(FeasibleKeys(order, deliveries, blocks), value)
  {
    var keys := FeasibleKeys(order, deliveries, blocks);
    forall i | 0 <= i < |keys|
      ensures value(keys[i]) >= 0.0
    {
      assert m.variables[i] in m.variables;
    }
  }

  /** For values that satisfy the record, the schedule sends each delivery
      exactly its consumer's required units. */
  lemma DemandMet(m: LpModel, order: seq<string>, deliveries: map<string, Delivery>,
                  blocks: seq<TimeBlock>, ps: seq<Producer>, value: VarKey -> real, i: nat)
    requires IsModelFor(m, order, deliveries, blocks, ps) && Satisfies(m, value)
    requires Distinct(order) && IdsConsistent(deliveries) && i < |order|
    ensures var d := deliveries[order[i]];
            var records := PositiveRecords(FeasibleKeys(order, deliveries, blocks), deliveries, blocks, value);
            UnitsFor(records, d.consumer.id, d.producer.id) == d.consumer.requiredUnits
  {
    var id := order[i];
    var keys := FeasibleKeys(order, deliveries, blocks);
    ValuesNonNegative(m, order, deliveries, blocks, ps, value);
    RecordsUnitsFor(keys, deliveries, blocks, value, id);
    DemandRowSum(order, deliveries, blocks, value, id);
    DemandRowsAt(order, deliveries, blocks);
    assert m.constraints[i] == DemandRow(id, deliveries[id], blocks);
    assert m.constraints[i] in m.constraints;
  }

  /** For values that satisfy the record, the schedule takes between 0 and
      `maxSupply` units from each producer in each block. */
  lemma CapacityRespected(m: LpModel, order: seq<string>, deliveries: map<string, Delivery>,
                          blocks: seq<TimeBlock>, producers: set<Producer>, ps: seq<Producer>,
                          value: VarKey -> real, p: Producer, b: nat)
    requires IsModelFor(m, order, deliveries, blocks, ps) && Enumerates(ps, producers) && Satisfies(m, value)
    requires p in producers && b < |blocks|
    ensures var records := PositiveRecords(FeasibleKeys(order, deliveries, blocks), deliveries, blocks, value);
            0.0 <= UnitsAt(records, p.id, b) <= p.maxSupply
  {
    var keys := FeasibleKeys(order, deliveries, blocks);
    ValuesNonNegative(m, order, deliveries, blocks, ps, value);
    RecordsUnitsAt(keys, deliveries, blocks, value, p.id, b);
    CapacityRowSum(order, deliveries, blocks, value, p.id, b);
    ModelRows(m, order, deliveries, blocks, producers, ps);
    var c := CapacityRow(p, order, deliveries, blocks, b);
    assert c in m.constraints;
    assert RowHolds(c, value);
  }

  /** Every allocation of the schedule is a variable the builder created,
      so it ends no later than its consumer's departure. */
  lemma RecordsMeetDeadlines(m: LpModel, order: seq<string>, deliveries: map<string, Delivery>,
                             blocks: seq<TimeBlock>, ps: seq<Producer>, value: VarKey -> real)
    requires IsModelFor(m, order, deliveries, blocks, ps)
    ensures var keys := FeasibleKeys(order, deliveries, blocks);
            var records := PositiveRecords(keys, deliveries, blocks, value);
            var pk := PositiveKeys(keys, value);
            && |records| == |pk|
            && forall j :: 0 <= j < |pk| ==>
                 && HasVariable(order, deliveries, blocks, pk[j])
                 && records[j].timeBlock == pk[j].block
                 && records[j].consumer == deliveries[pk[j].deliveryId].consumer.id
                 && blocks[records[j].timeBlock].dateUntil <= deliveries[pk[j].deliveryId].consumer.departureDate
  {
    var keys := FeasibleKeys(order, deliveries, blocks);
    ScheduleRecords(keys, deliveries, blocks, value);
    FeasibleKeysMembership(order, deliveries, blocks);
    var pk := PositiveKeys(keys, value);
    forall j | 0 <= j < |pk|
      ensures HasVariable(order, deliveries, blocks, pk[j])
    {
      assert pk[j] in pk;
    }
  }

  /** With distinct delivery identifiers the schedule lists its allocations
      by delivery insertion order, then by ascending block. */
  lemma ScheduleOrder(order: seq<string>, deliveries: map<string, Delivery>, blocks: seq<TimeBlock>,
                      value: VarKey -> real)
    requires Registered(order, deliveries) && Distinct(order)
    ensures Ordered(order, PositiveKeys(FeasibleKeys(order, deliveries, blocks), value))
  {
    FeasibleKeysOrdered(order, deliveries, blocks);
    PositiveKeysOrdered(order, FeasibleKeys(order, deliveries, blocks), value);
  }

  lemma {:induction false} TotalPriceMatches(vars: seq<Variable>, keys: seq<VarKey>, objective: map<VarKey, real>,
                                             deliveries: map<string, Delivery>, blocks: seq<TimeBlock>,
                                             value: VarKey -> real)
    requires Decodable(keys, deliveries, blocks) && NonNegative(keys, value) && |vars| == |keys|
    requires forall j :: 0 <= j < |keys| ==>
               vars[j].key == keys[j] && keys[j] in objective && objective[keys[j]] == blocks[keys[j].block].price
    ensures TotalPrice(PositiveRecords(keys, deliveries, blocks, value)) == ObjectiveValue(vars, objective, value)
  {
    if keys != [] {
      var n := |keys| - 1;
      var k := keys[n];
      assert Decodable(keys[..n], deliveries, blocks) && NonNegative(keys[..n], value) by {
        forall j | 0 <= j < n
          ensures keys[..n][j] == keys[j]
        {
        }
      }
      assert forall j :: 0 <= j < n ==>
               vars[..n][j].key == keys[..n][j] && keys[..n][j] in objective
               && objective[keys[..n][j]] == blocks[keys[..n][j].block].price;
      TotalPriceMatches(vars[..n], keys[..n], objective, deliveries, blocks, value);
      assert vars[n].key == k && objective[k] == blocks[k.block].price;
      ObjectiveValueLast(vars, objective, value, k, blocks[k.block].price);
      LastTotalPrice(keys, deliveries, blocks, value);
    }
  }

  lemma ObjectiveValueLast(vars: seq<Variable>, objective: map<VarKey, real>, value: VarKey -> real,
                           k: VarKey, coefficient: real)
    requires vars != [] && vars[|vars| - 1].key == k && k in objective && objective[k] == coefficient
    ensures ObjectiveValue(vars, objective, value)
            == ObjectiveValue(vars[..|vars| - 1], objective, value) + Cost(value(k), coefficient)
  {
    var last := vars[|vars| - 1];
    assert last.key == k;
    var rest := ObjectiveValue(vars[..|vars| - 1], objective, value);
    assert ObjectiveValue(vars, objective, value) == rest + Cost(value(last.key), objective[last.key]);
  }

  /** The last variable adds its units times its block's price to the
      total, or nothing when its value is not positive. */
  lemma LastTotalPrice(keys: seq<VarKey>, deliveries: map<string, Delivery>, blocks: seq<TimeBlock>,
                       value: VarKey -> real)
    requires keys != [] && Decodable(keys, deliveries, blocks) && NonNegative(keys, value)
    ensures var n := |keys| - 1;
            var k := keys[n];
            TotalPrice(PositiveRecords(keys, deliveries, blocks, value))
            == TotalPrice(PositiveRecords(keys[..n], deliveries, blocks, value)) + Cost(value(k), blocks[k.block].price)
  {
    var n := |keys| - 1;
    var k := keys[n];
    var prev := PositiveRecords(keys[..n], deliveries, blocks, value);
    var all := PositiveRecords(keys, deliveries, blocks, value);
    var units := value(k);
    var price := blocks[k.block].price;
    assert units >= 0.0;
    if units > 0.0 {
      var r := RecordOf(k, deliveries, blocks, value);
      assert all == prev + [r];
      TotalPriceAppend(prev, r);
    } else {
      assert all == prev;
      assert units == 0.0;
    }
  }

  lemma TotalPriceAppend(records: seq<Record>, r: Record)
    ensures TotalPrice(records + [r]) == TotalPrice(records) + Cost(r.unitsToSupply, r.unitPrice)
  {
    assert (records + [r])[..|records|] == records;
  }

  /** For values that satisfy the record, the schedule's total price is the
      value of the objective the solver minimised. */
  lemma TotalPriceIsObjective(m: LpModel, order: seq<string>, deliveries: map<string, Delivery>,
                              blocks: seq<TimeBlock>, ps: seq<Producer>, value: VarKey -> real)
    requires IsModelFor(m, order, deliveries, blocks, ps) && Satisfies(m, value)
    ensures TotalPrice(PositiveRecords(FeasibleKeys(order, deliveries, blocks), deliveries, blocks, value))
            == ObjectiveValue(m.variables, m.objective, value)
  {
    var keys := FeasibleKeys(order, deliveries, blocks);
    ValuesNonNegative(m, order, deliveries, blocks, ps, value);
    FeasibleKeysMembership(order, deliveries, blocks);
    forall j | 0 <= j < |keys|
      ensures keys[j] in m.objective
    {
      assert keys[j] in keys;
    }
    TotalPriceMatches(m.variables, keys, m.objective, deliveries, blocks, value);
  }

  /** The schedule's records give every registered delivery its consumer's
      required units and keep every producer within its per-block supply. */
  ghost predicate Honours(records: seq<Record>, order: seq<string>, deliveries: map<string, Delivery>,
                          blocks: seq<TimeBlock>, producers: set<Producer>)
    requires Registered(order, deliveries)
  {
    && (forall i :: 0 <= i < |order| ==>
          var d := deliveries[order[i]];
          UnitsFor(records, d.consumer.id, d.producer.id) == d.consumer.requiredUnits)
    && (forall p, b :: p in producers && 0 <= b < |blocks| ==>
          0.0 <= UnitsAt(records, p.id, b) <= p.maxSupply)
  }

  /** Values that satisfy the record yield a schedule that honours demand
      and capacity and whose total price is the objective's value. */
  lemma SolutionHonoursRecord(m: LpModel, order: seq<string>, deliveries: map<string, Delivery>,
                              blocks: seq<TimeBlock>, producers: set<Producer>, ps: seq<Producer>,
                              value: VarKey -> real)
    requires IsModelFor(m, order, deliveries, blocks, ps) && Enumerates(ps, producers) && Satisfies(m, value)
    requires Distinct(order) && IdsConsistent(deliveries)
    ensures var records := PositiveRecords(FeasibleKeys(order, deliveries, blocks), deliveries, blocks, value);
            && Honours(records, order, deliveries, blocks, producers)
            && TotalPrice(records) == ObjectiveValue(m.variables, m.objective, value)
  {
    var records := PositiveRecords(FeasibleKeys(order, deliveries, blocks), deliveries, blocks, value);
    forall i | 0 <= i < |order|
      ensures var d := deliveries[order[i]];
              UnitsFor(records, d.consumer.id, d.producer.id) == d.consumer.requiredUnits
    {
      DemandMet(m, order, deliveries, blocks, ps, value, i);
    }
    forall p, b | p in producers && 0 <= b < |blocks|
      ensures 0.0 <= UnitsAt(records, p.id, b) <= p.maxSupply
    {
      CapacityRespected(m, order, deliveries, blocks, producers, ps, value, p, b);
    }
    TotalPriceIsObjective(m, order, deliveries, blocks, ps, value);
  }
}
