/** The schedule extractor of `Schedule.__init__`: from the solver's status
    and the value of every variable, the solved flag, the result message,
    the strictly positive allocations and their total price. */
module Schedules {
  import opened TimeBlocks
  import opened Entities
  import opened Lp
  import opened ModelBuilder

  /** One allocation: `unitsToSupply` units in block `timeBlock` from the
      producer to the consumer, at the block's unit price. */
  datatype Record = Record(timeBlock: nat, producer: string, consumer: string,
                           unitsToSupply: real, unitPrice: real)

  datatype Schedule = Schedule(name: string, solved: bool, result: string,
                               totalPrice: real, deliveries: seq<Record>)

  const OptimalMessage: string := "Optimal solution found"
  const FeasibleMessage: string := "A potentially suboptimal solution was found."
  const UnsolvedMessage: string := "The solver could not solve the problem."

  predicate Solved(status: SolverStatus)
  {
    status == Optimal || status == Feasible
  }

  function ResultMessage(status: SolverStatus): string
  {
    if status == Optimal then OptimalMessage
    else if status == Feasible then FeasibleMessage
    else UnsolvedMessage
  }

  /** The three messages tell the three outcomes apart, and a message
      announces a solution exactly when the status is solved. */
  lemma ResultMessagesDistinct(s1: SolverStatus, s2: SolverStatus)
    ensures ResultMessage(s1) == ResultMessage(s2) <==>
            s1 == s2 || (!Solved(s1) && !Solved(s2))
    ensures Solved(s1) <==> ResultMessage(s1) != UnsolvedMessage
  {
    assert OptimalMessage[0] != FeasibleMessage[0];
    assert OptimalMessage[0] != UnsolvedMessage[0];
    assert FeasibleMessage[0] != UnsolvedMessage[0];
  }

  /** Every key names a known delivery and block, as the algorithm's
      variables always do. */
  predicate Decodable(keys: seq<VarKey>, deliveries: map<string, Delivery>, blocks: seq<TimeBlock>)
  {
    forall i :: 0 <= i < |keys| ==> keys[i].deliveryId in deliveries && keys[i].block < |blocks|
  }

  /** The record of variable `k`. */
  function RecordOf(k: VarKey, deliveries: map<string, Delivery>, blocks: seq<TimeBlock>,
                    value: VarKey -> real): Record
    requires k.deliveryId in deliveries && k.block < |blocks|
  {
    var d := deliveries[k.deliveryId];
    Record(k.block, d.producer.id, d.consumer.id, value(k), blocks[k.block].price)
  }

  /** The keys whose value is strictly positive, in their original order. */
  function PositiveKeys(keys: seq<VarKey>, value: VarKey -> real): seq<VarKey>
  {
    if keys == [] then []
    else
      var k := keys[|keys| - 1];
      PositiveKeys(keys[..|keys| - 1], value) + (if value(k) > 0.0 then [k] else [])
  }

  /** The records of the strictly positive variables, in variable order. */
  function PositiveRecords(keys: seq<VarKey>, deliveries: map<string, Delivery>, blocks: seq<TimeBlock>,
                           value: VarKey -> real): seq<Record>
    requires Decodable(keys, deliveries, blocks)
  {
    if keys == [] then []
    else
      var k := keys[|keys| - 1];
      PositiveRecords(keys[..|keys| - 1], deliveries, blocks, value)
      + (if value(k) > 0.0 then [RecordOf(k, deliveries, blocks, value)] else [])
  }

  /** The sum of units times unit price over the records. */
  function TotalPrice(records: seq<Record>): real
  {
    if records == [] then 0.0
    else
      var r := records[|records| - 1];
      TotalPrice(records[..|records| - 1]) + Cost(r.unitsToSupply, r.unitPrice)
  }

  /** `Schedule.__init__`. The source walks the nested dictionary of
      variables, delivery by delivery and block by block; `keys` lists the
      variables in that same order. */
  method Extract(name: string, status: SolverStatus, keys: seq<VarKey>,
                 deliveries: map<string, Delivery>, blocks: seq<TimeBlock>, value: VarKey -> real)
    returns (s: Schedule)
    requires Solved(status) ==> Decodable(keys, deliveries, blocks)
    ensures s.name == name
    ensures s.solved <==> Solved(status)
    ensures s.result == ResultMessage(status)
    ensures !s.solved ==> s.deliveries == [] && s.totalPrice == 0.0
    ensures s.solved ==> s.deliveries == PositiveRecords(keys, deliveries, blocks, value)
    ensures s.totalPrice == TotalPrice(s.deliveries)
  {
    var totalPrice := 0.0;
    var records := [];
    var solved := status == Optimal || status == Feasible;
    var result;
    if status == Optimal {
      result := "Optimal solution found";
    } else if status == Feasible {
      result := "A potentially suboptimal solution was found.";
    } else {
      result := "The solver could not solve the problem.";
    }
    if solved {
      var i := 0;
      while i < |keys|
        invariant 0 <= i <= |keys|
        invariant records == PositiveRecords(keys[..i], deliveries, blocks, value)
        invariant totalPrice == TotalPrice(records)
      {
        var k := keys[i];
        var units := value(k);
        assert keys[..i + 1][..i] == keys[..i];
        if units > 0.0 {
          var d := deliveries[k.deliveryId];
          var block := blocks[k.block];
          totalPrice := totalPrice + units * block.price;
          records := records + [Record(k.block, d.producer.id, d.consumer.id, units, block.price)];
        }
        i := i + 1;
      }
      assert keys[..|keys|] == keys;
    }
    s := Schedule(name, solved, result, totalPrice, records);
  }

  // ----- what the extracted records are -----

  lemma {:induction false} PositiveKeysMembership(keys: seq<VarKey>, value: VarKey -> real)
    ensures forall k :: k in PositiveKeys(keys, value) <==> k in keys && value(k) > 0.0
  {
    if keys != [] {
      PositiveKeysMembership(keys[..|keys| - 1], value);
      assert keys == keys[..|keys| - 1] + [keys[|keys| - 1]];
    }
  }

  lemma {:induction false} PositiveRecordsAt(keys: seq<VarKey>, deliveries: map<string, Delivery>,
                                             blocks: seq<TimeBlock>, value: VarKey -> real)
    requires Decodable(keys, deliveries, blocks)
    ensures var pk := PositiveKeys(keys, value);
            |PositiveRecords(keys, deliveries, blocks, value)| == |pk|
            && forall j :: 0 <= j < |pk| ==>
                 pk[j] in keys && pk[j].deliveryId in deliveries && pk[j].block < |blocks|
                 && PositiveRecords(keys, deliveries, blocks, value)[j] == RecordOf(pk[j], deliveries, blocks, value)
  {
    PositiveKeysMembership(keys, value);
    if keys != [] {
      var n := |keys| - 1;
      PositiveRecordsAt(keys[..n], deliveries, blocks, value);
      PositiveKeysMembership(keys[..n], value);
    }
  }

  /** When solved, the records are exactly those of the variables with a
      strictly positive value, each carrying its block number, the
      delivery's producer and consumer ids, the value and the block's price,
      and they keep the variables' order. */
  lemma ScheduleRecords(keys: seq<VarKey>, deliveries: map<string, Delivery>, blocks: seq<TimeBlock>,
                        value: VarKey -> real)
    requires Decodable(keys, deliveries, blocks)
    ensures var records := PositiveRecords(keys, deliveries, blocks, value);
            var pk := PositiveKeys(keys, value);
            && |records| == |pk|
            && (forall k :: k in pk <==> k in keys && value(k) > 0.0)
            && (forall j :: 0 <= j < |pk| ==>
                 var k := pk[j];
                 && k.deliveryId in deliveries && k.block < |blocks|
                 && records[j] == Record(k.block, deliveries[k.deliveryId].producer.id,
                                         deliveries[k.deliveryId].consumer.id, value(k), blocks[k.block].price)
                 && records[j].unitsToSupply > 0.0)
  {
    PositiveRecordsAt(keys, deliveries, blocks, value);
    PositiveKeysMembership(keys, value);
  }

  /** Dropping the non-positive variables keeps the (delivery, block) order. */
  lemma {:induction false} PositiveKeysOrdered(order: seq<string>, keys: seq<VarKey>, value: VarKey -> real)
    requires Ordered(order, keys)
    ensures Ordered(order, PositiveKeys(keys, value))
  {
    if keys != [] {
      var n := |keys| - 1;
      var prev := PositiveKeys(keys[..n], value);
      assert Ordered(order, keys[..n]);
      PositiveKeysOrdered(order, keys[..n], value);
      PositiveKeysMembership(keys[..n], value);
      var pk := PositiveKeys(keys, value);
      forall i, j | 0 <= i < j < |pk|
        ensures pk[i].deliveryId in order && pk[j].deliveryId in order && KeyBefore(order, pk[i], pk[j])
      {
        assert pk[i] == prev[i];
        if j == |prev| {
          assert pk[j] == keys[n];
          assert prev[i] in prev;
          assert prev[i] in keys[..n];
          var a :| 0 <= a < n && keys[..n][a] == prev[i];
          assert keys[a] == prev[i];
        } else {
          assert pk[j] == prev[j];
        }
      }
      forall i | 0 <= i < |pk|
        ensures pk[i].deliveryId in order
      {
        if i < |prev| {
          assert pk[i] == prev[i];
        } else {
          assert pk[i] == keys[n];
        }
      }
    }
  }
}
