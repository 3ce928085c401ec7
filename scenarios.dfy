/** The interleaved-price scenario of the repository's tests: one consumer
    needing 4 units within 2 hours, one producer supplying at most 1 unit
    per block, 15-minute blocks priced 2 on even and 1 on odd block
    numbers. The expected allocation (1 unit in each odd block) satisfies
    the record, costs 4, and no answer that satisfies the record costs
    less. */
module Scenarios {
  import opened Wrappers
  import opened TimeBlocks
  import opened Entities
  import opened Lp
  import opened ModelBuilder
  import opened Schedules

  /** 2019-01-02 00:00, in microseconds since `datetime.min`. */
  const Start: Instant := 737060 * 24 * 60 * MicrosecondsPerMinute

  const Quarter: nat := 15 * MicrosecondsPerMinute

  /** The block-number rules of the scenario, in registration order. */
  function InterleavedRules(): seq<UnitPrice>
  {
    seq(8, j => UnitPrice(None, None, Some(j), if j % 2 == 0 then 2.0 else 1.0))
  }

  /** The scenario's blocks. */
  function Blocks(): (blocks: seq<TimeBlock>)
    ensures |blocks| == 8
  {
    InterleavedBlocks();
    PeriodToBlocks(4, 2, Start, InterleavedRules()).value
  }

  function InterleavedPrice(i: nat): real
  {
    if i % 2 == 0 then 2.0 else 1.0
  }

  /** Two hours of four blocks per hour from `Start`: eight aligned
      quarter-hour blocks priced 2, 1, 2, 1, ... */
  lemma InterleavedBlocks()
    ensures PeriodToBlocks(4, 2, Start, InterleavedRules()).Ok?
    ensures var blocks := PeriodToBlocks(4, 2, Start, InterleavedRules()).value;
            && |blocks| == 8
            && forall i :: 0 <= i < 8 ==>
                 && blocks[i].dateFrom == Start + i * Quarter
                 && blocks[i].dateUntil == Start + (i + 1) * Quarter
                 && blocks[i].price == InterleavedPrice(i)
  {
    var rules := InterleavedRules();
    assert Start % Quarter == 0;
    assert CeilDt(Start, Quarter) == Start;
    var blocks := PeriodToBlocks(4, 2, Start, rules).value;
    forall i | 0 <= i < 8
      ensures blocks[i].dateFrom == Start + i * Quarter
    {
      BlockStart(blocks, Start, Quarter, i);
    }
    forall i | 0 <= i < 8
      ensures blocks[i].price == InterleavedPrice(i)
    {
      var date := blocks[i].dateFrom;
      assert Matches(rules[i], date, i);
      forall j | 0 <= j < i
        ensures !Matches(rules[j], date, i)
      {
        assert rules[j].blockNumber == Some(j);
      }
      PriceForFirstMatch(rules, date, i);
    }
  }

  /** The consumer: 4 units, leaving two hours after `Start`. */
  function Buyer(): Consumer
  {
    Consumer("co1", 4.0, Start + 8 * Quarter)
  }

  function Order(p: Producer): seq<string>
  {
    [Delivery(Buyer(), p).Id()]
  }

  function Deliveries(p: Producer): map<string, Delivery>
  {
    map[Delivery(Buyer(), p).Id() := Delivery(Buyer(), p)]
  }

  /** The test's allocation: 1 unit in each odd block, none in the even ones. */
  function Expected(k: VarKey): real
  {
    if k.block % 2 == 1 then 1.0 else 0.0
  }

  /** The keys of one delivery's variables in the first `n` blocks. */
  function Keys(id: string, n: nat): seq<VarKey>
  {
    seq(n, i requires 0 <= i < n => VarKey(id, i))
  }

  /** Every block ends by the consumer's departure, so each block has a
      variable. */
  lemma {:induction false} AllBlocksFeasible(p: Producer, n: nat)
    requires n <= 8
    ensures var id := Delivery(Buyer(), p).Id();
            BlockKeys(id, Delivery(Buyer(), p), Blocks(), n) == Keys(id, n)
  {
    InterleavedBlocks();
    if n > 0 {
      var id := Delivery(Buyer(), p).Id();
      AllBlocksFeasible(p, n - 1);
      assert EndsByDeparture(Delivery(Buyer(), p), Blocks()[n - 1]);
      assert Keys(id, n) == Keys(id, n - 1) + [VarKey(id, n - 1)];
    }
  }

  lemma ScenarioKeys(p: Producer)
    ensures Registered(Order(p), Deliveries(p))
    ensures FeasibleKeys(Order(p), Deliveries(p), Blocks()) == Keys(Delivery(Buyer(), p).Id(), 8)
  {
    InterleavedBlocks();
    var order := Order(p);
    assert order[..0] == [];
    AllBlocksFeasible(p, 8);
  }

  /** Half the first `n` blocks, rounded down, are odd. */
  lemma {:induction false} SumExpected(id: string, n: nat)
    ensures Sum(Keys(id, n), Expected) == (n / 2) as real
  {
    if n > 0 {
      SumExpected(id, n - 1);
      assert Keys(id, n)[..n - 1] == Keys(id, n - 1);
    }
  }

  /** Block `b`'s capacity row of the producer holds the delivery's one
      variable of that block. */
  lemma ScenarioCapacityKeys(p: Producer, b: nat)
    requires b < 8
    ensures Registered(Order(p), Deliveries(p))
    ensures CapacityKeys(Order(p), Deliveries(p), Blocks(), p.id, b) == [VarKey(Delivery(Buyer(), p).Id(), b)]
  {
    InterleavedBlocks();
    var order := Order(p);
    assert order[..0] == [];
    assert EndsByDeparture(Delivery(Buyer(), p), Blocks()[b]);
  }

  /** Row `b + 1` of the scenario's record bounds the delivery's variable
      in block `b` by the producer's maximum supply. */
  lemma ScenarioCapacityRow(p: Producer, m: LpModel, ps: seq<Producer>, b: nat)
    requires IsModelFor(m, Order(p), Deliveries(p), Blocks(), ps) && Enumerates(ps, {p})
    requires b < 8
    ensures b + 1 < |m.constraints|
    ensures m.constraints[b + 1] == Constraint(0.0, p.maxSupply, [VarKey(Delivery(Buyer(), p).Id(), b)])
  {
    ScenarioRows(p, m, ps);
    ProducerRowsAt(p, Order(p), Deliveries(p), Blocks(), 8);
    ScenarioCapacityKeys(p, b);
  }

  /** The only enumeration of a one-producer set is that producer alone. */
  lemma SingleEnumeration(ps: seq<Producer>, p: Producer)
    requires Enumerates(ps, {p})
    ensures ps == [p]
  {
    assert |ps| >= 2 ==> ps[0] != ps[1];
    forall i | 0 <= i < |ps|
      ensures ps[i] == p
    {
      assert ps[i] in ps;
    }
    assert p in ps;
  }

  /** The rows of any record built for the scenario: the demand row, then
      the producer's eight capacity rows. */
  lemma ScenarioRows(p: Producer, m: LpModel, ps: seq<Producer>)
    requires IsModelFor(m, Order(p), Deliveries(p), Blocks(), ps)
    requires Enumerates(ps, {p})
    ensures m.constraints
            == [DemandRow(Delivery(Buyer(), p).Id(), Delivery(Buyer(), p), Blocks())]
               + ProducerRows(p, Order(p), Deliveries(p), Blocks(), 8)
  {
    InterleavedBlocks();
    SingleEnumeration(ps, p);
    var order := Order(p);
    assert order[..0] == [];
    assert ps[..0] == [];
    assert DemandRows(order, Deliveries(p), Blocks())
           == [DemandRow(Delivery(Buyer(), p).Id(), Delivery(Buyer(), p), Blocks())];
    assert CapacityRows(ps, order, Deliveries(p), Blocks())
           == CapacityRows([], order, Deliveries(p), Blocks()) + ProducerRows(p, order, Deliveries(p), Blocks(), 8);
  }

  /** The objective over the first `n` variables, valued by `Expected`. */
  lemma {:induction false} ObjectiveExpected(vars: seq<Variable>, objective: map<VarKey, real>, id: string)
    requires |vars| <= 8
    requires forall j :: 0 <= j < |vars| ==>
               vars[j].key == VarKey(id, j) && vars[j].key in objective && objective[vars[j].key] == InterleavedPrice(j)
    ensures ObjectiveValue(vars, objective, Expected) == (|vars| / 2) as real
  {
    if vars != [] {
      var n := |vars| - 1;
      ObjectiveExpected(vars[..n], objective, id);
      var k := vars[n].key;
      assert ObjectiveValue(vars, objective, Expected)
             == ObjectiveValue(vars[..n], objective, Expected) + Cost(Expected(k), objective[k]);
      if n % 2 == 1 {
        assert Cost(Expected(k), objective[k]) == Cost(1.0, 1.0) == 1.0;
      } else {
        assert Cost(Expected(k), objective[k]) == Cost(0.0, 2.0) == 0.0;
      }
    }
  }

  /** What the record lays down for the scenario's variables: the keys in
      block order, each with lower bound 0 and the block's price. */
  lemma ScenarioVariables(p: Producer, m: LpModel, ps: seq<Producer>)
    requires IsModelFor(m, Order(p), Deliveries(p), Blocks(), ps)
    ensures var id := Delivery(Buyer(), p).Id();
            && |m.variables| == 8 && VariableKeys(m.variables) == Keys(id, 8)
            && forall j :: 0 <= j < 8 ==>
                 && m.variables[j] == Variable(VarKey(id, j), 0.0, Infinite)
                 && VarKey(id, j) in m.objective && m.objective[VarKey(id, j)] == InterleavedPrice(j)
  {
    InterleavedBlocks();
    ScenarioKeys(p);
    ModelVariables(m, Order(p), Deliveries(p), Blocks(), ps);
    forall j | 0 <= j < 8
      ensures VarKey(Delivery(Buyer(), p).Id(), j) in m.objective
    {
      assert m.variables[j] in m.variables;
    }
  }

  /** Row 0 of the scenario's record asks for exactly 4 units over the
      delivery's eight variables. */
  lemma ScenarioDemandRow(p: Producer, m: LpModel, ps: seq<Producer>)
    requires IsModelFor(m, Order(p), Deliveries(p), Blocks(), ps) && Enumerates(ps, {p})
    ensures |m.constraints| == 9
    ensures m.constraints[0] == Constraint(4.0, 4.0, Keys(Delivery(Buyer(), p).Id(), 8))
  {
    ScenarioRows(p, m, ps);
    ProducerRowsAt(p, Order(p), Deliveries(p), Blocks(), 8);
    AllBlocksFeasible(p, 8);
  }

  /** The record of the scenario, for delivery `id` and a producer of
      supply `supply`: eight variables in block order with lower bound 0
      and the block's price, the demand row over all of them, and one
      capacity row per block over that block's variable. */
  ghost predicate ScenarioShape(m: LpModel, id: string, supply: real)
  {
    && |m.variables| == 8 && VariableKeys(m.variables) == Keys(id, 8)
    && (forall j :: 0 <= j < 8 ==>
          && m.variables[j] == Variable(VarKey(id, j), 0.0, Infinite)
          && VarKey(id, j) in m.objective && m.objective[VarKey(id, j)] == InterleavedPrice(j))
    && |m.constraints| == 9
    && m.constraints[0] == Constraint(4.0, 4.0, Keys(id, 8))
    && (forall b :: 0 <= b < 8 ==> m.constraints[b + 1] == Constraint(0.0, supply, [VarKey(id, b)]))
  }

  /** Any record built for the scenario has that shape. */
  lemma ScenarioRecord(p: Producer, m: LpModel, ps: seq<Producer>)
    requires IsModelFor(m, Order(p), Deliveries(p), Blocks(), ps) && Enumerates(ps, {p})
    ensures ScenarioShape(m, Delivery(Buyer(), p).Id(), p.maxSupply)
  {
    ScenarioVariables(p, m, ps);
    ScenarioDemandRow(p, m, ps);
    forall b | 0 <= b < 8
      ensures m.constraints[b + 1] == Constraint(0.0, p.maxSupply, [VarKey(Delivery(Buyer(), p).Id(), b)])
    {
      ScenarioCapacityRow(p, m, ps, b);
    }
  }

  /** In a record of that shape, with supply 1, the test's allocation
      satisfies every row and costs 4. */
  lemma ShapeSatisfies(m: LpModel, id: string)
    requires ScenarioShape(m, id, 1.0)
    ensures Satisfies(m, Expected)
    ensures ObjectiveValue(m.variables, m.objective, Expected) == 4.0
  {
    SumExpected(id, 8);
    forall c | c in m.constraints
      ensures RowHolds(c, Expected)
    {
      var j :| 0 <= j < |m.constraints| && m.constraints[j] == c;
      if j > 0 {
        assert [VarKey(id, j - 1)][..0] == [];
      }
    }
    ObjectiveExpected(m.variables, m.objective, id);
  }

  /** In a record of that shape, with supply 1, every satisfying answer
      costs at least 4, and one that costs no more is the test's
      allocation. */
  lemma ShapeOptimum(m: LpModel, id: string, value: VarKey -> real)
    requires ScenarioShape(m, id, 1.0) && Satisfies(m, value)
    ensures ObjectiveValue(m.variables, m.objective, value) >= 4.0
    ensures ObjectiveValue(m.variables, m.objective, value) <= 4.0 ==>
              forall j :: 0 <= j < 8 ==> value(VarKey(id, j)) == Expected(VarKey(id, j))
  {
    forall j | 0 <= j < 8
      ensures value(VarKey(id, j)) >= 0.0
    {
      assert m.variables[j] in m.variables;
    }
    forall j | 0 <= j < 8 && j % 2 == 1
      ensures value(VarKey(id, j)) <= 1.0
    {
      assert m.constraints[j + 1] in m.constraints;
      assert [VarKey(id, j)][..0] == [];
      assert Sum([VarKey(id, j)], value) == value(VarKey(id, j));
    }
    assert m.constraints[0] in m.constraints;
    SumSplit(id, 8, value);
    ObjectiveSplit(m.variables, m.objective, id, value);
    EvenSumZero(id, 8, value);
    OddSumFull(id, 8, value);
  }

  /** The test's allocation satisfies every row of the record, and its
      objective is the expected total price 4. */
  lemma ExpectedSatisfies(p: Producer, m: LpModel, ps: seq<Producer>)
    requires p.maxSupply == 1.0
    requires IsModelFor(m, Order(p), Deliveries(p), Blocks(), ps) && Enumerates(ps, {p})
    ensures Satisfies(m, Expected)
    ensures ObjectiveValue(m.variables, m.objective, Expected) == 4.0
  {
    ScenarioRecord(p, m, ps);
    ShapeSatisfies(m, Delivery(Buyer(), p).Id());
  }

  /** The allocations the test expects after block `n`: 1 unit in every odd
      block, at price 1. */
  function OddRecords(producerId: string, n: nat): seq<Record>
  {
    if n == 0 then []
    else OddRecords(producerId, n - 1)
         + (if (n - 1) % 2 == 1 then [Record(n - 1, producerId, "co1", 1.0, 1.0)] else [])
  }

  /** The schedule the test expects: blocks 1, 3, 5 and 7, 1 unit each at
      price 1. */
  function ExpectedRecords(producerId: string): seq<Record>
  {
    [Record(1, producerId, "co1", 1.0, 1.0), Record(3, producerId, "co1", 1.0, 1.0),
     Record(5, producerId, "co1", 1.0, 1.0), Record(7, producerId, "co1", 1.0, 1.0)]
  }

  lemma {:induction false} OddRecordsTotal(producerId: string, n: nat)
    ensures TotalPrice(OddRecords(producerId, n)) == (n / 2) as real
  {
    if n > 0 {
      OddRecordsTotal(producerId, n - 1);
      var rs := OddRecords(producerId, n);
      assert n / 2 == (n - 1) / 2 + (if (n - 1) % 2 == 1 then 1 else 0);
      if (n - 1) % 2 == 1 {
        assert rs == OddRecords(producerId, n - 1) + [Record(n - 1, producerId, "co1", 1.0, 1.0)];
        assert rs[..|rs| - 1] == OddRecords(producerId, n - 1);
        assert Cost(1.0, 1.0) == 1.0;
      } else {
        assert rs == OddRecords(producerId, n - 1);
      }
    }
  }

  lemma {:induction false} OddRecordsUpTo(p: Producer, n: nat)
    requires n <= 8
    ensures Decodable(Keys(Delivery(Buyer(), p).Id(), n), Deliveries(p), Blocks())
    ensures PositiveRecords(Keys(Delivery(Buyer(), p).Id(), n), Deliveries(p), Blocks(), Expected)
            == OddRecords(p.id, n)
  {
    if n > 0 {
      var id := Delivery(Buyer(), p).Id();
      OddRecordsUpTo(p, n - 1);
      assert Keys(id, n)[..n - 1] == Keys(id, n - 1);
      if (n - 1) % 2 == 1 {
        InterleavedBlocks();
        assert Blocks()[n - 1].price == 1.0;
      }
    }
  }

  /** After eight blocks, the odd-block records are the test's four. */
  lemma OddRecordsEight(producerId: string)
    ensures OddRecords(producerId, 8) == ExpectedRecords(producerId)
  {
    var r := ExpectedRecords(producerId);
    assert OddRecords(producerId, 1) == [];
    assert OddRecords(producerId, 2) == r[..1];
    assert OddRecords(producerId, 3) == r[..1];
    assert OddRecords(producerId, 4) == r[..2];
    assert OddRecords(producerId, 5) == r[..2];
    assert OddRecords(producerId, 6) == r[..3];
    assert OddRecords(producerId, 7) == r[..3];
    assert OddRecords(producerId, 8) == r[..4];
  }

  /** The test's allocation yields the test's schedule: four records, in
      blocks 1, 3, 5 and 7, of total price 4. */
  lemma ExpectedSchedule(p: Producer)
    ensures Decodable(Keys(Delivery(Buyer(), p).Id(), 8), Deliveries(p), Blocks())
    ensures PositiveRecords(Keys(Delivery(Buyer(), p).Id(), 8), Deliveries(p), Blocks(), Expected)
            == ExpectedRecords(p.id)
    ensures TotalPrice(ExpectedRecords(p.id)) == 4.0
  {
    OddRecordsUpTo(p, 8);
    OddRecordsTotal(p.id, 8);
    OddRecordsEight(p.id);
  }

  /** The sum of the values of the delivery's variables in the first `n`
      blocks whose number has the given parity. */
  function ParitySum(id: string, n: nat, parity: nat, value: VarKey -> real): real
  {
    if n == 0 then 0.0
    else ParitySum(id, n - 1, parity, value) + (if (n - 1) % 2 == parity then value(VarKey(id, n - 1)) else 0.0)
  }

  lemma {:induction false} SumSplit(id: string, n: nat, value: VarKey -> real)
    ensures Sum(Keys(id, n), value) == ParitySum(id, n, 0, value) + ParitySum(id, n, 1, value)
  {
    if n > 0 {
      SumSplit(id, n - 1, value);
      assert Keys(id, n)[..n - 1] == Keys(id, n - 1);
    }
  }

  /** With prices 2 and 1 alternating, the objective is the odd-block sum
      plus twice the even-block sum. */
  lemma {:induction false} ObjectiveSplit(vars: seq<Variable>, objective: map<VarKey, real>, id: string,
                                          value: VarKey -> real)
    requires forall j :: 0 <= j < |vars| ==>
               vars[j].key == VarKey(id, j) && vars[j].key in objective && objective[vars[j].key] == InterleavedPrice(j)
    ensures ObjectiveValue(vars, objective, value)
            == ParitySum(id, |vars|, 1, value) + 2.0 * ParitySum(id, |vars|, 0, value)
  {
    if vars != [] {
      var n := |vars| - 1;
      ObjectiveSplit(vars[..n], objective, id, value);
      var k := vars[n].key;
      if n % 2 == 1 {
        assert Cost(value(k), objective[k]) == value(k);
      } else {
        assert Cost(value(k), objective[k]) == 2.0 * value(k);
      }
    }
  }

  /** Non-negative values have a non-negative even-block sum, which is 0
      only when every even-block value is 0. */
  lemma {:induction false} EvenSumZero(id: string, n: nat, value: VarKey -> real)
    requires forall j :: 0 <= j < n ==> value(VarKey(id, j)) >= 0.0
    ensures ParitySum(id, n, 0, value) >= 0.0
    ensures ParitySum(id, n, 0, value) == 0.0 ==>
              forall j :: 0 <= j < n && j % 2 == 0 ==> value(VarKey(id, j)) == 0.0
  {
    if n > 0 {
      EvenSumZero(id, n - 1, value);
    }
  }

  /** Odd-block values of at most 1 sum to at most the number of odd
      blocks, and reach it only when every one of them is 1. */
  lemma {:induction false} OddSumFull(id: string, n: nat, value: VarKey -> real)
    requires forall j :: 0 <= j < n && j % 2 == 1 ==> value(VarKey(id, j)) <= 1.0
    ensures ParitySum(id, n, 1, value) <= (n / 2) as real
    ensures ParitySum(id, n, 1, value) >= (n / 2) as real ==>
              forall j :: 0 <= j < n && j % 2 == 1 ==> value(VarKey(id, j)) == 1.0
  {
    if n > 0 {
      OddSumFull(id, n - 1, value);
      assert n / 2 == (n - 1) / 2 + (if (n - 1) % 2 == 1 then 1 else 0);
    }
  }

  /** Every answer that satisfies the record costs at least 4, and one that
      costs no more is the test's allocation: 1 unit in each odd block,
      nothing in the even ones. */
  lemma InterleavedOptimum(p: Producer, m: LpModel, ps: seq<Producer>, value: VarKey -> real)
    requires p.maxSupply == 1.0
    requires IsModelFor(m, Order(p), Deliveries(p), Blocks(), ps) && Enumerates(ps, {p})
    requires Satisfies(m, value)
    ensures ObjectiveValue(m.variables, m.objective, value) >= 4.0
    ensures ObjectiveValue(m.variables, m.objective, value) <= 4.0 ==>
              forall j :: 0 <= j < 8 ==>
                value(VarKey(Delivery(Buyer(), p).Id(), j)) == Expected(VarKey(Delivery(Buyer(), p).Id(), j))
  {
    ScenarioRecord(p, m, ps);
    ShapeOptimum(m, Delivery(Buyer(), p).Id(), value);
  }

  /** Two valuations that agree on the keys give the same records. */
  lemma {:induction false} PositiveRecordsAgree(keys: seq<VarKey>, deliveries: map<string, Delivery>,
                                                blocks: seq<TimeBlock>, v1: VarKey -> real, v2: VarKey -> real)
    requires Decodable(keys, deliveries, blocks)
    requires forall i :: 0 <= i < |keys| ==> v1(keys[i]) == v2(keys[i])
    ensures PositiveRecords(keys, deliveries, blocks, v1) == PositiveRecords(keys, deliveries, blocks, v2)
  {
    if keys != [] {
      PositiveRecordsAgree(keys[..|keys| - 1], deliveries, blocks, v1, v2);
    }
  }

  /** Whatever optimum the solver reports for the scenario, the schedule
      built from it is the test's: blocks 1, 3, 5 and 7, 1 unit each at
      price 1, total price 4. */
  lemma InterleavedSchedule(p: Producer, m: LpModel, ps: seq<Producer>, value: VarKey -> real)
    requires p.maxSupply == 1.0
    requires IsModelFor(m, Order(p), Deliveries(p), Blocks(), ps) && Enumerates(ps, {p})
    requires Satisfies(m, value)
    requires ObjectiveValue(m.variables, m.objective, value) <= ObjectiveValue(m.variables, m.objective, Expected)
    ensures Decodable(VariableKeys(m.variables), Deliveries(p), Blocks())
    ensures PositiveRecords(VariableKeys(m.variables), Deliveries(p), Blocks(), value) == ExpectedRecords(p.id)
    ensures TotalPrice(PositiveRecords(VariableKeys(m.variables), Deliveries(p), Blocks(), value)) == 4.0
  {
    var id := Delivery(Buyer(), p).Id();
    ExpectedSatisfies(p, m, ps);
    InterleavedOptimum(p, m, ps, value);
    ScenarioVariables(p, m, ps);
    ExpectedSchedule(p);
    PositiveRecordsAgree(Keys(id, 8), Deliveries(p), Blocks(), value, Expected);
  }
}
