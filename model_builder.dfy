/** The model builder of `ProducerConsumerAlgorithm.solve`, up to the
    solver call: one variable per (delivery, block) pair whose block ends by
    the consumer's departure, the block prices as objective coefficients,
    one demand row per delivery and one capacity row per (producer, block). */
module ModelBuilder {
  import opened TimeBlocks
  import opened Entities
  import opened Lp

  /** The deadline test: the block ends no later than the consumer leaves. */
  predicate EndsByDeparture(d: Delivery, block: TimeBlock)
  {
    block.dateUntil <= d.consumer.departureDate
  }

  /** Every identifier in the delivery order has a delivery. */
  predicate Registered(order: seq<string>, deliveries: map<string, Delivery>)
  {
    forall i :: 0 <= i < |order| ==> order[i] in deliveries
  }

  /** Whether the builder creates a variable for `k`. */
  predicate HasVariable(order: seq<string>, deliveries: map<string, Delivery>,
                        blocks: seq<TimeBlock>, k: VarKey)
  {
    && k.deliveryId in order && k.deliveryId in deliveries
    && k.block < |blocks| && EndsByDeparture(deliveries[k.deliveryId], blocks[k.block])
  }

  /** The keys of delivery `id`'s variables among the first `n` blocks, in
      ascending block order. */
  function BlockKeys(id: string, d: Delivery, blocks: seq<TimeBlock>, n: nat): (keys: seq<VarKey>)
    requires n <= |blocks|
    ensures forall i :: 0 <= i < |keys| ==> keys[i].deliveryId == id && keys[i].block < n
  {
    if n == 0 then []
    else BlockKeys(id, d, blocks, n - 1)
         + (if EndsByDeparture(d, blocks[n - 1]) then [VarKey(id, n - 1)] else [])
  }

  /** The keys of all variables in creation order: delivery by delivery in
      insertion order, and within a delivery by ascending block. */
  function FeasibleKeys(order: seq<string>, deliveries: map<string, Delivery>,
                        blocks: seq<TimeBlock>): (keys: seq<VarKey>)
    requires Registered(order, deliveries)
    ensures forall i :: 0 <= i < |keys| ==> keys[i].deliveryId in deliveries && keys[i].block < |blocks|
  {
    if order == [] then []
    else
      var id := order[|order| - 1];
      FeasibleKeys(order[..|order| - 1], deliveries, blocks)
      + BlockKeys(id, deliveries[id], blocks, |blocks|)
  }

  /** The demand row of a delivery: its consumer's required units, exactly,
      over the delivery's own variables. */
  function DemandRow(id: string, d: Delivery, blocks: seq<TimeBlock>): Constraint
  {
    Constraint(d.consumer.requiredUnits, d.consumer.requiredUnits,
               BlockKeys(id, d, blocks, |blocks|))
  }

  function DemandRows(order: seq<string>, deliveries: map<string, Delivery>,
                      blocks: seq<TimeBlock>): seq<Constraint>
    requires Registered(order, deliveries)
  {
    if order == [] then []
    else
      var id := order[|order| - 1];
      DemandRows(order[..|order| - 1], deliveries, blocks) + [DemandRow(id, deliveries[id], blocks)]
  }

  /** The keys, in delivery order, of block `b`'s variables of the
      deliveries whose producer has identifier `producerId`. */
  function CapacityKeys(order: seq<string>, deliveries: map<string, Delivery>,
                        blocks: seq<TimeBlock>, producerId: string, b: nat): seq<VarKey>
    requires Registered(order, deliveries) && b < |blocks|
  {
    if order == [] then []
    else
      var id := order[|order| - 1];
      var d := deliveries[id];
      CapacityKeys(order[..|order| - 1], deliveries, blocks, producerId, b)
      + (if d.producer.id == producerId && EndsByDeparture(d, blocks[b]) then [VarKey(id, b)] else [])
  }

  /** The capacity row of a producer in block `b`: between 0 and its
      maximum supply. */
  function CapacityRow(p: Producer, order: seq<string>, deliveries: map<string, Delivery>,
                       blocks: seq<TimeBlock>, b: nat): Constraint
    requires Registered(order, deliveries) && b < |blocks|
  {
    Constraint(0.0, p.maxSupply, CapacityKeys(order, deliveries, blocks, p.id, b))
  }

  /** A producer's capacity rows for the first `n` blocks. */
  function ProducerRows(p: Producer, order: seq<string>, deliveries: map<string, Delivery>,
                        blocks: seq<TimeBlock>, n: nat): seq<Constraint>
    requires Registered(order, deliveries) && n <= |blocks|
  {
    if n == 0 then []
    else ProducerRows(p, order, deliveries, blocks, n - 1) + [CapacityRow(p, order, deliveries, blocks, n - 1)]
  }

  function CapacityRows(ps: seq<Producer>, order: seq<string>, deliveries: map<string, Delivery>,
                        blocks: seq<TimeBlock>): seq<Constraint>
    requires Registered(order, deliveries)
  {
    if ps == [] then []
    else CapacityRows(ps[..|ps| - 1], order, deliveries, blocks)
         + ProducerRows(ps[|ps| - 1], order, deliveries, blocks, |blocks|)
  }

  /** `ps` lists each producer of `producers` once, in the (unspecified)
      order the source's set iteration visits them. */
  ghost predicate Enumerates(ps: seq<Producer>, producers: set<Producer>)
  {
    && (forall p :: p in ps ==> p in producers)
    && (forall p :: p in producers ==> p in ps)
    && (forall i, j :: 0 <= i < j < |ps| ==> ps[i] != ps[j])
  }

  /** The record the builder hands to the solver, given the order in which
      the producers were visited. */
  ghost predicate IsModelFor(m: LpModel, order: seq<string>, deliveries: map<string, Delivery>,
                             blocks: seq<TimeBlock>, ps: seq<Producer>)
  {
    && Registered(order, deliveries)
    && var keys := FeasibleKeys(order, deliveries, blocks);
    && |m.variables| == |keys|
    && (forall j :: 0 <= j < |keys| ==> m.variables[j] == Variable(keys[j], 0.0, Infinite))
    && (forall k :: k in m.objective <==> HasVariable(order, deliveries, blocks, k))
    && (forall k :: k in m.objective ==> k.block < |blocks| && m.objective[k] == blocks[k.block].price)
    && m.minimize
    && m.constraints == DemandRows(order, deliveries, blocks) + CapacityRows(ps, order, deliveries, blocks)
  }

  // ----- what the key lists contain -----

  lemma {:induction false} BlockKeysMembership(id: string, d: Delivery, blocks: seq<TimeBlock>, n: nat)
    requires n <= |blocks|
    ensures forall k :: k in BlockKeys(id, d, blocks, n) <==>
              k.deliveryId == id && k.block < n && EndsByDeparture(d, blocks[k.block])
  {
    if n > 0 {
      BlockKeysMembership(id, d, blocks, n - 1);
    }
  }

  lemma {:induction false} FeasibleKeysMembership(order: seq<string>, deliveries: map<string, Delivery>,
                                                  blocks: seq<TimeBlock>)
    requires Registered(order, deliveries)
    ensures forall k :: k in FeasibleKeys(order, deliveries, blocks) <==>
              HasVariable(order, deliveries, blocks, k)
  {
    if order != [] {
      var n := |order| - 1;
      var id := order[n];
      FeasibleKeysMembership(order[..n], deliveries, blocks);
      BlockKeysMembership(id, deliveries[id], blocks, |blocks|);
      forall k
        ensures k in FeasibleKeys(order, deliveries, blocks) <==> HasVariable(order, deliveries, blocks, k)
      {
        assert k.deliveryId in order <==> k.deliveryId in order[..n] || k.deliveryId == id by {
          assert order == order[..n] + [id];
        }
      }
    }
  }

  lemma {:induction false} CapacityKeysMembership(order: seq<string>, deliveries: map<string, Delivery>,
                                                  blocks: seq<TimeBlock>, producerId: string, b: nat)
    requires Registered(order, deliveries) && b < |blocks|
    ensures forall k :: k in CapacityKeys(order, deliveries, blocks, producerId, b) <==>
              HasVariable(order, deliveries, blocks, k) && k.block == b
              && deliveries[k.deliveryId].producer.id == producerId
  {
    if order != [] {
      var n := |order| - 1;
      FeasibleKeysMembership(order, deliveries, blocks);
      CapacityKeysMembership(order[..n], deliveries, blocks, producerId, b);
      assert order == order[..n] + [order[n]];
    }
  }

  // ----- the builder: the three loops of `solve` -----

  /** The variable and objective loop: for each delivery and each block
      ending by the consumer's departure, a variable in [0, infinity) whose
      objective coefficient is the block's price. `created` is the set of
      (delivery, block) pairs that hold a variable. */
  method CreateVariables(order: seq<string>, deliveries: map<string, Delivery>, blocks: seq<TimeBlock>)
    returns (vars: seq<Variable>, objective: map<VarKey, real>, created: set<VarKey>)
    requires Registered(order, deliveries)
    ensures var keys := FeasibleKeys(order, deliveries, blocks);
            |vars| == |keys| && forall j :: 0 <= j < |keys| ==> vars[j] == Variable(keys[j], 0.0, Infinite)
    ensures forall k :: k in objective <==> HasVariable(order, deliveries, blocks, k)
    ensures forall k :: k in objective ==> k.block < |blocks| && objective[k] == blocks[k.block].price
    ensures created == objective.Keys
  {
    vars, objective, created := [], map[], {};
    var i := 0;
    while i < |order|
      invariant 0 <= i <= |order|
      invariant VariablesSoFar(vars, objective, created, FeasibleKeys(order[..i], deliveries, blocks), blocks)
    {
      assert order[..i + 1][..i] == order[..i];
      vars, objective, created := CreateDeliveryVariables(order[i], deliveries[order[i]], blocks,
                                                          vars, objective, created,
                                                          FeasibleKeys(order[..i], deliveries, blocks));
      i := i + 1;
    }
    assert order[..|order|] == order;
    FeasibleKeysMembership(order, deliveries, blocks);
  }

  /** The inner loop of CreateVariables, over the blocks of one delivery. */
  method CreateDeliveryVariables(id: string, d: Delivery, blocks: seq<TimeBlock>,
                                 vars0: seq<Variable>, objective0: map<VarKey, real>, created0: set<VarKey>,
                                 ghost before: seq<VarKey>)
    returns (vars: seq<Variable>, objective: map<VarKey, real>, created: set<VarKey>)
    requires VariablesSoFar(vars0, objective0, created0, before, blocks)
    ensures VariablesSoFar(vars, objective, created, before + BlockKeys(id, d, blocks, |blocks|), blocks)
  {
    vars, objective, created := vars0, objective0, created0;
    var b := 0;
    assert before + BlockKeys(id, d, blocks, 0) == before;
    while b < |blocks|
      invariant 0 <= b <= |blocks|
      invariant VariablesSoFar(vars, objective, created, before + BlockKeys(id, d, blocks, b), blocks)
    {
      ghost var keys := before + BlockKeys(id, d, blocks, b);
      if blocks[b].dateUntil <= d.consumer.departureDate {
        var key := VarKey(id, b);
        VariablesAppend(vars, objective, created, keys, blocks, key);
        vars := vars + [Variable(key, 0.0, Infinite)];
        objective := objective[key := blocks[b].price];
        created := created + {key};
        assert before + BlockKeys(id, d, blocks, b + 1) == keys + [key];
      } else {
        assert before + BlockKeys(id, d, blocks, b + 1) == keys;
      }
      b := b + 1;
    }
  }

  lemma VariablesAppend(vars: seq<Variable>, objective: map<VarKey, real>, created: set<VarKey>,
                        keys: seq<VarKey>, blocks: seq<TimeBlock>, key: VarKey)
    requires VariablesSoFar(vars, objective, created, keys, blocks) && key.block < |blocks|
    ensures VariablesSoFar(vars + [Variable(key, 0.0, Infinite)], objective[key := blocks[key.block].price],
                           created + {key}, keys + [key], blocks)
  {
  }

  /** The loop invariant of CreateVariables: the variables created so far
      are those of `keys`, in that order. */
  ghost predicate VariablesSoFar(vars: seq<Variable>, objective: map<VarKey, real>, created: set<VarKey>,
                                 keys: seq<VarKey>, blocks: seq<TimeBlock>)
  {
    && |vars| == |keys|
    && (forall j :: 0 <= j < |keys| ==> vars[j] == Variable(keys[j], 0.0, Infinite))
    && (forall k :: k in objective <==> k in keys)
    && (forall k :: k in objective ==> k.block < |blocks| && objective[k] == blocks[k.block].price)
    && created == objective.Keys
  }

  /** The demand loop: for each delivery a row `required = sum` over the
      blocks that hold one of its variables. The source files each row
      under its consumer's id in a dictionary, but every row is added to
      the solver, so there is one row per delivery. */
  method DemandConstraints(order: seq<string>, deliveries: map<string, Delivery>, blocks: seq<TimeBlock>,
                           created: set<VarKey>)
    returns (rows: seq<Constraint>)
    requires Registered(order, deliveries)
    requires forall k :: k in created <==> HasVariable(order, deliveries, blocks, k)
    ensures rows == DemandRows(order, deliveries, blocks)
  {
    rows := [];
    var i := 0;
    while i < |order|
      invariant 0 <= i <= |order|
      invariant rows == DemandRows(order[..i], deliveries, blocks)
    {
      var id := order[i];
      var consumer := deliveries[id].consumer;
      var terms := [];
      var b := 0;
      while b < |blocks|
        invariant 0 <= b <= |blocks|
        invariant terms == BlockKeys(id, deliveries[id], blocks, b)
      {
        if VarKey(id, b) in created {
          terms := terms + [VarKey(id, b)];
        }
        b := b + 1;
      }
      rows := rows + [Constraint(consumer.requiredUnits, consumer.requiredUnits, terms)];
      assert order[..i + 1][..i] == order[..i];
      i := i + 1;
    }
    assert order[..|order|] == order;
  }

  /** The capacity loops: for each producer, visited in the arbitrary order
      of the source's set, and each block, a row in [0, maxSupply] over that
      block's variables of the deliveries whose producer has the same id. */
  method CapacityConstraints(order: seq<string>, deliveries: map<string, Delivery>, blocks: seq<TimeBlock>,
                             created: set<VarKey>, producers: set<Producer>)
    returns (rows: seq<Constraint>, ghost visited: seq<Producer>)
    requires Registered(order, deliveries)
    requires forall k :: k in created <==> HasVariable(order, deliveries, blocks, k)
    ensures Enumerates(visited, producers)
    ensures rows == CapacityRows(visited, order, deliveries, blocks)
    ensures |rows| == |producers| * |blocks|
  {
    rows, visited := [], [];
    var remaining := producers;
    while remaining != {}
      invariant remaining <= producers
      invariant |visited| + |remaining| == |producers|
      invariant forall p :: p in visited ==> p in producers && p !in remaining
      invariant forall p :: p in producers ==> p in visited || p in remaining
      invariant forall i, j :: 0 <= i < j < |visited| ==> visited[i] != visited[j]
      invariant rows == CapacityRows(visited, order, deliveries, blocks)
      decreases |remaining|
    {
      var pr :| pr in remaining;
      var b := 0;
      while b < |blocks|
        invariant 0 <= b <= |blocks|
        invariant rows == CapacityRows(visited, order, deliveries, blocks)
                          + ProducerRows(pr, order, deliveries, blocks, b)
      {
        var terms := ProducerTerms(order, deliveries, blocks, created, pr.id, b);
        rows := rows + [Constraint(0.0, pr.maxSupply, terms)];
        b := b + 1;
      }
      assert (visited + [pr])[..|visited|] == visited;
      visited := visited + [pr];
      remaining := remaining - {pr};
    }
    CapacityRowsShape(visited, order, deliveries, blocks);
  }

  /** The innermost capacity loop, over the deliveries' variables. */
  method ProducerTerms(order: seq<string>, deliveries: map<string, Delivery>, blocks: seq<TimeBlock>,
                       created: set<VarKey>, producerId: string, b: nat)
    returns (terms: seq<VarKey>)
    requires Registered(order, deliveries) && b < |blocks|
    requires forall k :: k in created <==> HasVariable(order, deliveries, blocks, k)
    ensures terms == CapacityKeys(order, deliveries, blocks, producerId, b)
  {
    terms := [];
    var i := 0;
    while i < |order|
      invariant 0 <= i <= |order|
      invariant terms == CapacityKeys(order[..i], deliveries, blocks, producerId, b)
    {
      var id := order[i];
      if producerId == deliveries[id].producer.id && VarKey(id, b) in created {
        terms := terms + [VarKey(id, b)];
      }
      assert order[..i + 1][..i] == order[..i];
      i := i + 1;
    }
    assert order[..|order|] == order;
  }

  /** The model construction of `solve`, from the blocks to the objective
      direction and every row; `visited` is the order in which the
      producers' rows were added. */
  method BuildModel(order: seq<string>, deliveries: map<string, Delivery>, blocks: seq<TimeBlock>,
                    producers: set<Producer>)
    returns (m: LpModel, ghost visited: seq<Producer>)
    requires Registered(order, deliveries)
    ensures Enumerates(visited, producers)
    ensures IsModelFor(m, order, deliveries, blocks, visited)
    ensures m.minimize
    ensures VariableKeys(m.variables) == FeasibleKeys(order, deliveries, blocks)
    ensures |m.constraints| == |order| + |producers| * |blocks|
    ensures m.constraints[..|order|] == DemandRows(order, deliveries, blocks)
  {
    var vars, objective, created := CreateVariables(order, deliveries, blocks);
    var demand := DemandConstraints(order, deliveries, blocks, created);
    var capacity;
    capacity, visited := CapacityConstraints(order, deliveries, blocks, created, producers);
    m := LpModel(vars, objective, true, demand + capacity);
    DemandRowsAt(order, deliveries, blocks);
    assert (demand + capacity)[..|order|] == demand;
  }

  // ----- properties of the record the builder produces -----

  /** The keys of the variables, in order. */
  function VariableKeys(vars: seq<Variable>): (keys: seq<VarKey>)
    ensures |keys| == |vars| && forall j :: 0 <= j < |vars| ==> keys[j] == vars[j].key
  {
    seq(|vars|, j requires 0 <= j < |vars| => vars[j].key)
  }

  /** A variable exists exactly for the feasible (delivery, block) pairs,
      each one in [0, infinity) and with its block's price as coefficient
      of the minimised objective. */
  lemma ModelVariables(m: LpModel, order: seq<string>, deliveries: map<string, Delivery>,
                       blocks: seq<TimeBlock>, ps: seq<Producer>)
    requires IsModelFor(m, order, deliveries, blocks, ps)
    ensures m.minimize
    ensures forall v :: v in m.variables ==>
              && HasVariable(order, deliveries, blocks, v.key)
              && v.lower == 0.0 && v.upper == Infinite
              && v.key in m.objective && m.objective[v.key] == blocks[v.key.block].price
    ensures forall k :: HasVariable(order, deliveries, blocks, k) ==> Variable(k, 0.0, Infinite) in m.variables
  {
    var keys := FeasibleKeys(order, deliveries, blocks);
    FeasibleKeysMembership(order, deliveries, blocks);
    forall k | HasVariable(order, deliveries, blocks, k)
      ensures Variable(k, 0.0, Infinite) in m.variables
    {
      var j :| 0 <= j < |keys| && keys[j] == k;
      assert m.variables[j] == Variable(k, 0.0, Infinite);
    }
  }

  /** No variable exists for a block that ends after its consumer leaves. */
  lemma NoVariablePastDeparture(m: LpModel, order: seq<string>, deliveries: map<string, Delivery>,
                                blocks: seq<TimeBlock>, ps: seq<Producer>, v: Variable)
    requires IsModelFor(m, order, deliveries, blocks, ps) && v in m.variables
    ensures v.key.deliveryId in deliveries && v.key.block < |blocks|
    ensures blocks[v.key.block].dateUntil <= deliveries[v.key.deliveryId].consumer.departureDate
  {
    ModelVariables(m, order, deliveries, blocks, ps);
  }

  lemma {:induction false} DemandRowsAt(order: seq<string>, deliveries: map<string, Delivery>,
                                        blocks: seq<TimeBlock>)
    requires Registered(order, deliveries)
    ensures |DemandRows(order, deliveries, blocks)| == |order|
    ensures forall i :: 0 <= i < |order| ==>
              DemandRows(order, deliveries, blocks)[i] == DemandRow(order[i], deliveries[order[i]], blocks)
  {
    if order != [] {
      DemandRowsAt(order[..|order| - 1], deliveries, blocks);
    }
  }

  lemma {:induction false} ProducerRowsAt(p: Producer, order: seq<string>, deliveries: map<string, Delivery>,
                                          blocks: seq<TimeBlock>, n: nat)
    requires Registered(order, deliveries) && n <= |blocks|
    ensures |ProducerRows(p, order, deliveries, blocks, n)| == n
    ensures forall b :: 0 <= b < n ==>
              ProducerRows(p, order, deliveries, blocks, n)[b] == CapacityRow(p, order, deliveries, blocks, b)
  {
    if n > 0 {
      ProducerRowsAt(p, order, deliveries, blocks, n - 1);
    }
  }

  lemma {:induction false} CapacityRowsShape(ps: seq<Producer>, order: seq<string>,
                                             deliveries: map<string, Delivery>, blocks: seq<TimeBlock>)
    requires Registered(order, deliveries)
    ensures |CapacityRows(ps, order, deliveries, blocks)| == |ps| * |blocks|
    ensures forall p, b :: p in ps && 0 <= b < |blocks| ==>
              CapacityRow(p, order, deliveries, blocks, b) in CapacityRows(ps, order, deliveries, blocks)
  {
    if ps != [] {
      var n := |ps| - 1;
      CapacityRowsShape(ps[..n], order, deliveries, blocks);
      ProducerRowsAt(ps[n], order, deliveries, blocks, |blocks|);
      assert |ps| * |blocks| == n * |blocks| + |blocks|;
      forall p, b | p in ps && 0 <= b < |blocks|
        ensures CapacityRow(p, order, deliveries, blocks, b) in CapacityRows(ps, order, deliveries, blocks)
      {
        if p != ps[n] {
          assert p in ps[..n] by {
            var j :| 0 <= j < |ps| && ps[j] == p;
            assert ps[..n][j] == p;
          }
        } else {
          assert ProducerRows(ps[n], order, deliveries, blocks, |blocks|)[b] == CapacityRow(p, order, deliveries, blocks, b);
        }
      }
    }
  }

  /** The rows: one demand row per delivery, fixing the sum of exactly that
      delivery's variables to its consumer's required units, then one
      capacity row per producer and block, bounding by [0, maxSupply] the
      sum of exactly that block's variables of deliveries whose producer
      has the same id. */
  lemma ModelRows(m: LpModel, order: seq<string>, deliveries: map<string, Delivery>,
                  blocks: seq<TimeBlock>, producers: set<Producer>, ps: seq<Producer>)
    requires IsModelFor(m, order, deliveries, blocks, ps) && Enumerates(ps, producers)
    ensures |m.constraints| == |order| + |ps| * |blocks|
    ensures forall i :: 0 <= i < |order| ==>
              var c := m.constraints[i];
              var consumer := deliveries[order[i]].consumer;
              && c.lower == consumer.requiredUnits && c.upper == consumer.requiredUnits
              && (forall k :: k in c.terms <==>
                    k.deliveryId == order[i] && HasVariable(order, deliveries, blocks, k))
    ensures forall p, b :: p in producers && 0 <= b < |blocks| ==>
              var c := CapacityRow(p, order, deliveries, blocks, b);
              && c in m.constraints && c.lower == 0.0 && c.upper == p.maxSupply
              && (forall k :: k in c.terms <==>
                    && HasVariable(order, deliveries, blocks, k) && k.block == b
                    && deliveries[k.deliveryId].producer.id == p.id)
  {
    DemandRowsAt(order, deliveries, blocks);
    CapacityRowsShape(ps, order, deliveries, blocks);
    forall i | 0 <= i < |order|
      ensures forall k :: k in m.constraints[i].terms <==>
                k.deliveryId == order[i] && HasVariable(order, deliveries, blocks, k)
    {
      assert m.constraints[i] == DemandRows(order, deliveries, blocks)[i];
      BlockKeysMembership(order[i], deliveries[order[i]], blocks, |blocks|);
    }
    forall p, b | p in producers && 0 <= b < |blocks|
      ensures CapacityRow(p, order, deliveries, blocks, b) in m.constraints
      ensures forall k :: k in CapacityRow(p, order, deliveries, blocks, b).terms <==>
                && HasVariable(order, deliveries, blocks, k) && k.block == b
                && deliveries[k.deliveryId].producer.id == p.id
    {
      CapacityKeysMembership(order, deliveries, blocks, p.id, b);
    }
  }

  // ----- the order of the variables -----

  predicate Distinct(order: seq<string>)
  {
    forall i, j :: 0 <= i < j < |order| ==> order[i] != order[j]
  }

  /** The position of the first occurrence of `id`. */
  function IndexOf(order: seq<string>, id: string): (r: nat)
    requires id in order
    ensures r < |order| && order[r] == id
  {
    var n := |order| - 1;
    if id in order[..n] then IndexOf(order[..n], id) else n
  }

  /** `k1` comes before `k2`: an earlier delivery, or the same delivery and
      an earlier block. */
  predicate KeyBefore(order: seq<string>, k1: VarKey, k2: VarKey)
    requires k1.deliveryId in order && k2.deliveryId in order
  {
    IndexOf(order, k1.deliveryId) < IndexOf(order, k2.deliveryId)
    || (k1.deliveryId == k2.deliveryId && k1.block < k2.block)
  }

  predicate Ordered(order: seq<string>, keys: seq<VarKey>)
  {
    && (forall i :: 0 <= i < |keys| ==> keys[i].deliveryId in order)
    && (forall i, j :: 0 <= i < j < |keys| ==> KeyBefore(order, keys[i], keys[j]))
  }

  lemma {:induction false} BlockKeysAscending(id: string, d: Delivery, blocks: seq<TimeBlock>, n: nat)
    requires n <= |blocks|
    ensures forall i, j :: 0 <= i < j < |BlockKeys(id, d, blocks, n)| ==>
              BlockKeys(id, d, blocks, n)[i].block < BlockKeys(id, d, blocks, n)[j].block
  {
    if n > 0 {
      BlockKeysAscending(id, d, blocks, n - 1);
      var prev := BlockKeys(id, d, blocks, n - 1);
      var tail := if EndsByDeparture(d, blocks[n - 1]) then [VarKey(id, n - 1)] else [];
      var keys := BlockKeys(id, d, blocks, n);
      assert keys == prev + tail;
      forall i, j | 0 <= i < j < |keys|
        ensures keys[i].block < keys[j].block
      {
        assert keys[i] == prev[i];
        if j < |prev| {
          assert keys[j] == prev[j];
        } else {
          assert keys[j] == tail[j - |prev|];
        }
      }
    }
  }

  /** With distinct delivery identifiers the variables are created in
      strictly increasing (delivery insertion, block) order, so none is
      created twice. */
  lemma {:induction false} FeasibleKeysOrdered(order: seq<string>, deliveries: map<string, Delivery>,
                                               blocks: seq<TimeBlock>)
    requires Registered(order, deliveries) && Distinct(order)
    ensures Ordered(order, FeasibleKeys(order, deliveries, blocks))
  {
    if order != [] {
      var n := |order| - 1;
      var id := order[n];
      var prefix := order[..n];
      var front := FeasibleKeys(prefix, deliveries, blocks);
      var back := BlockKeys(id, deliveries[id], blocks, |blocks|);
      var keys := front + back;
      FeasibleKeysOrdered(prefix, deliveries, blocks);
      BlockKeysAscending(id, deliveries[id], blocks, |blocks|);
      assert id !in prefix;
      forall x | x in prefix
        ensures x in order && IndexOf(order, x) == IndexOf(prefix, x) < n
      {
      }
      assert IndexOf(order, id) == n;
      assert id in order;
      forall i | 0 <= i < |keys|
        ensures keys[i].deliveryId in order
      {
        if i >= |front| {
          assert keys[i] == back[i - |front|];
        } else {
          assert keys[i] == front[i];
        }
      }
      forall i, j | 0 <= i < j < |keys|
        ensures KeyBefore(order, keys[i], keys[j])
      {
        if j < |front| {
          assert keys[i] == front[i] && keys[j] == front[j];
          assert KeyBefore(prefix, front[i], front[j]);
        } else if i < |front| {
          assert keys[i] == front[i] && keys[j] == back[j - |front|];
        } else {
          assert keys[i] == back[i - |front|] && keys[j] == back[j - |front|];
        }
      }
    }
  }
}
