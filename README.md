# Producer/consumer scheduling as a linear program — a Dafny model

The modelled system schedules deliveries of units (for example, energy)
from producers to consumers over a horizon. The horizon is cut into
fixed-width time blocks, and each block has a unit price. A delivery pairs
one consumer, who needs `requiredUnits` before a departure instant, with
one producer, who can supply at most `maxSupply` units per block.
`ProducerConsumerAlgorithm.solve` does three things:

- lays out the blocks;
- builds a linear program with one variable per (delivery, block) pair
  whose block ends by the consumer's departure, the block prices as
  objective coefficients, one demand row per delivery and one capacity row
  per (producer, block);
- hands the program to a solver and turns the answer into a `Schedule`.

The model has these modules:

- `TimeBlocks` (`time_blocks.dfy`): `TimeBlock.ceil_dt` as `CeilDt`, and
  `period_to_blocks` as `PeriodToBlocks`, with its price lookup
  `get_price_for_date_or_number` as `PriceFor`. Instants are natural
  numbers that count microseconds since `datetime.min`. The `rrule`
  enumeration of block starts becomes arithmetic: block `i` starts `i`
  widths after the aligned start. Python's two `assert`s and the
  `ZeroDivisionError` of a zero-width block are `Err` results.
- `Entities` (`entities.dfy`): the `Company` / `Building` / `Producer`
  classes. They keep their containment lists, and constructing a child
  appends it to its parent. `Consumer` and `Delivery` are values, along
  with the delivery identifier `"c-<consumer>, p-<producer>"`.
- `Lp` (`lp.dfy`): the record that the model builder hands to the solver
  (the variables with their bounds, the objective coefficients and
  direction, the rows), and what it means for values to satisfy it.
- `ModelBuilder` (`model_builder.dfy`): the loops of `solve` before the
  solver call, as methods proved against specification functions
  (`FeasibleKeys`, `DemandRows`, `CapacityRows`). The producers are a
  `set` of object references, as in Python, and the capacity loop visits
  them in an unspecified order. A ghost sequence records that order.
- `Schedules` (`schedule.dfy`): `Schedule.__init__` as the method
  `Extract`, proved against `PositiveRecords` and `TotalPrice`.
- `SolutionProperties` (`properties.dfy`): what any answer that satisfies
  the record guarantees about the extracted schedule:
  - each delivery receives exactly its required units;
  - no producer exceeds its supply in any block;
  - nothing is delivered after departure;
  - the records keep delivery-then-block order;
  - the total price equals the objective's value.
- `Algorithm` (`algorithm.dfy`): the `ProducerConsumerAlgorithm` class,
  with its fields, its fluent setters, `with_unit_price` and its assert,
  `with_delivery`, `_get_producers`, `_prepare_data` and `solve`.
- `Scenarios` (`scenarios.dfy`): the interleaved-price test of
  `tests.py`, stated about the model. One consumer needs 4 units within
  2 hours, and one producer supplies at most 1 unit per block. The 15-minute
  blocks are priced 2 on even and 1 on odd block numbers. The test's
  allocation (1 unit in each odd block) satisfies the record and costs 4.
  Every answer that satisfies the record costs at least 4, and every one
  that costs 4 gives exactly the test's schedule.

The solver is not modelled. `Solve` takes the status that the solver's
`Solve()` returns and the value of every variable as parameters. Its
contract says two things: the record built is the specified one, and
whenever the values satisfy that record, the schedule honours demand and
capacity and costs the objective's value.

Four behaviours of the code are easy to misread, and the model follows the
code in each:

- There is one demand row per delivery. The rows' dictionary is keyed by
  consumer id, but each iteration creates a new solver row.
- When `blocksPerHour` does not divide 60, the blocks do not cover the
  horizon exactly (`HorizonLength`).
- More than 60 blocks per hour makes the block width zero minutes, and
  `ceil_dt` then divides by zero.
- The delivery identifier is not injective in general
  (`DeliveryIdCollision`).

## Model

| member | source | states |
|---|---|---|
| `TimeBlocks.CeilDt` | ortools_examples/linear/algorithms/producer_consumer.py:111-113 | the result is the least multiple of `delta` (counted from `datetime.min`) that is not before `dt`; it lies in `[dt, dt + delta)` and is `dt` itself when `dt` is aligned |
| `TimeBlocks.PriceForFirstMatch` | ortools_examples/linear/algorithms/producer_consumer.py:134-141 | the price of a block is that of the first rule that matches by block number or by date interval `[from, until)`, and 0 when no rule matches |
| `TimeBlocks.PeriodToBlocks` | ortools_examples/linear/algorithms/producer_consumer.py:115-150 | fails exactly when blocks per hour or hours is not positive (assertion) or blocks per hour exceeds 60 (zero width); otherwise gives `blocksPerHour * hours` blocks numbered in order, the first starting at the aligned start, each one width long, contiguous, and priced by the rules |
| `TimeBlocks.Layout` | ortools_examples/linear/algorithms/producer_consumer.py:129-148 | `n` blocks from `start`: block `i` is numbered `i`, starts where block `i - 1` ends and is priced by the rules at its start |
| `TimeBlocks.HorizonLength` | ortools_examples/linear/algorithms/producer_consumer.py:122-132 | the blocks span `blocksPerHour * hours` widths, which is exactly `hours` hours if and only if `blocksPerHour` divides 60 |
| `TimeBlocks.BlockStart` | ortools_examples/linear/algorithms/producer_consumer.py:129-148 | in contiguous blocks of one width, block `i` starts `i` widths after the first |
| `TimeBlocks.Span` | ortools_examples/linear/algorithms/producer_consumer.py:129-148 | contiguous blocks of one width span their count times that width |
| `TimeBlocks.WholeHours` | ortools_examples/linear/algorithms/producer_consumer.py:122-127 | `blocksPerHour * hours` blocks of the truncated width make exactly `hours` hours if and only if `blocksPerHour` divides 60 |
| `Entities.Company.constructor` | ortools_examples/linear/algorithms/producer_consumer.py:49-52 | a company starts with its id, optional maximum supply and no buildings |
| `Entities.Company.AddBuilding` | ortools_examples/linear/algorithms/producer_consumer.py:54-55 | appends the building to the company's buildings |
| `Entities.Building.constructor` | ortools_examples/linear/algorithms/producer_consumer.py:59-65 | a building starts with no producers and, when it has a company, is appended to that company's buildings |
| `Entities.Building.AddProducer` | ortools_examples/linear/algorithms/producer_consumer.py:67-68 | appends the producer to the building's producers |
| `Entities.Producer.constructor` | ortools_examples/linear/algorithms/producer_consumer.py:72-77 | a producer keeps its id, supply and building and, when it has a building, is appended to that building's producers |
| `Entities.DeliveryIdInjective` | ortools_examples/linear/algorithms/producer_consumer.py:87 | when consumer ids contain no comma, equal delivery ids mean equal consumer and producer ids |
| `Entities.DeliveryIdCollision` | ortools_examples/linear/algorithms/producer_consumer.py:87 | two pairs whose (consumer id, producer id) tuples differ can share one delivery id |
| `ModelBuilder.BlockKeys` | ortools_examples/linear/algorithms/producer_consumer.py:359-371 | the keys of one delivery's variables all carry its id and a block below the bound |
| `ModelBuilder.FeasibleKeys` | ortools_examples/linear/algorithms/producer_consumer.py:351-371 | every variable key names a registered delivery and an existing block |
| `ModelBuilder.BlockKeysMembership` | ortools_examples/linear/algorithms/producer_consumer.py:359-361 | a key is among one delivery's keys if and only if it carries that delivery's id and a block below the bound that ends by the consumer's departure |
| `ModelBuilder.FeasibleKeysMembership` | ortools_examples/linear/algorithms/producer_consumer.py:358-371 | a variable exists exactly for the (delivery, block) pairs whose block ends no later than the consumer's departure |
| `ModelBuilder.CapacityKeysMembership` | ortools_examples/linear/algorithms/producer_consumer.py:396-401 | a capacity row's terms are exactly the block's variables of the deliveries whose producer has the row's producer id |
| `ModelBuilder.CreateVariables` | ortools_examples/linear/algorithms/producer_consumer.py:351-372 | the variable loop creates the feasible keys in delivery-then-block order, each with bounds `[0, infinity)`, and gives each its block's price as objective coefficient |
| `ModelBuilder.CreateDeliveryVariables` | ortools_examples/linear/algorithms/producer_consumer.py:359-371 | the inner block loop appends one delivery's feasible variables and their coefficients |
| `ModelBuilder.VariablesAppend` | ortools_examples/linear/algorithms/producer_consumer.py:362-371 | creating one variable and setting its coefficient keeps the variable table consistent with the objective |
| `ModelBuilder.DemandConstraints` | ortools_examples/linear/algorithms/producer_consumer.py:376-386 | the demand loop creates, per delivery in order, a row fixed at the consumer's required units over exactly that delivery's variables |
| `ModelBuilder.CapacityConstraints` | ortools_examples/linear/algorithms/producer_consumer.py:390-401 | the capacity loop visits each producer of the set once, in some order, and for each block creates a row in `[0, maxSupply]`, `producers * blocks` rows in all |
| `ModelBuilder.ProducerTerms` | ortools_examples/linear/algorithms/producer_consumer.py:396-401 | the innermost loop collects the block's existing variables of the deliveries whose producer id matches |
| `ModelBuilder.BuildModel` | ortools_examples/linear/algorithms/producer_consumer.py:344-405 | the record built before the solver call is the specified one: the feasible variables in creation order, a minimised objective, and `deliveries + producers * blocks` rows with the demand rows first |
| `ModelBuilder.ModelVariables` | ortools_examples/linear/algorithms/producer_consumer.py:358-372 | the objective is minimised; every variable is non-negative and unbounded above and has a coefficient equal to its block's price; every feasible pair has a variable |
| `ModelBuilder.NoVariablePastDeparture` | ortools_examples/linear/algorithms/producer_consumer.py:361 | no variable belongs to a block that ends after its consumer's departure |
| `ModelBuilder.DemandRowsAt` | ortools_examples/linear/algorithms/producer_consumer.py:376-386 | there is one demand row per delivery (not per consumer), the `i`-th for the `i`-th delivery |
| `ModelBuilder.ProducerRowsAt` | ortools_examples/linear/algorithms/producer_consumer.py:391-401 | a producer has one capacity row per block, the `b`-th for block `b` |
| `ModelBuilder.CapacityRowsShape` | ortools_examples/linear/algorithms/producer_consumer.py:390-401 | there are `producers * blocks` capacity rows, and every (producer, block) pair has its row |
| `ModelBuilder.ModelRows` | ortools_examples/linear/algorithms/producer_consumer.py:376-401 | the record has `deliveries + producers * blocks` rows; the demand row of each delivery ranges over exactly its variables, and the capacity row of each producer and block over exactly the matching variables, bounded by `[0, maxSupply]` |
| `ModelBuilder.BlockKeysAscending` | ortools_examples/linear/algorithms/producer_consumer.py:359 | one delivery's variables are created in strictly increasing block order |
| `ModelBuilder.FeasibleKeysOrdered` | ortools_examples/linear/algorithms/producer_consumer.py:358-359 | with distinct delivery ids, variables are created in strictly increasing (delivery insertion, block) order, so no pair is created twice |
| `Schedules.ResultMessagesDistinct` | ortools_examples/linear/algorithms/producer_consumer.py:172-178 | the three result messages tell optimal, feasible and unsolved apart, and a message announces a solution exactly when the status is optimal or feasible |
| `Schedules.Extract` | ortools_examples/linear/algorithms/producer_consumer.py:158-198 | solved exactly on an optimal or feasible status; unsolved gives no records and total 0; solved gives the records of the strictly positive variables in variable order, with the total being the sum of units times unit price |
| `Schedules.PositiveKeysMembership` | ortools_examples/linear/algorithms/producer_consumer.py:185-187 | a variable is reported if and only if its value is strictly positive |
| `Schedules.PositiveRecordsAt` | ortools_examples/linear/algorithms/producer_consumer.py:185-198 | the `j`-th record is built from the `j`-th reported variable |
| `Schedules.ScheduleRecords` | ortools_examples/linear/algorithms/producer_consumer.py:180-198 | each record carries its variable's block, the delivery's producer and consumer ids, the positive value and the block's price |
| `Schedules.PositiveKeysOrdered` | ortools_examples/linear/algorithms/producer_consumer.py:181-187 | dropping the non-positive variables keeps the (delivery, block) order |
| `SolutionProperties.RecordsUnitsFor` | ortools_examples/linear/algorithms/producer_consumer.py:181-198 | the units that the records send from a delivery's producer to its consumer are the sum of that delivery's variable values |
| `SolutionProperties.RecordsUnitsAt` | ortools_examples/linear/algorithms/producer_consumer.py:185-198 | the units that the records take from a producer in a block are the sum of that producer's variable values in the block |
| `SolutionProperties.DemandRowSum` | ortools_examples/linear/algorithms/producer_consumer.py:376-386 | a delivery's demand row sums the same values as all the variables restricted to that delivery |
| `SolutionProperties.BlockKeysProducerSum` | ortools_examples/linear/algorithms/producer_consumer.py:396-401 | one delivery contributes to a producer's block sum exactly its feasible variable of that block, when its producer id matches |
| `SolutionProperties.CapacityRowSum` | ortools_examples/linear/algorithms/producer_consumer.py:390-401 | a capacity row sums the same values as all the variables restricted to the producer id and block |
| `SolutionProperties.ValuesNonNegative` | ortools_examples/linear/algorithms/producer_consumer.py:363-365 | values that satisfy the record are non-negative |
| `SolutionProperties.DemandMet` | ortools_examples/linear/algorithms/producer_consumer.py:374-386 | for values that satisfy the record, the schedule sends each delivery exactly its consumer's required units |
| `SolutionProperties.CapacityRespected` | ortools_examples/linear/algorithms/producer_consumer.py:387-401 | for values that satisfy the record, the schedule takes between 0 and `maxSupply` units from each producer in each block |
| `SolutionProperties.RecordsMeetDeadlines` | ortools_examples/linear/algorithms/producer_consumer.py:349-361 | every record is a created variable, so its block ends no later than its consumer's departure |
| `SolutionProperties.ScheduleOrder` | ortools_examples/linear/algorithms/producer_consumer.py:181-187 | with distinct delivery ids the schedule lists allocations by delivery insertion order, then by ascending block |
| `SolutionProperties.TotalPriceMatches` | ortools_examples/linear/algorithms/producer_consumer.py:185-189 | the total of units times price over the reported records equals the objective over all variables when every coefficient is its block's price and the values are non-negative |
| `SolutionProperties.LastTotalPrice` | ortools_examples/linear/algorithms/producer_consumer.py:186-189 | the last variable adds its value times its block's price to the total, which is nothing when the value is 0 |
| `SolutionProperties.TotalPriceIsObjective` | ortools_examples/linear/algorithms/producer_consumer.py:356-372 | for values that satisfy the record, the schedule's total price is the value of the minimised objective |
| `SolutionProperties.SolutionHonoursRecord` | ortools_examples/linear/algorithms/producer_consumer.py:374-401 | values that satisfy the record give a schedule that meets every demand and every capacity and costs the objective's value |
| `Algorithm.UnitPriceGuard` | ortools_examples/linear/algorithms/producer_consumer.py:262-263 | a rule the `with_unit_price` assert rejects matches no block; an accepted rule with a non-negative block number, or with a non-empty interval, matches some block; an accepted rule with a negative number or an empty interval matches nothing, as in the source |
| `Algorithm.ProducersOf` | ortools_examples/linear/algorithms/producer_consumer.py:292-294 | the producers are exactly the producers of the registered deliveries |
| `Algorithm.SolveBlocks` | ortools_examples/linear/algorithms/producer_consumer.py:349-409 | after the blocks are laid out: the record built is the specified one, the schedule is extracted from the answer, and an answer that satisfies the record gives a schedule that honours demand and capacity at the objective's cost |
| `Algorithm.ProducerConsumerAlgorithm.constructor` | ortools_examples/linear/algorithms/producer_consumer.py:233-243 | defaults of 4 blocks per hour and 24 hours, no blocks, no price rules, no deliveries, no company, no variables and no solver |
| `Algorithm.ProducerConsumerAlgorithm.WithInitialDate` | ortools_examples/linear/algorithms/producer_consumer.py:245-247 | sets the initial date and changes nothing else |
| `Algorithm.ProducerConsumerAlgorithm.WithHours` | ortools_examples/linear/algorithms/producer_consumer.py:249-251 | sets the hours and changes nothing else |
| `Algorithm.ProducerConsumerAlgorithm.WithBlocksPerHour` | ortools_examples/linear/algorithms/producer_consumer.py:253-255 | sets the blocks per hour and changes nothing else |
| `Algorithm.ProducerConsumerAlgorithm.WithCompany` | ortools_examples/linear/algorithms/producer_consumer.py:280-282 | sets the company and changes nothing else |
| `Algorithm.ProducerConsumerAlgorithm.WithUnitPrice` | ortools_examples/linear/algorithms/producer_consumer.py:257-272 | fails with 'Pass block # or dates' and changes nothing exactly when the rule has neither a block number nor both dates; otherwise appends the rule |
| `Algorithm.ProducerConsumerAlgorithm.WithDelivery` | ortools_examples/linear/algorithms/producer_consumer.py:274-278 | stores the delivery under its id; a new id goes last in the order, while an existing id keeps its place and gets the new delivery; the dictionary's invariant is kept |
| `Algorithm.ProducerConsumerAlgorithm.PrepareData` | ortools_examples/linear/algorithms/producer_consumer.py:284-290 | replaces the blocks by the layout of the current settings, or, when the layout fails, propagates its error and keeps every field |
| `Algorithm.ProducerConsumerAlgorithm.Solve` | ortools_examples/linear/algorithms/producer_consumer.py:344-412 | fails exactly when the layout fails, leaving the state alone; otherwise stores the blocks, the specified record and its variables and returns the extracted schedule, which, for an answer that satisfies the record, meets every demand and capacity and costs the objective's value |
| `Scenarios.InterleavedBlocks` | ortools_examples/linear/tests.py:89-100 | two hours at four blocks per hour from 2019-01-02 00:00, with eight block-number rules, give eight contiguous quarter-hour blocks from that instant, priced 2 on even and 1 on odd block numbers |
| `Scenarios.ScenarioKeys` | ortools_examples/linear/tests.py:101 | every block ends by the consumer's departure, so the delivery has one variable per block, in block order |
| `Scenarios.SingleEnumeration` | ortools_examples/linear/algorithms/producer_consumer.py:292-294 | a set holding one producer is visited as that producer alone |
| `Scenarios.ScenarioRows` | ortools_examples/linear/tests.py:101-102 | the record has the delivery's demand row followed by the producer's eight capacity rows |
| `Scenarios.ScenarioCapacityRow` | ortools_examples/linear/tests.py:43 | block `b`'s capacity row bounds the delivery's one variable of that block by the producer's supply |
| `Scenarios.ScenarioDemandRow` | ortools_examples/linear/tests.py:36-40 | the record's first row asks for exactly the consumer's 4 units over the delivery's eight variables |
| `Scenarios.ScenarioRecord` | ortools_examples/linear/tests.py:87-102 | any record built for the scenario has eight variables in block order, priced 2 and 1 alternately, one demand row and eight single-variable capacity rows |
| `Scenarios.ShapeSatisfies` | ortools_examples/linear/tests.py:104-112 | in a record of that shape with supply 1, the test's allocation satisfies every row and costs 4 |
| `Scenarios.ShapeOptimum` | ortools_examples/linear/tests.py:104-112 | in a record of that shape with supply 1, every satisfying answer costs at least 4, and one that costs no more is the test's allocation |
| `Scenarios.ExpectedSatisfies` | ortools_examples/linear/tests.py:104-112 | the test's allocation, 1 unit in each odd block, satisfies every row and costs 4 |
| `Scenarios.ExpectedSchedule` | ortools_examples/linear/tests.py:105-112 | that allocation yields four records, for blocks 1, 3, 5 and 7, of 1 unit at price 1 each, with total price 4 |
| `Scenarios.InterleavedOptimum` | ortools_examples/linear/tests.py:79-112 | every answer that satisfies the record costs at least 4, and one that costs no more puts 1 unit in each odd block and nothing in the even ones |
| `Scenarios.InterleavedSchedule` | ortools_examples/linear/tests.py:79-112 | whatever optimum is reported, the schedule is the test's: blocks 1, 3, 5 and 7, 1 unit each at price 1, total 4 |

## Left out

- The solver itself (GLOP) and `Solve()` are not modelled. Its status and
  its solution values are parameters of `Solve`, and nothing assumes that
  they satisfy the record: the guarantees about them are conditional.
- There is no Building or Company capacity row, because the source builds
  none either (it marks them as a to-do). `with_company` only stores the
  company.
- Printing is not modelled: `print` of the algorithm and of the schedule,
  and `_get_consumers`, which only the printing uses. The `print_results`
  parameter of `solve` is also left out.
- `datetime.now()` is not modelled. The creation instant is a constructor
  parameter, and the default of `period_to_blocks` is not modelled.
- Python `datetime` values are natural numbers of microseconds since
  `datetime.min`. The overflow past `datetime.max` is not modelled.
- Prices and units are exact reals. Floating-point rounding of the
  solver's values and of the totals is not modelled.
- The solver variables' names (`"<delivery id>-<block>"`) are not
  modelled. The model identifies a variable by its (delivery id, block)
  key.
- Fluent chaining is not modelled: each `with_*` method returns `self`
  in the source. A failed `with_unit_price` assert, which raises in the
  source, is an `Err` result.
- `name` is a string. The `None` default of the source's name is not
  modelled.
- WithUnitPrice: the `price=0` default of `with_unit_price` is not
  modelled; the caller always passes the price. The date and block-number
  defaults are `None` options.
- A numeric `blocks_per_hour` or `hours` that is not an integer is not
  modelled, and neither is the float division inside `int(60 / n)`. For
  integers from 1 to 60, that division truncates to the integer quotient.
- Consumers are values. Mutating a consumer after its delivery is
  registered (the source's objects are shared) is not modelled.
- The iteration order of `_get_producers`'s set is the ghost
  `producerOrder`. Any order is possible: every property holds for all of
  them.
- CeilDt: requires a positive `delta`. The source only calls it with
  the block width, and `PeriodToBlocks` handles the zero width as the
  `ZeroDivisionError` it raises.
- The `if variable:` tests are modelled as "the variable exists". A solver
  variable object is always truthy.
