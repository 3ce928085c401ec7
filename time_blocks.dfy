/** The time-block partitioner: aligning the start instant, laying out
    contiguous fixed-width blocks and pricing each block from an ordered
    list of rules. */
module TimeBlocks {
  import opened Wrappers

  /** An instant, counted in microseconds since `datetime.min`
      (microseconds are the resolution of Python's datetime). */
  type Instant = nat

  const MicrosecondsPerMinute: nat := 60_000_000

  /** A price rule: an explicit block number, or a half-open interval
      [dateFrom, dateUntil), or both. */
  datatype UnitPrice = UnitPrice(dateFrom: Option<Instant>, dateUntil: Option<Instant>,
                                 blockNumber: Option<int>, price: real)

  datatype TimeBlock = TimeBlock(number: nat, dateFrom: Instant, dateUntil: Instant, price: real)

  /** Rounds `dt` up to a multiple of `delta` counted from `datetime.min`.
      Python's `%` with a positive right operand and Dafny's `%` agree. */
  function CeilDt(dt: Instant, delta: nat): (r: Instant)
    requires delta > 0
    ensures dt <= r < dt + delta
    ensures r % delta == 0
    ensures forall m: int :: dt <= m && m % delta == 0 ==> r <= m
    ensures dt % delta == 0 ==> r == dt
  {
    var s := (0 - dt) % delta;
    MultipleAfterShift(dt, delta, s);
    dt + s
  }

  /** A multiple of a positive `d` that lies in [0, d) is zero. */
  lemma BetweenMultiples(d: int, y: int)
    requires d > 0 && 0 <= d * y < d
    ensures y == 0
  {
    if y >= 1 {
      MulMonotone(d, y - 1);
      assert false;
    } else if y <= -1 {
      MulMonotone(d, -y - 1);
      assert false;
    }
  }

  lemma MulMonotone(d: int, k: int)
    requires d > 0 && k >= 0
    ensures d * k >= 0
  {
  }

  lemma MulMod(d: int, x: int)
    requires d > 0
    ensures (d * x) % d == 0
  {
    var q, r := (d * x) / d, (d * x) % d;
    assert d * x == d * q + r;
    assert r == d * (x - q);
    BetweenMultiples(d, x - q);
  }

  /** Two multiples of `d` less than `d` apart are equal. */
  lemma CloseMultiples(d: int, a: int, b: int)
    requires d > 0 && a % d == 0 && b % d == 0 && a <= b < a + d
    ensures a == b
  {
    var qa, qb := a / d, b / d;
    assert a == d * qa && b == d * qb;
    assert b - a == d * (qb - qa);
    BetweenMultiples(d, qb - qa);
  }

  /** `dt + (-dt) % delta` is a multiple of `delta`, and it is `dt` itself
      when `dt` already is one. */
  lemma MultipleAfterShift(dt: int, delta: int, s: int)
    requires delta > 0 && s == (0 - dt) % delta
    ensures (dt + s) % delta == 0
    ensures forall m: int :: dt <= m && m % delta == 0 ==> dt + s <= m
    ensures dt % delta == 0 ==> s == 0
  {
    var q := (0 - dt) / delta;
    assert 0 - dt == delta * q + s;
    assert dt + s == delta * (0 - q);
    MulMod(delta, 0 - q);
    forall m: int | dt <= m && m % delta == 0
      ensures dt + s <= m
    {
      if m < dt + s {
        CloseMultiples(delta, m, dt + s);
      }
    }
    if dt % delta == 0 {
      var p := dt / delta;
      assert 0 - dt == delta * (0 - p);
      MulMod(delta, 0 - p);
    }
  }

  /** Whether a rule applies to the block numbered `number` starting at
      `date`: its block number equals the block's, or it has both dates and
      the start lies in [dateFrom, dateUntil). */
  predicate Matches(rule: UnitPrice, date: Instant, number: nat)
  {
    rule.blockNumber == Some(number as int)
    || (rule.dateFrom.Some? && rule.dateUntil.Some?
        && rule.dateFrom.value <= date < rule.dateUntil.value)
  }

  /** `get_price_for_date_or_number`: a linear search over the rules in
      registration order that returns the first match's price, or 0. */
  function PriceFor(rules: seq<UnitPrice>, date: Instant, number: nat): real
  {
    if rules == [] then 0.0
    else if Matches(rules[0], date, number) then rules[0].price
    else PriceFor(rules[1..], date, number)
  }

  /** The first rule that matches decides the price; with no match the
      price is 0. */
  lemma {:induction false} PriceForFirstMatch(rules: seq<UnitPrice>, date: Instant, number: nat)
    ensures forall k :: 0 <= k < |rules| && Matches(rules[k], date, number)
                     && (forall j :: 0 <= j < k ==> !Matches(rules[j], date, number))
                     ==> PriceFor(rules, date, number) == rules[k].price
    ensures (forall k :: 0 <= k < |rules| ==> !Matches(rules[k], date, number))
            ==> PriceFor(rules, date, number) == 0.0
  {
    if rules != [] {
      PriceForFirstMatch(rules[1..], date, number);
      forall k | 0 <= k < |rules| && Matches(rules[k], date, number)
                 && (forall j :: 0 <= j < k ==> !Matches(rules[j], date, number))
        ensures PriceFor(rules, date, number) == rules[k].price
      {
        if k > 0 {
          assert !Matches(rules[0], date, number);
          assert rules[1..][k - 1] == rules[k];
          forall j | 0 <= j < k - 1
            ensures !Matches(rules[1..][j], date, number)
          {
            assert rules[1..][j] == rules[j + 1];
          }
        }
      }
      if forall k :: 0 <= k < |rules| ==> !Matches(rules[k], date, number) {
        assert !Matches(rules[0], date, number);
        forall k | 0 <= k < |rules| - 1
          ensures !Matches(rules[1..][k], date, number)
        {
          assert rules[1..][k] == rules[k + 1];
        }
      }
    }
  }

  /** `int(60 / blocks_per_hour)` for a positive `blocks_per_hour`: the
      float quotient truncated, which for these operands is the integer
      quotient. */
  function MinutesPerBlock(blocksPerHour: nat): nat
    requires blocksPerHour > 0
  {
    60 / blocksPerHour
  }

  /** `period_to_blocks`: fails on a non-positive `blocksPerHour` or
      `hours` (the two asserts) and on more than 60 blocks per hour (the
      block width truncates to zero minutes and the ceiling divides by it);
      otherwise lays out `blocksPerHour * hours` blocks from the aligned
      start, each priced by the rules. The source's dictionary keyed by
      `str(number)` is the sequence indexed by `number`. */
  function PeriodToBlocks(blocksPerHour: int, hours: int, initialDate: Instant,
                          rules: seq<UnitPrice>): (r: Result<seq<TimeBlock>>)
    ensures r.Err? <==> blocksPerHour <= 0 || hours <= 0 || blocksPerHour > 60
    ensures blocksPerHour <= 0 || hours <= 0 ==> r == Err(AssertionFailed(""))
    ensures r.Ok? ==>
      var blocks := r.value;
      var width := MinutesPerBlock(blocksPerHour) * MicrosecondsPerMinute;
      && |blocks| == blocksPerHour * hours
      && blocks[0].dateFrom == CeilDt(initialDate, width)
      && (forall i :: 0 <= i < |blocks| ==>
            && blocks[i].number == i
            && blocks[i].dateUntil == blocks[i].dateFrom + width
            && blocks[i].price == PriceFor(rules, blocks[i].dateFrom, i))
      && (forall i :: 0 < i < |blocks| ==> blocks[i].dateFrom == blocks[i - 1].dateUntil)
  {
    if blocksPerHour <= 0 || hours <= 0 then Err(AssertionFailed(""))
    else if MinutesPerBlock(blocksPerHour) == 0 then Err(ZeroDivision)
    else
      var width := MinutesPerBlock(blocksPerHour) * MicrosecondsPerMinute;
      MulPositive(blocksPerHour, hours);
      Ok(Layout(blocksPerHour * hours, CeilDt(initialDate, width), width, rules))
  }

  /** `n` blocks of `width` from `start`, as `rrule(MINUTELY, interval,
      dtstart, count)` enumerates their start instants. */
  function Layout(n: nat, start: Instant, width: nat, rules: seq<UnitPrice>): (blocks: seq<TimeBlock>)
    ensures |blocks| == n
    ensures n > 0 ==> blocks[0].dateFrom == start
    ensures forall i :: 0 <= i < n ==>
              && blocks[i].number == i
              && blocks[i].dateUntil == blocks[i].dateFrom + width
              && blocks[i].price == PriceFor(rules, blocks[i].dateFrom, i)
    ensures forall i :: 0 < i < n ==> blocks[i].dateFrom == blocks[i - 1].dateUntil
  {
    var blocks := seq(n, i requires 0 <= i => BlockAt(start, width, rules, i));
    forall i | 0 < i < n
      ensures blocks[i].dateFrom == blocks[i - 1].dateUntil
    {
      Step(start, width, i);
    }
    blocks
  }

  /** Block `i`: it starts `i` widths after `start`. */
  function BlockAt(start: Instant, width: nat, rules: seq<UnitPrice>, i: nat): TimeBlock
  {
    var from := start + i * width;
    TimeBlock(i, from, from + width, PriceFor(rules, from, i))
  }

  lemma Step(start: Instant, width: nat, i: nat)
    requires i > 0
    ensures start + i * width == start + (i - 1) * width + width
  {
  }

  /** The block count of two positive factors is positive. */
  lemma MulPositive(a: int, b: int)
    requires a > 0 && b > 0
    ensures a * b > 0
  {
  }

  /** Contiguous blocks of one width start `i` widths after the first. */
  lemma {:induction false} BlockStart(blocks: seq<TimeBlock>, start: Instant, width: nat, i: nat)
    requires i < |blocks| && |blocks| > 0 && blocks[0].dateFrom == start
    requires forall j :: 0 <= j < |blocks| ==> blocks[j].dateUntil == blocks[j].dateFrom + width
    requires forall j :: 0 < j < |blocks| ==> blocks[j].dateFrom == blocks[j - 1].dateUntil
    ensures blocks[i].dateFrom == start + i * width
  {
    if i > 0 {
      BlockStart(blocks, start, width, i - 1);
    }
  }

  /** `60 % blocksPerHour == 0` decides whether the truncated widths add
      up to whole hours. */
  lemma WholeHours(blocksPerHour: nat, hours: nat)
    requires 0 < blocksPerHour <= 60 && hours > 0
    ensures blocksPerHour * hours * MinutesPerBlock(blocksPerHour) == hours * 60 <==> 60 % blocksPerHour == 0
  {
    var m := MinutesPerBlock(blocksPerHour);
    assert 60 == blocksPerHour * m + 60 % blocksPerHour;
    assert blocksPerHour * hours * m == hours * (blocksPerHour * m);
    if 60 % blocksPerHour != 0 {
      assert blocksPerHour * m < 60;
      MulStrict(hours, blocksPerHour * m, 60);
    }
  }

  lemma MulStrict(a: nat, b: nat, c: nat)
    requires a > 0 && b < c
    ensures a * b < a * c
  {
  }

  /** Contiguous blocks of one width span their count times that width. */
  lemma Span(blocks: seq<TimeBlock>, width: nat)
    requires |blocks| > 0
    requires forall j :: 0 <= j < |blocks| ==> blocks[j].dateUntil == blocks[j].dateFrom + width
    requires forall j :: 0 < j < |blocks| ==> blocks[j].dateFrom == blocks[j - 1].dateUntil
    ensures blocks[|blocks| - 1].dateUntil - blocks[0].dateFrom == |blocks| * width
  {
    var n := |blocks|;
    BlockStart(blocks, blocks[0].dateFrom, width, n - 1);
    assert (n - 1) * width + width == n * width;
  }

  /** The arithmetic of the horizon: `n` blocks of `m` minutes make
      `hours` hours exactly when the width divides the hour. */
  lemma HorizonMinutes(blocksPerHour: nat, hours: nat)
    requires 0 < blocksPerHour <= 60 && hours > 0
    ensures var m := MinutesPerBlock(blocksPerHour);
            && (blocksPerHour * hours) * (m * MicrosecondsPerMinute)
               == blocksPerHour * hours * m * MicrosecondsPerMinute
            && (blocksPerHour * hours * m * MicrosecondsPerMinute == hours * 60 * MicrosecondsPerMinute
                <==> 60 % blocksPerHour == 0)
  {
    var m := MinutesPerBlock(blocksPerHour);
    var n := blocksPerHour * hours;
    assert n * (m * MicrosecondsPerMinute) == n * m * MicrosecondsPerMinute;
    WholeHours(blocksPerHour, hours);
    Cancel(n * m, hours * 60, MicrosecondsPerMinute);
  }

  lemma Cancel(x: int, y: int, c: int)
    requires c > 0
    ensures x * c == y * c <==> x == y
  {
    if x < y {
      assert x * c < y * c;
    } else if y < x {
      assert y * c < x * c;
    }
  }

  /** The blocks end `blocksPerHour * hours` widths after the aligned start;
      that is `hours` hours exactly when `blocksPerHour` divides 60. */
  lemma HorizonLength(blocksPerHour: int, hours: int, initialDate: Instant, rules: seq<UnitPrice>)
    requires PeriodToBlocks(blocksPerHour, hours, initialDate, rules).Ok?
    ensures var blocks := PeriodToBlocks(blocksPerHour, hours, initialDate, rules).value;
            var end := blocks[|blocks| - 1].dateUntil - blocks[0].dateFrom;
            && end == blocksPerHour * hours * MinutesPerBlock(blocksPerHour) * MicrosecondsPerMinute
            && (end == hours * 60 * MicrosecondsPerMinute <==> 60 % blocksPerHour == 0)
  {
    var blocks := PeriodToBlocks(blocksPerHour, hours, initialDate, rules).value;
    Span(blocks, MinutesPerBlock(blocksPerHour) * MicrosecondsPerMinute);
    HorizonMinutes(blocksPerHour, hours);
  }
}
