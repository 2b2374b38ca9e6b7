/** The two settings: the number of portions (2..8, milk 25 per portion) and
    the number of days (0..50). Each is a uint8_t counter whose `++` and `--`
    are no-ops at the bounds, and whose constructor falls back to a default
    when given a value out of range. */
module Counters {
  import opened Avr

  const MaxPortions: int := 8
  const MinPortions: int := 2
  const StdPortions: int := 3
  const MilkPerPortion: int := 25

  const MaxDays: int := 50
  const MinDays: int := 0
  const StdDays: int := 10

  /** One use of a counter's `++` or `--`. */
  datatype Adjust = Up | Down

  /** Portion::checkCount takes a C++ int, so `count + 1` and `count - 1`
      reach it unwrapped. */
  function PortionInRange(num: int): (ok: bool)
    ensures ok <==> MinPortions <= num <= MaxPortions
  {
    !(num > MaxPortions || num < MinPortions)
  }

  /** Portion's `++`, on values. */
  function PortionIncremented(count: U8): (r: U8)
    ensures PortionInRange(count) ==> PortionInRange(r)
    ensures MinPortions <= count < MaxPortions ==> r == count + 1
    ensures count == MaxPortions ==> r == count
  {
    if PortionInRange(count + 1) then count + 1 else count
  }

  /** Portion's `--`, on values. */
  function PortionDecremented(count: U8): (r: U8)
    ensures PortionInRange(count) ==> PortionInRange(r)
    ensures MinPortions < count <= MaxPortions ==> r == count - 1
    ensures count == MinPortions ==> r == count
  {
    if PortionInRange(count - 1) then count - 1 else count
  }

  /** getMilk(): `count * 25` returned as uint16_t; no uint8_t count
      overflows it. */
  function PortionMilk(count: U8): (m: U16)
    ensures m == MilkPerPortion * count
    ensures PortionInRange(count) ==> MinPortions * MilkPerPortion <= m <= MaxPortions * MilkPerPortion
  {
    ToU16(count * MilkPerPortion)
  }

  function PortionAfter(count: U8, ops: seq<Adjust>): U8
    decreases |ops|
  {
    if ops == [] then count
    else
      var c := PortionAfter(count, ops[..|ops| - 1]);
      if ops[|ops| - 1] == Up then PortionIncremented(c) else PortionDecremented(c)
  }

  /** Whatever the user does, the portion count stays in 2..8. */
  lemma {:induction false} PortionStaysInRange(count: U8, ops: seq<Adjust>)
    requires PortionInRange(count)
    ensures PortionInRange(PortionAfter(count, ops))
  {
    if ops != [] {
      PortionStaysInRange(count, ops[..|ops| - 1]);
    }
  }

  /** Away from the bounds, `--` undoes `++` and `++` undoes `--`. */
  lemma PortionRoundTrip(count: U8)
    ensures MinPortions <= count < MaxPortions ==> PortionDecremented(PortionIncremented(count)) == count
    ensures MinPortions < count <= MaxPortions ==> PortionIncremented(PortionDecremented(count)) == count
  {
  }

  class Portion {
    var count: U8

    predicate Valid()
      reads this
    {
      PortionInRange(count)
    }

    constructor (num: U8)
      ensures Valid()
      ensures PortionInRange(num) ==> count == num
      ensures !PortionInRange(num) ==> count == StdPortions
    {
      if PortionInRange(num) {
        count := num;
      } else {
        count := StdPortions;
      }
    }

    method Increment()
      requires Valid()
      modifies this
      ensures Valid() && count == PortionIncremented(old(count))
    {
      if PortionInRange(count + 1) {
        count := count + 1;
      }
    }

    method Decrement()
      requires Valid()
      modifies this
      ensures Valid() && count == PortionDecremented(old(count))
    {
      if PortionInRange(count - 1) {
        count := count - 1;
      }
    }

    method GetCount() returns (c: U8)
      ensures c == count
    {
      c := count;
    }

    method GetMilk() returns (m: U16)
      requires Valid()
      ensures m == MilkPerPortion * count
      ensures MinPortions * MilkPerPortion <= m <= MaxPortions * MilkPerPortion
    {
      m := PortionMilk(count);
    }
  }

  /** DayCounter::checkCount takes a uint8_t, so `count + 1` and `count - 1`
      are first converted modulo 256: `0 - 1` becomes 255. The test against
      MIN_DAYS (0) never fails for a uint8_t. */
  function DaysInRange(num: U8): (ok: bool)
    ensures ok <==> num <= MaxDays
  {
    !(num < MinDays || num > MaxDays)
  }

  /** DayCounter's `++`, on values. */
  function DaysIncremented(count: U8): (r: U8)
    ensures DaysInRange(count) ==> DaysInRange(r)
    ensures count < MaxDays ==> r == count + 1
    ensures count == MaxDays ==> r == count
  {
    if DaysInRange(ToU8(count + 1)) then ToU8(count + 1) else count
  }

  /** DayCounter's `--`, on values. */
  function DaysDecremented(count: U8): (r: U8)
    ensures DaysInRange(count) ==> DaysInRange(r)
    ensures 0 < count <= MaxDays ==> r == count - 1
    ensures count == 0 ==> r == count
  {
    if DaysInRange(ToU8(count - 1)) then ToU8(count - 1) else count
  }

  /** At 0, `count - 1` is 255 as a uint8_t and the range check refuses it. */
  lemma DaysDecrementAtZero()
    ensures ToU8(0 - 1) == 255 && !DaysInRange(255)
    ensures DaysDecremented(0) == 0
  {
  }

  function DaysAfter(count: U8, ops: seq<Adjust>): U8
    decreases |ops|
  {
    if ops == [] then count
    else
      var c := DaysAfter(count, ops[..|ops| - 1]);
      if ops[|ops| - 1] == Up then DaysIncremented(c) else DaysDecremented(c)
  }

  /** Whatever the user does, the day count stays in 0..50. */
  lemma {:induction false} DaysStayInRange(count: U8, ops: seq<Adjust>)
    requires DaysInRange(count)
    ensures DaysInRange(DaysAfter(count, ops))
  {
    if ops != [] {
      DaysStayInRange(count, ops[..|ops| - 1]);
    }
  }

  /** Away from the bounds, `--` undoes `++` and `++` undoes `--`. */
  lemma DaysRoundTrip(count: U8)
    ensures count < MaxDays ==> DaysDecremented(DaysIncremented(count)) == count
    ensures 0 < count <= MaxDays ==> DaysIncremented(DaysDecremented(count)) == count
  {
  }

  class DayCounter {
    var count: U8

    predicate Valid()
      reads this
    {
      DaysInRange(count)
    }

    constructor (d: U8)
      ensures Valid()
      ensures DaysInRange(d) ==> count == d
      ensures !DaysInRange(d) ==> count == StdDays
    {
      if DaysInRange(d) {
        count := d;
      } else {
        count := StdDays;
      }
    }

    method Increment()
      requires Valid()
      modifies this
      ensures Valid() && count == DaysIncremented(old(count))
    {
      if DaysInRange(ToU8(count + 1)) {
        count := ToU8(count + 1);
      }
    }

    method Decrement()
      requires Valid()
      modifies this
      ensures Valid() && count == DaysDecremented(old(count))
    {
      if DaysInRange(ToU8(count - 1)) {
        count := ToU8(count - 1);
      }
    }

    method GetCount() returns (c: U8)
      ensures c == count
    {
      c := count;
    }
  }
}
