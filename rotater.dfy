/** The rotary encoder: two quadrature pins decoded to a code 0..3, and a
    direction decided by comparing successive codes modulo 4, at most once
    every 100 ms. */
module Rotaters {
  import opened Avr

  const MinRotationDelay: int := 100

  datatype RotaterState = NotRotated | RotatedRight | RotatedLeft

  type Code = c: int | 0 <= c < 4

  /** getCode(): `((A << 1) + B) ^ A`, a Gray-to-binary decode of the pins. */
  function GetCode(a: Level, b: Level): (c: Code)
    ensures a == Low && b == Low ==> c == 0
    ensures a == Low && b == High ==> c == 1
    ensures a == High && b == High ==> c == 2
    ensures a == High && b == Low ==> c == 3
  {
    var bitA := Bit(a);
    var num := ToU8(bitA * 2 + Bit(b));
    var code := ((num as bv8) ^ (bitA as bv8)) as int;
    assert code < 4 by {
      if a == Low {
        if b == Low { assert code == 0; } else { assert code == 1; }
      } else {
        if b == Low { assert code == 3; } else { assert code == 2; }
      }
    }
    code
  }

  /** Distinct pin pairs give distinct codes. */
  lemma GetCodeInjective(a: Level, b: Level, a': Level, b': Level)
    requires GetCode(a, b) == GetCode(a', b')
    ensures a == a' && b == b'
  {
  }

  /** The pin pairs of the four detent positions, in clockwise order. */
  function Quadrature(i: Code): (Level, Level) {
    if i == 0 then (Low, Low)
    else if i == 1 then (Low, High)
    else if i == 2 then (High, High)
    else (High, Low)
  }

  /** Adjacent positions differ in exactly one pin and their codes differ by
      one modulo 4, so direction follows from the code alone. */
  lemma QuadratureIsGray(i: Code)
    ensures GetCode(Quadrature(i).0, Quadrature(i).1) == i
    ensures var j := (i + 1) % 4;
      (Quadrature(i).0 == Quadrature(j).0) != (Quadrature(i).1 == Quadrature(j).1)
  {
    if i == 0 {
      assert Quadrature(1) == (Low, High);
    } else if i == 1 {
      assert Quadrature(2) == (High, High);
    } else if i == 2 {
      assert Quadrature(3) == (High, Low);
    } else {
      assert Quadrature(0) == (Low, Low);
    }
  }

  /** C++ `x % 4` on int: the remainder of the division truncated toward
      zero, which takes the sign of the dividend. */
  function CRem4(x: int): (r: int)
    ensures -4 < r < 4
    ensures (x - r) % 4 == 0
    ensures x >= 0 ==> r >= 0
    ensures x < 0 ==> r <= 0
  {
    if x >= 0 then x % 4 else -((-x) % 4)
  }

  /** `currentCode == ((previousCode + 1) % 4)` */
  predicate IsRightStep(prev: Code, cur: Code) {
    cur == CRem4(prev + 1)
  }

  /** `currentCode == ((previousCode - 1) % 4)`, in signed C++ arithmetic. */
  predicate IsLeftStep(prev: Code, cur: Code) {
    cur == CRem4(prev - 1)
  }

  /** A right step is a move to the next code, wrapping 3 to 0. */
  lemma RightStepExactly(prev: Code, cur: Code)
    ensures IsRightStep(prev, cur) <==> cur == (prev + 1) % 4
  {
  }

  /** A left step is a move to the previous code, but never from 0 to 3:
      `(0 - 1) % 4` is -1 in C++. */
  lemma LeftStepExactly(prev: Code, cur: Code)
    ensures IsLeftStep(prev, cur) <==> prev >= 1 && cur == prev - 1
  {
    if prev == 0 {
      assert CRem4(prev - 1) == -1;
    }
  }

  /** The fields of a Rotater, as a value. */
  datatype RotaterFields = RotaterFields(state: RotaterState, previousTime: U32, previousCode: Code)

  /** What one call of check() observes: millis() and both encoder pins. */
  datatype Sample = Sample(now: U32, a: Level, b: Level)

  predicate GateOpen(f: RotaterFields, now: U32) {
    Elapsed(now, f.previousTime) > MinRotationDelay
  }

  /** The direction decided from a pair of codes; anything else keeps `st`. */
  function Direction(prev: Code, cur: Code, st: RotaterState): (r: RotaterState)
    ensures r == RotatedRight <==> IsRightStep(prev, cur) || (st == RotatedRight && !IsLeftStep(prev, cur))
    ensures r == RotatedLeft <==> (IsLeftStep(prev, cur) && !IsRightStep(prev, cur)) || (st == RotatedLeft && !IsRightStep(prev, cur))
    ensures !IsRightStep(prev, cur) && !IsLeftStep(prev, cur) ==> r == st
  {
    if cur == CRem4(prev + 1) then RotatedRight
    else if cur == CRem4(prev - 1) then RotatedLeft
    else st
  }

  /** A right step and a left step never coincide. */
  lemma StepsAreExclusive(prev: Code, cur: Code)
    ensures !(IsRightStep(prev, cur) && IsLeftStep(prev, cur))
  {
    RightStepExactly(prev, cur);
    LeftStepExactly(prev, cur);
  }

  /** One call of check(), on values; the flag is check()'s return value. */
  function Step(f: RotaterFields, s: Sample): (RotaterFields, bool) {
    var cur := GetCode(s.a, s.b);
    if GateOpen(f, s.now) then
      (RotaterFields(Direction(f.previousCode, cur, f.state), s.now, cur), true)
    else
      (f.(previousCode := cur), false)
  }

  /** The fields after check() has been called once per sample, in order. */
  function Run(f: RotaterFields, samples: seq<Sample>): RotaterFields
    decreases |samples|
  {
    if samples == [] then f
    else Step(Run(f, samples[..|samples| - 1]), samples[|samples| - 1]).0
  }

  /** previousCode is always the code of the latest sample, gated or not. */
  lemma LatestCodeIsKept(f: RotaterFields, samples: seq<Sample>)
    requires samples != []
    ensures var last := samples[|samples| - 1];
      Run(f, samples).previousCode == GetCode(last.a, last.b)
  {
  }

  /** A run of gated samples changes only previousCode. */
  lemma {:induction false} GatedSamplesKeepStateAndTime(f: RotaterFields, samples: seq<Sample>)
    requires forall i :: 0 <= i < |samples| ==> !GateOpen(f, samples[i].now)
    ensures Run(f, samples).state == f.state
    ensures Run(f, samples).previousTime == f.previousTime
  {
    if samples != [] {
      GatedSamplesKeepStateAndTime(f, samples[..|samples| - 1]);
    }
  }

  /** Codes advancing by one, each sample more than 100 ms after the one
      before, are reported ROTATED_RIGHT at every step. */
  lemma {:induction false} SteadyRightTurn(f: RotaterFields, samples: seq<Sample>)
    requires samples != []
    requires GetCode(samples[0].a, samples[0].b) == (f.previousCode + 1) % 4
    requires GateOpen(f, samples[0].now)
    requires forall i :: 0 < i < |samples| ==>
      GetCode(samples[i].a, samples[i].b) == (GetCode(samples[i - 1].a, samples[i - 1].b) + 1) % 4 &&
      Elapsed(samples[i].now, samples[i - 1].now) > MinRotationDelay
    ensures var last := samples[|samples| - 1];
      Run(f, samples) == RotaterFields(RotatedRight, last.now, GetCode(last.a, last.b))
  {
    var prefix := samples[..|samples| - 1];
    if prefix != [] {
      SteadyRightTurn(f, prefix);
    }
  }

  /** A detent step seen inside the 100 ms gate is never reported: the next
      accepted sample is compared with the step's own code. */
  lemma GatedStepIsLost(f: RotaterFields, early: Sample, late: Sample)
    requires !GateOpen(f, early.now)
    requires GateOpen(f, late.now)
    requires GetCode(late.a, late.b) == GetCode(early.a, early.b)
    ensures Run(f, [early, late]).state == f.state
  {
    var c := GetCode(early.a, early.b);
    assert [early, late][..1] == [early];
    assert [early][..0] == [];
    assert Run(f, [early]) == f.(previousCode := c);
    RightStepExactly(c, c);
    LeftStepExactly(c, c);
  }

  class Rotater {
    var state: RotaterState
    var previousTime: U32
    var previousCode: Code

    function Fields(): RotaterFields
      reads this
    {
      RotaterFields(state, previousTime, previousCode)
    }

    /** getCode() runs before the pins are assigned, so the initial code is
        decoded from whatever the unassigned pins read. */
    constructor (strayA: Level, strayB: Level)
      ensures state == NotRotated && previousTime == 0
      ensures previousCode == GetCode(strayA, strayB)
    {
      state := NotRotated;
      previousTime := 0;
      previousCode := GetCode(strayA, strayB);
    }

    /** One poll: `now` is millis(), `a` and `b` are the two encoder pins. */
    method Check(now: U32, a: Level, b: Level) returns (sampled: bool)
      modifies this
      ensures (Fields(), sampled) == Step(old(Fields()), Sample(now, a, b))
      ensures sampled <==> Elapsed(now, old(previousTime)) > MinRotationDelay
      ensures previousCode == GetCode(a, b)
      ensures sampled ==>
        previousTime == now && state == Direction(old(previousCode), previousCode, old(state))
      ensures !sampled ==> previousTime == old(previousTime) && state == old(state)
    {
      var currentCode := GetCode(a, b);
      var currentTime := now;
      if Elapsed(currentTime, previousTime) > MinRotationDelay {
        if currentCode == CRem4(previousCode + 1) {
          state := RotatedRight;
        } else if currentCode == CRem4(previousCode - 1) {
          state := RotatedLeft;
        }
        previousTime := currentTime;
        previousCode := currentCode;
        sampled := true;
      } else {
        previousCode := currentCode;
        sampled := false;
      }
    }

    /** The caller has consumed the reported rotation. */
    method Checked()
      modifies this
      ensures state == NotRotated
      ensures previousTime == old(previousTime) && previousCode == old(previousCode)
    {
      state := NotRotated;
    }

    method GetState() returns (s: RotaterState)
      ensures s == state
    {
      s := state;
    }
  }

  /** One full clockwise turn, a detent every 200 ms, with checked() after
      each read: each accepted step is reported ROTATED_RIGHT afresh. */
  method RightTurnScenario() returns (states: seq<RotaterState>)
    ensures states == [RotatedRight, RotatedRight, RotatedRight, RotatedRight]
  {
    var r := new Rotater(Low, Low);
    var s;
    var ok := r.Check(200, Low, High);
    s := r.GetState();
    r.Checked();
    states := [s];
    ok := r.Check(400, High, High);
    s := r.GetState();
    r.Checked();
    states := states + [s];
    ok := r.Check(600, High, Low);
    s := r.GetState();
    r.Checked();
    states := states + [s];
    ok := r.Check(800, Low, Low);
    s := r.GetState();
    r.Checked();
    states := states + [s];
  }

  /** One full counter-clockwise turn: the steps 3 to 2, 2 to 1 and 1 to 0 are
      reported ROTATED_LEFT, the step from 0 back to 3 is not. */
  method LeftTurnScenario() returns (states: seq<RotaterState>)
    ensures states == [RotatedLeft, RotatedLeft, RotatedLeft, NotRotated]
  {
    var r := new Rotater(High, Low);
    var s;
    var ok := r.Check(200, High, High);
    s := r.GetState();
    states := [s];
    r.Checked();
    ok := r.Check(400, Low, High);
    s := r.GetState();
    states := states + [s];
    r.Checked();
    ok := r.Check(600, Low, Low);
    s := r.GetState();
    states := states + [s];
    r.Checked();
    ok := r.Check(800, High, Low);
    s := r.GetState();
    states := states + [s];
  }

  /** Two code changes 50 ms apart: the second is not compared, yet
      previousCode follows it, and the next accepted sample is compared
      with it. */
  method RateGateScenario() returns (first: bool, second: bool, gated: RotaterState, code: Code, later: RotaterState)
    ensures first && !second && gated == NotRotated && code == 2 && later == RotatedRight
  {
    var r := new Rotater(Low, Low);
    first := r.Check(200, Low, High);
    r.Checked();
    second := r.Check(250, High, High);
    gated := r.GetState();
    code := r.previousCode;
    var third := r.Check(400, High, Low);
    later := r.GetState();
  }

  /** A jump of two codes is neither direction and leaves the state alone. */
  method AmbiguousCodeScenario() returns (state: RotaterState)
    ensures state == NotRotated
  {
    var r := new Rotater(Low, Low);
    var ok := r.Check(200, High, High);
    state := r.GetState();
  }
}
