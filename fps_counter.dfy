/** The frame-rate counter: frames are tallied in a uint8_t, and once more
    than a second has passed the tally becomes the reported count. */
module Fps {
  import opened Avr

  const Second: int := 1000

  /** The fields of an FPSCounter, as a value. */
  datatype FpsFields = FpsFields(counter: U8, timer: U32, result: U8)

  predicate SecondPassed(f: FpsFields, now: U32) {
    Elapsed(now, f.timer) > Second
  }

  /** One call of addFrame() at time `now`; the flag is its return value. */
  function Step(f: FpsFields, now: U32): (FpsFields, bool) {
    var counter := Inc8(f.counter);
    if SecondPassed(f, now) then (FpsFields(0, now, counter), true)
    else (f.(counter := counter), false)
  }

  /** The fields after one addFrame() per time in `times`, in order. */
  function Run(f: FpsFields, times: seq<U32>): FpsFields
    decreases |times|
  {
    if times == [] then f
    else Step(Run(f, times[..|times| - 1]), times[|times| - 1]).0
  }

  /** Frames within the current second are counted modulo 256, and the
      timer and the reported count stay as they were. */
  lemma {:induction false} FramesAccumulate(f: FpsFields, times: seq<U32>)
    requires forall i :: 0 <= i < |times| ==> !SecondPassed(f, times[i])
    ensures Run(f, times) == FpsFields(ToU8(f.counter + |times|), f.timer, f.result)
  {
    if times != [] {
      FramesAccumulate(f, times[..|times| - 1]);
      var before := Run(f, times[..|times| - 1]);
      Inc8Wraps(f.counter + |times| - 1, before.counter);
    }
  }

  /** The frame that closes a second reports every frame of that second,
      itself included, modulo 256, and starts a new tally. */
  lemma ClosingFrameReports(f: FpsFields, times: seq<U32>, now: U32)
    requires forall i :: 0 <= i < |times| ==> !SecondPassed(f, times[i])
    requires SecondPassed(f, now)
    ensures Step(Run(f, times), now) == (FpsFields(0, now, ToU8(f.counter + |times| + 1)), true)
  {
    calc {
      Step(Run(f, times), now);
      { FramesAccumulate(f, times); }
      Step(FpsFields(ToU8(f.counter + |times|), f.timer, f.result), now);
      { StepCloses(f, |times|, now); }
      (FpsFields(0, now, ToU8(f.counter + |times| + 1)), true);
    }
  }

  lemma StepCloses(f: FpsFields, n: nat, now: U32)
    requires SecondPassed(f, now)
    ensures Step(FpsFields(ToU8(f.counter + n), f.timer, f.result), now) ==
            (FpsFields(0, now, ToU8(f.counter + n + 1)), true)
  {
    Inc8Wraps(f.counter + n, ToU8(f.counter + n));
  }

  class FPSCounter {
    var counter: U8
    var timer: U32
    var result: U8

    function Fields(): FpsFields
      reads this
    {
      FpsFields(counter, timer, result)
    }

    /** `now` is millis(); the firmware does not initialise the tally, so
        it starts arbitrary. */
    constructor (now: U32)
      ensures timer == now && result == 0
    {
      counter := *;
      timer := now;
      result := 0;
    }

    method AddFrame(now: U32) returns (reported: bool)
      modifies this
      ensures (Fields(), reported) == Step(old(Fields()), now)
      ensures reported <==> Elapsed(now, old(timer)) > Second
      ensures reported ==> counter == 0 && timer == now && result == Inc8(old(counter))
      ensures !reported ==> counter == Inc8(old(counter)) && timer == old(timer) && result == old(result)
    {
      counter := Inc8(counter);
      var currentTime := now;
      if Elapsed(currentTime, timer) > Second {
        timer := currentTime;
        result := counter;
        counter := 0;
        return true;
      }
      return false;
    }

    method Count() returns (r: U8)
      ensures r == result
    {
      r := result;
    }
  }
}
