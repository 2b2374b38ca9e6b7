/** The push-button: a refractory gate after each completed press, LOW pin
    means pressed, and on release the press is classified short or long. */
module Buttons {
  import opened Avr

  const LongPressDelay: int := 1000
  const NextPressDelay: int := 300
  /** Declared by the firmware, but no transition uses it. */
  const SuperLongPressDelay: int := 10000

  datatype ButtonState = NotPressed | Pressed | ShortPress | LongPress | SuperLongPress

  /** The fields of a Button, as a value. */
  datatype ButtonFields = ButtonFields(state: ButtonState, pressStart: U32, prevPress: U32)

  /** What one call of check() observes: millis() and the button pin. */
  datatype Sample = Sample(now: U32, level: Level)

  predicate InRefractory(f: ButtonFields, now: U32) {
    Elapsed(now, f.prevPress) < NextPressDelay
  }

  /** The classification of a release after `pressTime` milliseconds. */
  function Classify(pressTime: U32): (st: ButtonState)
    ensures st == LongPress <==> pressTime > LongPressDelay
    ensures st == ShortPress <==> pressTime <= LongPressDelay
  {
    if pressTime > LongPressDelay then LongPress else ShortPress
  }

  /** One call of check(), on values. */
  function Step(f: ButtonFields, s: Sample): ButtonFields {
    if InRefractory(f, s.now) then
      f.(state := NotPressed)
    else if s.level == Low then
      f.(pressStart := s.now, state := Pressed)
    else if f.state == Pressed then
      f.(prevPress := s.now, state := Classify(Elapsed(s.now, f.pressStart)))
    else
      f
  }

  /** The fields after check() has been called once per sample, in order. */
  function Run(f: ButtonFields, samples: seq<Sample>): ButtonFields
    decreases |samples|
  {
    if samples == [] then f
    else Step(Run(f, samples[..|samples| - 1]), samples[|samples| - 1])
  }

  /** prevPress moves exactly on a release: pin HIGH after PRESSED, outside
      the refractory window. */
  lemma PrevPressMovesOnlyOnRelease(f: ButtonFields, s: Sample)
    ensures Step(f, s).prevPress != f.prevPress <==>
      (!InRefractory(f, s.now) && s.level == High && f.state == Pressed)
    ensures Step(f, s).prevPress != f.prevPress ==>
      Step(f, s).prevPress == s.now &&
      (Step(f, s).state == ShortPress || Step(f, s).state == LongPress)
  {
  }

  /** prevPress starts at 0, so nothing is reported in the first 300 ms after
      start-up, whatever the pin does. */
  lemma {:induction false} StartupSuppressed(pressStart: U32, samples: seq<Sample>)
    requires forall i :: 0 <= i < |samples| ==> samples[i].now < NextPressDelay
    ensures Run(ButtonFields(NotPressed, pressStart, 0), samples) ==
            ButtonFields(NotPressed, pressStart, 0)
  {
    if samples != [] {
      StartupSuppressed(pressStart, samples[..|samples| - 1]);
    }
  }

  /** With the pin never LOW, an idle button stays idle. */
  lemma {:induction false} IdleStaysNotPressed(f: ButtonFields, samples: seq<Sample>)
    requires f.state == NotPressed
    requires forall i :: 0 <= i < |samples| ==> samples[i].level == High
    ensures Run(f, samples) == f
  {
    if samples != [] {
      IdleStaysNotPressed(f, samples[..|samples| - 1]);
    }
  }

  /** No sequence of samples ever produces SUPER_LONG_PRESS. */
  lemma {:induction false} NeverSuperLong(f: ButtonFields, samples: seq<Sample>)
    requires f.state != SuperLongPress
    ensures Run(f, samples).state != SuperLongPress
  {
    if samples != [] {
      NeverSuperLong(f, samples[..|samples| - 1]);
    }
  }

  /** While the pin is held LOW outside the refractory window, the button is
      PRESSED and pressStart is the time of the LAST sample, not of the first:
      pressStart slides forward on every tick. */
  lemma {:induction false} HeldTracksLastSample(f: ButtonFields, samples: seq<Sample>)
    requires samples != []
    requires forall i :: 0 <= i < |samples| ==>
      samples[i].level == Low && !InRefractory(f, samples[i].now)
    ensures Run(f, samples) ==
            ButtonFields(Pressed, samples[|samples| - 1].now, f.prevPress)
  {
    var prefix := samples[..|samples| - 1];
    if prefix != [] {
      HeldTracksLastSample(f, prefix);
    }
  }

  /** A hold followed by a release is classified by the gap between the
      release and the last LOW sample alone, however long the pin was held. */
  lemma ReleaseMeasuresLastGap(f: ButtonFields, held: seq<Sample>, release: Sample)
    requires held != []
    requires forall i :: 0 <= i < |held| ==>
      held[i].level == Low && !InRefractory(f, held[i].now)
    requires release.level == High && !InRefractory(f, release.now)
    ensures Run(f, held + [release]) ==
            ButtonFields(Classify(Elapsed(release.now, held[|held| - 1].now)),
                         held[|held| - 1].now, release.now)
  {
    HeldTracksLastSample(f, held);
    assert (held + [release])[..|held + [release]| - 1] == held;
  }

  /** A release within a second of the last LOW poll is a short press. */
  lemma QuickReleaseIsShort(f: ButtonFields, held: seq<Sample>, release: Sample)
    requires held != []
    requires forall i :: 0 <= i < |held| ==>
      held[i].level == Low && !InRefractory(f, held[i].now)
    requires release.level == High && !InRefractory(f, release.now)
    requires Elapsed(release.now, held[|held| - 1].now) <= LongPressDelay
    ensures Run(f, held + [release]).state == ShortPress
  {
    ReleaseMeasuresLastGap(f, held, release);
  }

  /** The time of the latest poll: `start` before the first sample. */
  function LastPoll(start: U32, samples: seq<Sample>): U32 {
    if samples == [] then start else samples[|samples| - 1].now
  }

  /** A button polled at least once a second never reports LONG_PRESS: a
      PRESSED button's pressStart is always the latest poll, so the press
      time measured at release is one polling gap. `start` is the time of
      the poll before the first sample. */
  lemma {:induction false} FastPollingNeverLong(f: ButtonFields, start: U32, samples: seq<Sample>)
    requires f.state != LongPress
    requires f.state == Pressed ==> f.pressStart == start
    requires samples != [] ==> Elapsed(samples[0].now, start) <= LongPressDelay
    requires forall i :: 0 < i < |samples| ==>
      Elapsed(samples[i].now, samples[i - 1].now) <= LongPressDelay
    ensures Run(f, samples).state != LongPress
    ensures Run(f, samples).state == Pressed ==> Run(f, samples).pressStart == LastPoll(start, samples)
  {
    if samples != [] {
      var prefix := samples[..|samples| - 1];
      FastPollingNeverLong(f, start, prefix);
    }
  }

  class Button {
    var state: ButtonState
    var pressStart: U32
    var prevPress: U32

    function Fields(): ButtonFields
      reads this
    {
      ButtonFields(state, pressStart, prevPress)
    }

    /** The pin number and pinMode() are left to the hardware; pressStart is
        not initialised by the firmware and starts arbitrary. */
    constructor ()
      ensures state == NotPressed && prevPress == 0
    {
      prevPress := 0;
      pressStart := *;
      state := NotPressed;
    }

    /** One poll: `now` is millis(), `level` is digitalRead(pin). */
    method Check(now: U32, level: Level)
      modifies this
      ensures Fields() == Step(old(Fields()), Sample(now, level))
      ensures Elapsed(now, old(prevPress)) < NextPressDelay ==>
        state == NotPressed && pressStart == old(pressStart) && prevPress == old(prevPress)
      ensures Elapsed(now, old(prevPress)) >= NextPressDelay && level == Low ==>
        state == Pressed && pressStart == now && prevPress == old(prevPress)
      ensures Elapsed(now, old(prevPress)) >= NextPressDelay && level == High && old(state) == Pressed ==>
        prevPress == now && pressStart == old(pressStart) &&
        (state == LongPress <==> Elapsed(now, old(pressStart)) > LongPressDelay) &&
        (state == ShortPress <==> Elapsed(now, old(pressStart)) <= LongPressDelay)
      ensures Elapsed(now, old(prevPress)) >= NextPressDelay && level == High && old(state) != Pressed ==>
        Fields() == old(Fields())
    {
      var curTime := now;
      if Elapsed(curTime, prevPress) < NextPressDelay {
        state := NotPressed;
        return;
      }
      if level == Low {
        pressStart := curTime;
        state := Pressed;
      } else if state == Pressed {
        prevPress := curTime;
        var pressTime := Elapsed(curTime, pressStart);
        if pressTime > LongPressDelay {
          state := LongPress;
        } else {
          state := ShortPress;
        }
      }
    }

    /** The caller has consumed the reported press. */
    method Checked()
      modifies this
      ensures state == NotPressed && pressStart == old(pressStart) && prevPress == old(prevPress)
    {
      state := NotPressed;
    }

    method GetState() returns (s: ButtonState)
      ensures s == state
    {
      s := state;
    }
  }

  /** A 200 ms press after start-up: SHORT_PRESS on release, NOT_PRESSED once
      acknowledged. */
  method ShortPressScenario() returns (onRelease: ButtonState, afterChecked: ButtonState)
    ensures onRelease == ShortPress && afterChecked == NotPressed
  {
    var b := new Button();
    b.Check(400, Low);
    b.Check(600, High);
    onRelease := b.GetState();
    b.Checked();
    afterChecked := b.GetState();
  }

  /** The long-press boundary is strict: a gap of 1001 ms since the LOW
      sample is long, 1000 ms and 999 ms are short. */
  method LongPressBoundaryScenario() returns (at1001: ButtonState, at1000: ButtonState, at999: ButtonState)
    ensures at1001 == LongPress && at1000 == ShortPress && at999 == ShortPress
  {
    var b := new Button();
    b.Check(1000, Low);
    b.Check(2001, High);
    at1001 := b.GetState();
    b.Check(3000, Low);
    b.Check(4000, High);
    at1000 := b.GetState();
    b.Check(5000, Low);
    b.Check(5999, High);
    at999 := b.GetState();
  }

  /** A 1001 ms hold polled once more half-way is reported SHORT_PRESS: only
      the last 501 ms are measured. */
  method SlidingPressStartScenario() returns (onRelease: ButtonState)
    ensures onRelease == ShortPress
  {
    var b := new Button();
    b.Check(1000, Low);
    b.Check(1500, Low);
    b.Check(2001, High);
    onRelease := b.GetState();
  }

  /** After a release at T, a LOW pin within 300 ms is ignored. */
  method RefractoryScenario() returns (suppressed: ButtonState, rearmed: ButtonState)
    ensures suppressed == NotPressed && rearmed == Pressed
  {
    var b := new Button();
    b.Check(1000, Low);
    b.Check(1100, High);
    b.Check(1399, Low);
    suppressed := b.GetState();
    b.Check(1400, Low);
    rearmed := b.GetState();
  }
}
