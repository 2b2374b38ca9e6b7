# Shaker input layer, modelled in Dafny

This project models `ShakerUtils.h`, the utility classes of a milk/protein shaker's Arduino firmware. The classes modelled are:

- **Button** (`button.dfy`, module `Buttons`): debounces a push-button and classifies each press. A LOW pin means pressed. After every completed press there is a 300 ms refractory window in which nothing is reported. On release the press is SHORT_PRESS, or LONG_PRESS when the measured time is strictly over 1000 ms.
- **Rotater** (`rotater.dfy`, module `Rotaters`): decodes a quadrature rotary encoder. The two pins become a code 0..3 through `((A << 1) + B) ^ A`. Successive codes are compared modulo 4, at most once every 100 ms.
- **Portion** and **DayCounter** (`counters.dfy`, module `Counters`): bounded `uint8_t` settings, 2..8 portions (25 units of milk each) and 0..50 days.
- **FPSCounter** (`fps_counter.dfy`, module `Fps`): tallies frames in a `uint8_t` counter and reports the tally once more than a second has passed.

`avr.dfy` (module `Avr`) holds the machine words of the AVR target. `unsigned long` is 32 bits there, so each time difference is `Elapsed(now, since)`, which is `now - since` modulo 2^32. Conversions to `uint8_t` and `uint16_t` are written out as `ToU8` and `ToU16`. A pin level is `Level = Low | High`.

Each class is a Dafny `class` with the source's fields. Its `Check`/`AddFrame`/`++`/`--` methods update those fields in place. Time and pin levels are passed in as parameters where the firmware calls `millis()` and `digitalRead()`. Button, Rotater and FPSCounter each have the same step on values beside the class: a `...Fields` datatype, a `Step` function, and `Run`, which applies `Step` once per sample. Their `Check` and `AddFrame` methods ensure `Fields() == Step(old(Fields()), ...)`, and their `Checked` methods state the new state directly. Lemmas about `Run` state what holds over a whole sequence of polls. The counters' `++` and `--` methods are specified by the counter functions `PortionIncremented`/`PortionDecremented` and `DaysIncremented`/`DaysDecremented`. `PortionAfter` and `DaysAfter` apply those once per adjustment.

Two quirks of the source are modelled as written, and their consequences are proved:

- `Button::check` assigns `pressStart = now` on every tick the pin is LOW. The press time measured at release is therefore only the gap since the last LOW sample (`HeldTracksLastSample`, `ReleaseMeasuresLastGap`). A release within a second of the last LOW poll is a short press (`QuickReleaseIsShort`, `SlidingPressStartScenario`). So a button polled at least once a second never reports LONG_PRESS over any run of polls (`FastPollingNeverLong`).
- `Rotater::check` computes `(previousCode - 1) % 4` in signed C++ arithmetic, which is -1 when `previousCode` is 0. A Euclidean `mod 4` would make 0 → 3 a left step. C++'s truncating `%` gives `(0 - 1) % 4 == -1`, so it never is (`LeftStepExactly`, `LeftTurnScenario`).

## Model

| member | source | states |
|---|---|---|
| `Avr.Bit` | ShakerUtils.h:115-116 | a pin level read as an int is 0 or 1, and 1 exactly for HIGH |
| `Avr.ToU8` | ShakerUtils.h:301 | conversion to uint8_t agrees with the value modulo 256; it is the identity on 0..255 and adds 256 to values in -256..-1 (so -1 becomes 255) |
| `Avr.Inc8` | ShakerUtils.h:24 | `++` on a uint8_t tally is the conversion of the incremented value to uint8_t, so 255 wraps to 0 |
| `Avr.Inc8Wraps` | ShakerUtils.h:24 | incrementing a uint8_t that holds some int modulo 256 gives the incremented int modulo 256 |
| `Avr.ToU16` | ShakerUtils.h:209-211 | conversion to uint16_t agrees with the value modulo 65536 and is the identity on 0..65535 |
| `Avr.Elapsed` | ShakerUtils.h:71 | unsigned-long `now - since` is the duration that, added to `since` modulo 2^32, gives `now`, that is `now - since` taken modulo 2^32, correct across one wrap-around of the clock |
| `Avr.ElapsedIsUnique` | ShakerUtils.h:71 | no other 32-bit duration takes `since` to `now`, so `Elapsed` is the inverse of wrapping addition |
| `Buttons.Classify` | ShakerUtils.h:81-86 | a release is LONG_PRESS exactly when the press time is strictly over 1000 ms and SHORT_PRESS exactly when it is at most 1000 ms |
| `Buttons.Button.constructor` | ShakerUtils.h:60-66 | a new button is NOT_PRESSED with prevPress 0; pressStart is left arbitrary, as the firmware leaves it uninitialised |
| `Buttons.Button.Check` | ShakerUtils.h:68-88 | inside the 300 ms refractory window: state NOT_PRESSED and nothing else changes, whatever the pin. Outside it with the pin LOW: state PRESSED, pressStart = now, prevPress kept. Pin HIGH after PRESSED: prevPress = now, pressStart kept, LONG_PRESS iff `now - pressStart > 1000`, else SHORT_PRESS. Pin HIGH in any other state: nothing changes. The whole new state equals `Step` of the old one |
| `Buttons.Button.Checked` | ShakerUtils.h:90-92 | the state becomes NOT_PRESSED and the two timestamps are kept |
| `Buttons.Button.GetState` | ShakerUtils.h:94-96 | returns the current state and changes nothing |
| `Buttons.PrevPressMovesOnlyOnRelease` | ShakerUtils.h:79-80 | prevPress changes exactly when a PRESSED button reads HIGH outside the refractory window; it then becomes `now` and the state becomes SHORT_PRESS or LONG_PRESS |
| `Buttons.StartupSuppressed` | ShakerUtils.h:63-74 | because prevPress starts at 0, every poll in the first 300 ms after start-up leaves a new button exactly as it was, whatever the pin |
| `Buttons.IdleStaysNotPressed` | ShakerUtils.h:68-88 | a NOT_PRESSED button whose pin never reads LOW keeps all its fields over any number of polls |
| `Buttons.NeverSuperLong` | ShakerUtils.h:68-88 | no sequence of polls ever produces SUPER_LONG_PRESS |
| `Buttons.HeldTracksLastSample` | ShakerUtils.h:76-78 | while the pin is held LOW outside the refractory window, the button is PRESSED, pressStart is the time of the LAST poll, and prevPress is unchanged |
| `Buttons.ReleaseMeasuresLastGap` | ShakerUtils.h:76-87 | after a hold and a release, the press is classified by the gap between the release and the last LOW poll only; prevPress becomes the release time |
| `Buttons.QuickReleaseIsShort` | ShakerUtils.h:76-87 | if the release comes within 1000 ms of the last LOW poll, the result is SHORT_PRESS however long the pin was held |
| `Buttons.FastPollingNeverLong` | ShakerUtils.h:68-88 | over any run of polls at most 1000 ms apart, starting from a state that is not LONG_PRESS, the button never reaches LONG_PRESS. Whenever it is PRESSED, pressStart is the latest poll's time |
| `Buttons.ShortPressScenario` | ShakerUtils.h:68-92 | a 200 ms press after start-up gives SHORT_PRESS on release, and NOT_PRESSED after `Checked` |
| `Buttons.LongPressBoundaryScenario` | ShakerUtils.h:81-86 | gaps of 1001 ms, 1000 ms and 999 ms between the LOW poll and the release give LONG_PRESS, SHORT_PRESS and SHORT_PRESS respectively |
| `Buttons.SlidingPressStartScenario` | ShakerUtils.h:76-87 | a 1001 ms hold with one extra LOW poll half-way through is reported SHORT_PRESS |
| `Buttons.RefractoryScenario` | ShakerUtils.h:71-80 | a LOW pin 299 ms after a release is ignored (NOT_PRESSED); at 300 ms it registers as PRESSED |
| `Rotaters.GetCode` | ShakerUtils.h:114-118 | the pin pairs (A,B) = 00, 01, 11, 10 decode to 0, 1, 2, 3, and every result is in 0..3 |
| `Rotaters.GetCodeInjective` | ShakerUtils.h:114-118 | distinct pin pairs decode to distinct codes |
| `Rotaters.QuadratureIsGray` | ShakerUtils.h:114-118 | the i-th detent position of the clockwise quadrature cycle decodes to i, and adjacent positions differ in exactly one pin |
| `Rotaters.CRem4` | ShakerUtils.h:140 | C++ `x % 4`: the remainder lies strictly between -4 and 4, differs from x by a multiple of 4, and has the sign of x |
| `Rotaters.RightStepExactly` | ShakerUtils.h:138 | the right test `currentCode == (previousCode + 1) % 4` holds exactly for the next code modulo 4, 3 → 0 included |
| `Rotaters.LeftStepExactly` | ShakerUtils.h:140 | the left test `currentCode == (previousCode - 1) % 4` holds exactly when previousCode ≥ 1 and the code drops by one, so 0 → 3 is never left |
| `Rotaters.Direction` | ShakerUtils.h:138-142 | the new state is ROTATED_RIGHT for a right step, ROTATED_LEFT for a left step, and otherwise the old state is kept |
| `Rotaters.StepsAreExclusive` | ShakerUtils.h:138-142 | no pair of codes is both a right and a left step |
| `Rotaters.Rotater.constructor` | ShakerUtils.h:122-130 | a new rotater is NOT_ROTATED with previousTime 0; previousCode is decoded from whatever the not-yet-assigned pins read, so it is some code in 0..3 |
| `Rotaters.Rotater.Check` | ShakerUtils.h:133-151 | returns true iff `now - previousTime > 100`, and then previousTime = now and the state is `Direction` of the old and new codes. Otherwise previousTime and state are kept. previousCode becomes the current code either way. The whole new state equals `Step` of the old one |
| `Rotaters.Rotater.Checked` | ShakerUtils.h:153-155 | the state becomes NOT_ROTATED; previousTime and previousCode are kept |
| `Rotaters.Rotater.GetState` | ShakerUtils.h:157-159 | returns the current state and changes nothing |
| `Rotaters.LatestCodeIsKept` | ShakerUtils.h:145-148 | after any non-empty run of polls, previousCode is the code of the latest poll, whether or not it was gated |
| `Rotaters.GatedSamplesKeepStateAndTime` | ShakerUtils.h:147-150 | polls within 100 ms of the last accepted one change neither the state nor previousTime |
| `Rotaters.SteadyRightTurn` | ShakerUtils.h:137-146 | codes advancing by one, with each poll more than 100 ms after the previous one, end ROTATED_RIGHT with previousTime and previousCode from the last poll |
| `Rotaters.GatedStepIsLost` | ShakerUtils.h:137-150 | a code change seen inside the 100 ms gate is never reported: the next accepted poll with the same code leaves the state as it was |
| `Rotaters.RightTurnScenario` | ShakerUtils.h:133-151 | a full clockwise turn 0,1,2,3,0, one detent every 200 ms, with `checked()` after every read, is ROTATED_RIGHT after every step |
| `Rotaters.LeftTurnScenario` | ShakerUtils.h:138-142 | a full counter-clockwise turn 3,2,1,0,3, acknowledged after each step, gives ROTATED_LEFT three times and then NOT_ROTATED for 0 → 3 |
| `Rotaters.RateGateScenario` | ShakerUtils.h:137-150 | of two code changes 50 ms apart, only the first is compared; previousCode still follows the second, and the next accepted poll is compared with it |
| `Rotaters.AmbiguousCodeScenario` | ShakerUtils.h:138-142 | a jump of two codes (0 → 2) is neither direction and leaves the state NOT_ROTATED |
| `Counters.PortionInRange` | ShakerUtils.h:176-181 | Portion's checkCount accepts exactly the ints 2..8 |
| `Counters.PortionIncremented` | ShakerUtils.h:193-197 | Portion's `++` keeps the count in 2..8, adds one below 8, and does nothing at 8 |
| `Counters.PortionDecremented` | ShakerUtils.h:199-203 | Portion's `--` keeps the count in 2..8, subtracts one above 2, and does nothing at 2 |
| `Counters.PortionMilk` | ShakerUtils.h:209-211 | getMilk is exactly 25 × count, never truncated by uint16_t, and 50..200 for a valid count |
| `Counters.PortionStaysInRange` | ShakerUtils.h:176-203 | any sequence of `++` and `--` keeps the portion count in 2..8 |
| `Counters.PortionRoundTrip` | ShakerUtils.h:193-203 | away from the bounds, `--` undoes `++` and `++` undoes `--` |
| `Counters.Portion.constructor` | ShakerUtils.h:185-191 | an argument in 2..8 is kept; any other gives 3 |
| `Counters.Portion.Increment` | ShakerUtils.h:193-197 | the count becomes `PortionIncremented` of the old count, and the 2..8 invariant is kept |
| `Counters.Portion.Decrement` | ShakerUtils.h:199-203 | the count becomes `PortionDecremented` of the old count, and the 2..8 invariant is kept |
| `Counters.Portion.GetCount` | ShakerUtils.h:205-207 | returns the count and changes nothing |
| `Counters.Portion.GetMilk` | ShakerUtils.h:209-211 | returns 25 × count, which is 50..200 |
| `Counters.DaysInRange` | ShakerUtils.h:277-282 | DayCounter's checkCount accepts exactly the uint8_t values 0..50 (its test against 0 never fails) |
| `Counters.DaysIncremented` | ShakerUtils.h:294-298 | DayCounter's `++` keeps the count in 0..50, adds one below 50, and does nothing at 50 |
| `Counters.DaysDecremented` | ShakerUtils.h:300-304 | DayCounter's `--` keeps the count in 0..50, subtracts one above 0, and does nothing at 0 |
| `Counters.DaysDecrementAtZero` | ShakerUtils.h:300-304 | at 0, `count - 1` converts to 255 as a uint8_t, the range check refuses it, and the count stays 0 |
| `Counters.DaysStayInRange` | ShakerUtils.h:277-304 | any sequence of `++` and `--` keeps the day count in 0..50 |
| `Counters.DaysRoundTrip` | ShakerUtils.h:294-304 | away from the bounds, `--` undoes `++` and `++` undoes `--` |
| `Counters.DayCounter.constructor` | ShakerUtils.h:286-292 | an argument in 0..50 is kept; any other gives 10 |
| `Counters.DayCounter.Increment` | ShakerUtils.h:294-298 | the count becomes `DaysIncremented` of the old count, and the 0..50 invariant is kept |
| `Counters.DayCounter.Decrement` | ShakerUtils.h:300-304 | the count becomes `DaysDecremented` of the old count, and the 0..50 invariant is kept |
| `Counters.DayCounter.GetCount` | ShakerUtils.h:306-308 | returns the count and changes nothing |
| `Fps.FPSCounter.constructor` | ShakerUtils.h:18-21 | the timer starts at the current time and the reported count at 0; the tally is left arbitrary, as the firmware leaves it uninitialised |
| `Fps.FPSCounter.AddFrame` | ShakerUtils.h:23-35 | the tally always goes up by one modulo 256. Returns true iff `now - timer > 1000`; then the result is the incremented tally, the tally is reset to 0 and timer = now. Otherwise result and timer are kept |
| `Fps.FPSCounter.Count` | ShakerUtils.h:37-39 | returns the last reported count and changes nothing |
| `Fps.FramesAccumulate` | ShakerUtils.h:23-35 | n frames within the current second add n to the tally modulo 256 and keep the timer and the reported count |
| `Fps.ClosingFrameReports` | ShakerUtils.h:23-35 | the frame that closes a second returns true and reports every frame of that second, itself included, modulo 256; a new tally starts at 0 with the timer at that frame's time |
| `Fps.StepCloses` | ShakerUtils.h:23-32 | once more than a second has passed, a frame on a tally of `counter + n` (modulo 256) reports `counter + n + 1` modulo 256, resets the tally to 0 and moves the timer to that frame's time |

## Left out

- `millis()`, `digitalRead()`, `digitalWrite()` and `pinMode()` are Arduino hardware calls. The current time (a 32-bit millisecond value) and the pin levels are method parameters instead; pin modes are not modelled.
- The pin numbers stored by Button and Rotater are not modelled, because the levels read from them are passed in directly.
- Relay, Motor and Magnet (ShakerUtils.h:219-260, 316-370) only write or read a pin and keep a flag, with no logic beyond that. Relay's timerNum is a plain getter and setter.
- The `SystemState`, `RelayState` and `MotorState` enums (ShakerUtils.h:1, 4-5) carry no logic in this file. The appliance's state machine that uses them is not part of this model.
- The polling loop that calls `check()` is not part of this file. Sequences of polls are modelled as a list of samples passed to `Run`.
- The `++` and `--` methods of both counters require the class invariant `Valid()`. The constructors establish it and every method keeps it. The pure functions they are specified by are stated for every uint8_t count.
