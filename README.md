# SocietyWatchFace engine, modelled in Dafny

This project models the decision logic of the analog watch face
`SocietyWatchFace.Engine` (an Android `CanvasWatchFaceService.Engine`):

- which of the three bitmap variants (interactive, ambient, low-bit ambient)
  every element is drawn with;
- the hand angles and the two canvas rotations of `onDraw`;
- the interactive-mode tick: `updateTimer`, `shouldTimerBeRunning`,
  `handleUpdateTimeMessage` and the handler that delivers the wakes;
- the engine's state changes under the host's callbacks: ambient mode,
  properties, visibility, receiver registration, taps, time ticks, drawing,
  surface size changes with the in-place rescaling of every variant array.

The Android collaborators are reduced to what the engine can observe of them.
The handler's queue of `MSG_UPDATE_TIME` messages is the list of their delays.
`invalidate()` sets a redraw-requested flag; a draw consumes the pending
request. The time-zone receiver is the list of register and unregister calls
the engine makes on the host. A `Bitmap` is its width and height. Clock readings
(`Time.setToNow`, `System.currentTimeMillis`) are method parameters. Float
arithmetic is idealised as Dafny `real`. The float-to-int cast and the int
division and remainder are Java's, written out in `JavaArith`.

Files, one module each:

- `java_arith.dfy`: Java's truncating `/`, `%` and `(int)` cast.
- `display_mode.dfy`: the mode and the variant index.
- `bitmaps.dfy`: `scaleBitmap` and what `scaleBitmaps` leaves in an array.
- `clock_hands.dfy`: the angles.
- `tick_scheduler.dfy`: the delay to the next second, plus the scheduler as a
  state machine over host events. It proves that at most one wake is ever
  pending, and that exactly one is pending while the tick should run.
- `engine.dfy`: the `Engine` class. Its methods tie their effect on the
  scheduling state to that state machine (`Tick() == Step(old(Tick()), …)`)
  and keep the invariant `Valid()`. Two client methods (`ResizeScenario`,
  `TickScenario`) replay concrete sessions against the contracts.

Three things the code does that a reader might not expect:

- The hour angle uses the 0–23 hour field directly, so afternoon angles lie
  in [360, 720). `ClockHands.HourAngleHalfDays` shows that this is the 12-hour
  angle plus one full turn, so the hand points the same way.
- `onSurfaceChanged` rescales the *current* bitmaps by
  `surface width / current background width`, not the loaded originals.
  Repeated resizes therefore compound truncation (`Bitmaps.RescaleIsCumulative`).
  With floats read as exact reals, a repeated resize to the same width has
  factor 1 and changes nothing; in the code's 32-bit floats this can fail
  (see "## Left out").
- `onSurfaceChanged` has no guard against a zero or negative size. The model
  requires the current background to be wider than zero, as every Android
  `Bitmap` is; Java's float division by zero would give Infinity or NaN
  rather than an error.
- The face is nudged by the scale factor itself on both axes. The declared
  field `mScaledXAdditionalOffset` is never used.

## Model

| member | source | states |
|---|---|---|
| `JavaArith.Div` | wear/src/main/java/com/society/societywatchface/SocietyWatchFace.java:380-381 | Java int division by a positive divisor: the quotient truncated toward zero, bracketed against the dividend for either sign |
| `JavaArith.Rem` | wear/src/main/java/com/society/societywatchface/SocietyWatchFace.java:476-477 | Java `%`: dividend = quotient·divisor + remainder, with the remainder in [0, b) for a non-negative dividend and in (-b, 0] for a negative one |
| `JavaArith.FloatToInt` | wear/src/main/java/com/society/societywatchface/SocietyWatchFace.java:254-255 | the `(int)` cast truncates toward zero: the result is within one of the value and no farther from zero |
| `DisplayMode.ModeOf` | wear/src/main/java/com/society/societywatchface/SocietyWatchFace.java:224-232 | interactive iff not ambient; ambient iff ambient and not low-bit; low-bit ambient iff both flags are set |
| `DisplayMode.Index` | wear/src/main/java/com/society/societywatchface/SocietyWatchFace.java:224-232 | every mode selects an index inside the three-element variant array |
| `DisplayMode.IndexInjective` | wear/src/main/java/com/society/societywatchface/SocietyWatchFace.java:224-232 | distinct modes use distinct array slots |
| `DisplayMode.VariantChoiceExhaustive` | wear/src/main/java/com/society/societywatchface/SocietyWatchFace.java:224-232 | all four flag combinations pick a valid index; both non-ambient combinations pick 0, ambient picks 1 and ambient low-bit picks 2; exactly {0, 1, 2} is reached |
| `Bitmaps.ScaleBitmap` | wear/src/main/java/com/society/societywatchface/SocietyWatchFace.java:253-263 | the result has the truncated scaled width and height, whichever branch is taken |
| `Bitmaps.ScaledVariants` | wear/src/main/java/com/society/societywatchface/SocietyWatchFace.java:240-244 | the array `scaleBitmaps` leaves behind has as many variants as before, and each one's width and height are the old ones times the factor, truncated toward zero |
| `Bitmaps.ScaleByOne` | wear/src/main/java/com/society/societywatchface/SocietyWatchFace.java:253-263 | scaling by 1 returns the bitmap unchanged |
| `Bitmaps.ScaledVariantsByOne` | wear/src/main/java/com/society/societywatchface/SocietyWatchFace.java:240-244 | rescaling a whole variant array by 1 leaves its contents as they were |
| `Bitmaps.ScaleToWidth` | wear/src/main/java/com/society/societywatchface/SocietyWatchFace.java:403-404 | the factor surface width / bitmap width, times the bitmap width, is the surface width; it scales that bitmap exactly to the surface width; it is 1 when the widths already agree |
| `Bitmaps.RescaleIsCumulative` | wear/src/main/java/com/society/societywatchface/SocietyWatchFace.java:403-407 | a concrete pair of resizes whose compounded truncation leaves the face 2 wide where one scaling of the loaded face gives 3 |
| `ClockHands.MinuteAngle` | wear/src/main/java/com/society/societywatchface/SocietyWatchFace.java:356-357 | the minute hand's angle lies within [0, 354] degrees for every minute 0..59 |
| `ClockHands.HourAngle` | wear/src/main/java/com/society/societywatchface/SocietyWatchFace.java:358 | for minutes 0..59 the hour hand stays in its own hour's 30-degree sector, [30·hour, 30·hour + 30) |
| `ClockHands.HourHandRotation` | wear/src/main/java/com/society/societywatchface/SocietyWatchFace.java:369 | the hour hand's second canvas rotation, added to the minute rotation already applied, comes to the hour angle plus one full turn; for minute angles in [0, 360) and non-negative hour angles it turns forward |
| `ClockHands.CumulativeHourRotation` | wear/src/main/java/com/society/societywatchface/SocietyWatchFace.java:363-369 | the minute rotation followed by `360 - minDeg + hrDeg` turns the hour hand by exactly hrDeg + 360 |
| `ClockHands.HourAngleMonotoneInMinute` | wear/src/main/java/com/society/societywatchface/SocietyWatchFace.java:358 | for a fixed hour the hour angle never decreases as the minute grows |
| `ClockHands.HourAngleIncreasesThroughDay` | wear/src/main/java/com/society/societywatchface/SocietyWatchFace.java:358 | over valid readings, a later time of day always gives a strictly larger hour angle |
| `ClockHands.HourAngleHalfDays` | wear/src/main/java/com/society/societywatchface/SocietyWatchFace.java:358 | the 24-hour angle is the 12-hour angle plus 360 per completed half day; it lies in [0, 720) and is below 360 iff the hour is before noon |
| `ClockHands.ThreeOClock` | wear/src/main/java/com/society/societywatchface/SocietyWatchFace.java:356-369 | at 3:00 the minute rotation is 0 and the hour hand ends at 90 degrees (450 cumulative); at 15:00 the hour angle is 450 |
| `TickScheduler.DelayToNextTick` | wear/src/main/java/com/society/societywatchface/SocietyWatchFace.java:475-477 | the delay is at least 1 ms and reading + delay is a whole second; from a non-negative reading it is at most 1000 and lands on the first boundary strictly after the reading |
| `TickScheduler.ShouldRun` | wear/src/main/java/com/society/societywatchface/SocietyWatchFace.java:465-467 | the tick never runs while the face is hidden or in ambient mode, and runs whenever it is visible and interactive |
| `TickScheduler.DelayExamples` | wear/src/main/java/com/society/societywatchface/SocietyWatchFace.java:475-477 | 2500 ms waits 500; 3000 ms waits a full 1000, never 0 |
| `TickScheduler.Reevaluate` | wear/src/main/java/com/society/societywatchface/SocietyWatchFace.java:454-467 | after updateTimer exactly one wake (immediate) is pending if visible and not ambient and none otherwise, whatever was pending before; the flags are untouched |
| `TickScheduler.Rearm` | wear/src/main/java/com/society/societywatchface/SocietyWatchFace.java:472-480 | a fired wake appends one wake delayed to the next second iff the tick should still run, and appends nothing otherwise |
| `TickScheduler.Step` | wear/src/main/java/com/society/societywatchface/SocietyWatchFace.java:415-431 | one host event's effect on the scheduler: a visibility or ambient change (here and at :295-308) sets its flag and leaves the queue consistent whatever it was before; a delivered wake (:73-83) keeps the flags, is ignored on an empty queue, and never lengthens the queue |
| `TickScheduler.ReevaluateIdempotent` | wear/src/main/java/com/society/societywatchface/SocietyWatchFace.java:454-459 | repeating updateTimer changes nothing; its outcome ignores the previous queue |
| `TickScheduler.StaleWakeNotRearmed` | wear/src/main/java/com/society/societywatchface/SocietyWatchFace.java:472-480 | a wake that fires after the face went ambient or invisible leaves nothing queued |
| `TickScheduler.StepPreservesConsistent` | wear/src/main/java/com/society/societywatchface/SocietyWatchFace.java:454-480 | each visibility change, ambient change or fired wake keeps "one wake pending iff the tick should run" |
| `TickScheduler.RunPreservesConsistent` | wear/src/main/java/com/society/societywatchface/SocietyWatchFace.java:454-480 | any sequence of those events keeps it |
| `TickScheduler.AtMostOneWake` | wear/src/main/java/com/society/societywatchface/SocietyWatchFace.java:454-480 | from a new engine, after any event sequence at most one wake is pending, and one is pending exactly when visible and not ambient |
| `WatchFace.HandCorner` | wear/src/main/java/com/society/societywatchface/SocietyWatchFace.java:365-366 | a hand is drawn with its bottom centre on the pivot |
| `WatchFace.FaceCorner` | wear/src/main/java/com/society/societywatchface/SocietyWatchFace.java:379-382 | the face's centre (sizes halved with integer division) sits on the pivot moved by the x and y offsets |
| `WatchFace.Engine.constructor` | wear/src/main/java/com/society/societywatchface/SocietyWatchFace.java:142-167 | a new engine holds the loaded variant arrays and draws anti-aliased hands; it is not ambient, has no low-bit flag, no registration and no pending wake; its size is -1 × -1 |
| `WatchFace.Engine.ScaleBitmaps` | wear/src/main/java/com/society/societywatchface/SocietyWatchFace.java:240-244 | in place, each array element becomes its scaled version; the length and nothing else changes |
| `WatchFace.Engine.ScaleAllVariants` | wear/src/main/java/com/society/societywatchface/SocietyWatchFace.java:404-407 | all four variant arrays are rescaled by one factor; a factor of 1 leaves them all unchanged |
| `WatchFace.Engine.OnPropertiesChanged` | wear/src/main/java/com/society/societywatchface/SocietyWatchFace.java:283-286 | the low-bit flag becomes the reported property, false when the property is absent; nothing else changes |
| `WatchFace.Engine.OnTimeTick` | wear/src/main/java/com/society/societywatchface/SocietyWatchFace.java:289-292 | requests a redraw and changes nothing else |
| `WatchFace.Engine.OnAmbientModeChanged` | wear/src/main/java/com/society/societywatchface/SocietyWatchFace.java:295-308 | an unchanged value leaves the ambient flag, anti-aliasing and redraw flag as they were; a change updates the flag, sets anti-aliasing to the opposite of ambient only on low-bit displays, and requests a redraw; either way the timer is re-evaluated |
| `WatchFace.Engine.OnTapCommand` | wear/src/main/java/com/society/societywatchface/SocietyWatchFace.java:315-332 | every tap type requests a redraw and changes no other state |
| `WatchFace.Engine.Render` | wear/src/main/java/com/society/societywatchface/SocietyWatchFace.java:335-383 | the frame clears the surface and draws the current mode's variant of every element; the peek card is masked iff ambient; the hands turn by the minute angle and then on to the hour angle plus a full turn, pivoting on the centre; the face is centred and then nudged by the offsets |
| `WatchFace.Engine.OnDraw` | wear/src/main/java/com/society/societywatchface/SocietyWatchFace.java:335-388 | stores the clock reading and both angles, returns the frame of the new state, and leaves a redraw requested iff visible and not ambient |
| `WatchFace.Engine.SetTime` | wear/src/main/java/com/society/societywatchface/SocietyWatchFace.java:336-358 | after reading the clock, the stored hour and minute are the reading and the stored angles are MinuteAngle/HourAngle of it, with the engine invariant kept |
| `WatchFace.Engine.OnSurfaceChanged` | wear/src/main/java/com/society/societywatchface/SocietyWatchFace.java:391-412 | centre = half the size; scale = width / current background width; both offsets equal the scale; every variant array is rescaled in place; with floats read as exact reals, afterwards the background is exactly as wide as the surface and a repeat at the same width changes no variant |
| `WatchFace.Engine.OnVisibilityChanged` | wear/src/main/java/com/society/societywatchface/SocietyWatchFace.java:415-431 | the registration follows the visibility, with a host call only when it changes; becoming visible rereads the clock; the timer is re-evaluated |
| `WatchFace.Engine.RegisterReceiver` | wear/src/main/java/com/society/societywatchface/SocietyWatchFace.java:433-440 | idempotent: afterwards registered; the host is called only when the receiver was not registered already; the calls keep alternating |
| `WatchFace.Engine.UnregisterReceiver` | wear/src/main/java/com/society/societywatchface/SocietyWatchFace.java:442-448 | idempotent: afterwards unregistered; the host is called only when the receiver was registered; the calls keep alternating |
| `WatchFace.Engine.UpdateTimer` | wear/src/main/java/com/society/societywatchface/SocietyWatchFace.java:454-459 | the new scheduling state is `Reevaluate` of the old one |
| `WatchFace.Engine.HandleUpdateTimeMessage` | wear/src/main/java/com/society/societywatchface/SocietyWatchFace.java:472-480 | always requests a redraw; the new scheduling state is `Rearm` of the old one at the clock reading |
| `WatchFace.Engine.DeliverUpdateTimeMessage` | wear/src/main/java/com/society/societywatchface/SocietyWatchFace.java:73-83 | the oldest pending wake leaves the queue and is handled; with none pending nothing happens; the engine invariant is kept |
| `WatchFace.Engine.OnDestroy` | wear/src/main/java/com/society/societywatchface/SocietyWatchFace.java:170-173 | every pending wake is removed |

## Left out

- Canvas and Paint calls (`drawRect`, `drawBitmap`, `rotate`, `save`/`restore`, colours, stroke settings). `Render` describes the frame instead: which bitmaps, which rotations, which corners.
- Resource loading (`init`, `loadBitmaps`, `getIntArray`, `TypedArray`, `Drawable` casts). The constructor takes the four loaded variant lists as given three-element sequences.
- `Bitmap.createScaledBitmap`'s filtering and pixel content. Only the resulting size is modelled; its rejection of a zero or negative target size is not modelled.
- The time-zone `BroadcastReceiver` itself (`onReceive` rebinding `mTime` to the intent's zone) and the `IntentFilter`. Only the register/unregister calls are kept.
- `WatchFace.Engine.OnVisibilityChanged`: does not model rebinding `mTime` to the default time zone. The zone is not part of the model; the clock reading in that zone arrives as the `nowHour`/`nowMinute` parameters.
- `Handler`, `Message` and `WeakReference` mechanics. The engine is assumed alive when a wake is delivered. The delivery time of a delayed message is not modelled, only its delay.
- Clock reads (`Time.setToNow`, `System.currentTimeMillis`, `TimeZone.getDefault`). They are parameters.
- IEEE float rounding, and the saturation of the float-to-int cast at the int range (and of NaN to 0). Floats are reals.
- 64-bit overflow of `timeMs + delayMs` near the largest `long`.
- `WatchFace.Engine.OnSurfaceChanged`: its results that the background ends exactly as wide as the surface, and that a second resize to the same width has factor 1 and changes nothing, hold in the model's real arithmetic only. In 32-bit floats a 320-pixel surface over a 299-pixel background gives `(int)(299f * (320f/299f))` = `(int)319.99997` = 319, so a second `onSurfaceChanged(320, …)` has factor 320/319 and rescales every variant again.
- `Bitmaps.ScaleToWidth`: the factor brings the bitmap exactly to the surface width only with exact reals; the same 320/299 case ends one pixel short (319) with 32-bit floats.
- `JavaArith.Div`: covers only positive divisors, because the engine divides only by 2 and 1000.
- `WatchFaceStyle.Builder` in `onCreate`, `onCreateEngine`, and the commented-out tap and background code.
- Fields the engine declares but never reads for any decision: `mTapCount`, `mRadius`, `mLoop`, `mTimeElapsed`, `mScaledXAdditionalOffset`, `mMinutes` (equal to the minute), and `mMinHand`/`mHrHand`/`mFace` (equal to the frame's bitmaps). `mCardBounds` is never set, so the peek-card mask is a flag in the frame.
- After `OnDestroy` the engine invariant may no longer hold, because the face may still count as visible and interactive with nothing queued. No further callbacks are modelled after it.
