# Morphing LED clock: the digit-morph engine

This project models the digit-morph engine of the morphing clock skin
(`MorphingClockSkin.java`). The skin shows hours, minutes and seconds as six
LED digits, each a 15 x 8 dot matrix. When the time changes, every slot whose
digit changed plays an eight-frame animation toward its new digit. The frames
are committed by an animation timer that is rate-gated to one frame per
40 ms. After the eighth frame the face settles and the timer stops.

The model has three modules:

- `Glyphs` (glyphs.dfy) models `updateArray`, the table of settled digit glyphs.
  A `Bitmap` is a subset type: exactly 15 rows of exactly 8 cells, each cell
  0 or 1. So every table entry has the right shape by construction. The
  literals are copied row for row from the source. They are then proved to be
  the usual seven-segment face (`Render(Segments(d))`), and this gives
  injectivity (different digits never share a glyph) and blankness exactly off
  the digits.
- `Morphs` (morphs.dfy) models `animateArray` and its ten tables `toZero` ...
  `toNine`, with every frame literal copied. The lemmas prove what the tables
  encode:
  - frame 0 of the morph toward d is the glyph of the digit before d (9 before 0);
  - frame 7, like every step outside 0..7, is d's own glyph;
  - a value outside 0..9 gives the blank face.
- `Clock` (clock.dfy) models the controller:
  - the body of `AnimationTimer.handle`, `updateArrays` and the digit-setting
    part of `updateTime`;
  - Java `long` wrap-around in the gate `now > lastTimerCall + INTERVAL`;
  - a `ClockState` datatype and pure functions (`Commit`, `TickSpec`,
    `UpdateTimeSpec`) that serve as the specification, with lemmas about runs
    of ticks on them;
  - a class `Controller`, holding the same state in fields, whose methods are
    proved against those functions.

The controller reaches the tables through a `Font` value, a pair of the
functions `glyph` and `morph`. The constructor fixes it to the skin's own
tables, `Font(Glyph, Morph)`. The lockstep lemmas hold for any font.
`SettleShowsNoJump` holds for any font whose frame 7 is the target's glyph
(`EndsOnGlyph`), which `SkinFontEndsOnGlyph` proves of the skin's own tables.
Lemmas that need the actual table contents say so with `SkinFont()`.

Some properties follow from the code and are easy to miss:

- The morph frame is looked up by the slot's new digit (`animateArray(hourLeft, step)`).
  The old digit plays no part. A changed slot on an idle face therefore starts
  from the new digit's predecessor. When the digit did not simply count up,
  that is not the glyph on screen: `5` to `0` in the tens of seconds, or `23`
  to `00`. `MorphStartsFromShownGlyph` and `FirstFrameAfterUpdate` prove this.
  A new time that arrives mid-cycle (the timer running with `step > 0`, as
  during the first cycle after construction or on an `updateTime` before the
  eighth committed frame) does not restart the animation. The changed slot
  joins it at the current step, with `animateArray(new, step)`, which
  `UpdateJoinsAtCurrentStep` proves.
- `updateTime` does not reset `step` or the old digits. The copy of the new
  digits into the old ones in `updateTime` is commented out. Only the settling
  tick updates the old digits.
- The gate is 40 ms (`INTERVAL = 40_000_000` ns). The comment in `animateArray`
  says 125 ms, but that value appears nowhere in the code.
- A fresh skin's bitmaps are blank (Java's `new int[15][8]`), and its old
  digits are Java's default 0. So a slot whose first target is 0 stays blank
  until the first settling tick.

## Model

| member | source | states |
|---|---|---|
| Glyphs.Segments | webfx-demo-ledclock-application/src/main/java/dev/webfx/demo/ledclock/MorphingClockSkin.java:213-426 | The segment set a value lights is non-empty exactly for the digits 0..9. |
| Glyphs.Glyph | webfx-demo-ledclock-application/src/main/java/dev/webfx/demo/ledclock/MorphingClockSkin.java:213-426 | The literal glyphs of updateArray, one per digit and the all-zero default for any other value; GlyphIsSevenSegment proves them to be Render(Segments(d)). |
| Glyphs.GlyphIsSevenSegment | webfx-demo-ledclock-application/src/main/java/dev/webfx/demo/ledclock/MorphingClockSkin.java:213-426 | Every glyph of updateArray, including the default branch, is the seven-segment face with exactly its digit's segments lit. |
| Glyphs.ReadRendered | webfx-demo-ledclock-application/src/main/java/dev/webfx/demo/ledclock/MorphingClockSkin.java:213-426 | Reading one probe cell per segment recovers the segment set a face was drawn with, so a face determines its segments. |
| Glyphs.RenderBlank | webfx-demo-ledclock-application/src/main/java/dev/webfx/demo/ledclock/MorphingClockSkin.java:406-424 | A seven-segment face is all zeros if and only if no segment is lit. |
| Glyphs.SegmentsInjective | webfx-demo-ledclock-application/src/main/java/dev/webfx/demo/ledclock/MorphingClockSkin.java:213-426 | Two digits with the same segment set are the same digit. |
| Glyphs.GlyphBlankIffNotDigit | webfx-demo-ledclock-application/src/main/java/dev/webfx/demo/ledclock/MorphingClockSkin.java:213-426 | updateArray returns the all-zero bitmap if and only if its argument is outside 0..9. |
| Glyphs.GlyphInjective | webfx-demo-ledclock-application/src/main/java/dev/webfx/demo/ledclock/MorphingClockSkin.java:213-426 | Two digits with the same glyph are the same digit. |
| Morphs.Predecessor | webfx-demo-ledclock-application/src/main/java/dev/webfx/demo/ledclock/MorphingClockSkin.java:462-482 | The digit before d on a counting clock is a digit, one less than d, or 9 for 0. |
| Morphs.Morph | webfx-demo-ledclock-application/src/main/java/dev/webfx/demo/ledclock/MorphingClockSkin.java:428-460 | animateArray: the dispatch on the target digit to toZero ... toNine, and the all-zero default for any other value; MorphStartsOnPredecessor, MorphEndsOnTarget and MorphOfNonDigitIsBlank state its frames. |
| Morphs.ToZero | webfx-demo-ledclock-application/src/main/java/dev/webfx/demo/ledclock/MorphingClockSkin.java:462-637 | The literal frames of toZero, one per step 0..7 and the default for any other step; ToZeroStarts and ToZeroEnds state its first and last frames. |
| Morphs.ToOne | webfx-demo-ledclock-application/src/main/java/dev/webfx/demo/ledclock/MorphingClockSkin.java:638-813 | The literal frames of toOne, one per step 0..7 and the default for any other step; ToOneStarts and ToOneEnds state its first and last frames. |
| Morphs.ToTwo | webfx-demo-ledclock-application/src/main/java/dev/webfx/demo/ledclock/MorphingClockSkin.java:814-989 | The literal frames of toTwo, one per step 0..7 and the default for any other step; ToTwoStarts and ToTwoEnds state its first and last frames. |
| Morphs.ToThree | webfx-demo-ledclock-application/src/main/java/dev/webfx/demo/ledclock/MorphingClockSkin.java:990-1165 | The literal frames of toThree, one per step 0..7 and the default for any other step; ToThreeStarts and ToThreeEnds state its first and last frames. |
| Morphs.ToFour | webfx-demo-ledclock-application/src/main/java/dev/webfx/demo/ledclock/MorphingClockSkin.java:1166-1341 | The literal frames of toFour, one per step 0..7 and the default for any other step; ToFourStarts and ToFourEnds state its first and last frames. |
| Morphs.ToFive | webfx-demo-ledclock-application/src/main/java/dev/webfx/demo/ledclock/MorphingClockSkin.java:1342-1517 | The literal frames of toFive, one per step 0..7 and the default for any other step; ToFiveStarts and ToFiveEnds state its first and last frames. |
| Morphs.ToSix | webfx-demo-ledclock-application/src/main/java/dev/webfx/demo/ledclock/MorphingClockSkin.java:1518-1693 | The literal frames of toSix, one per step 0..7 and the default for any other step; ToSixStarts and ToSixEnds state its first and last frames. |
| Morphs.ToSeven | webfx-demo-ledclock-application/src/main/java/dev/webfx/demo/ledclock/MorphingClockSkin.java:1694-1869 | The literal frames of toSeven, one per step 0..7 and the default for any other step; ToSevenStarts and ToSevenEnds state its first and last frames. |
| Morphs.ToEight | webfx-demo-ledclock-application/src/main/java/dev/webfx/demo/ledclock/MorphingClockSkin.java:1870-2045 | The literal frames of toEight, one per step 0..7 and the default for any other step; ToEightStarts and ToEightEnds state its first and last frames. |
| Morphs.ToNine | webfx-demo-ledclock-application/src/main/java/dev/webfx/demo/ledclock/MorphingClockSkin.java:2046-2221 | The literal frames of toNine, one per step 0..7 and the default for any other step; ToNineStarts and ToNineEnds state its first and last frames. |
| Morphs.MorphStartsOnPredecessor | webfx-demo-ledclock-application/src/main/java/dev/webfx/demo/ledclock/MorphingClockSkin.java:428-440 | For every digit d, animateArray(d, 0) is the glyph of d's predecessor. |
| Morphs.MorphEndsOnTarget | webfx-demo-ledclock-application/src/main/java/dev/webfx/demo/ledclock/MorphingClockSkin.java:428-440 | For every digit d, animateArray(d, 7), and the default frame for any step outside 0..7, is d's own glyph. |
| Morphs.MorphOfNonDigitIsBlank | webfx-demo-ledclock-application/src/main/java/dev/webfx/demo/ledclock/MorphingClockSkin.java:441-458 | For a value outside 0..9, animateArray returns the all-zero bitmap at every step. |
| Morphs.MorphOtherIsBlank | webfx-demo-ledclock-application/src/main/java/dev/webfx/demo/ledclock/MorphingClockSkin.java:441-458 | The default frame of animateArray is the unlit face. |
| Morphs.MorphStartsFromShownGlyph | webfx-demo-ledclock-application/src/main/java/dev/webfx/demo/ledclock/MorphingClockSkin.java:113-119 | A morph's first frame equals the glyph of the digit on screen if and only if that digit is the target's predecessor. |
| Morphs.ToZeroStarts | webfx-demo-ledclock-application/src/main/java/dev/webfx/demo/ledclock/MorphingClockSkin.java:465-482 | Frame 0 of toZero is the glyph of 9. |
| Morphs.ToZeroEnds | webfx-demo-ledclock-application/src/main/java/dev/webfx/demo/ledclock/MorphingClockSkin.java:598-634 | Frame 7 and the default branch of toZero are the glyph of 0. |
| Morphs.ToOneStarts | webfx-demo-ledclock-application/src/main/java/dev/webfx/demo/ledclock/MorphingClockSkin.java:641-658 | Frame 0 of toOne is the glyph of 0. |
| Morphs.ToOneEnds | webfx-demo-ledclock-application/src/main/java/dev/webfx/demo/ledclock/MorphingClockSkin.java:774-810 | Frame 7 and the default branch of toOne are the glyph of 1. |
| Morphs.ToTwoStarts | webfx-demo-ledclock-application/src/main/java/dev/webfx/demo/ledclock/MorphingClockSkin.java:817-834 | Frame 0 of toTwo is the glyph of 1. |
| Morphs.ToTwoEnds | webfx-demo-ledclock-application/src/main/java/dev/webfx/demo/ledclock/MorphingClockSkin.java:950-986 | Frame 7 and the default branch of toTwo are the glyph of 2. |
| Morphs.ToThreeStarts | webfx-demo-ledclock-application/src/main/java/dev/webfx/demo/ledclock/MorphingClockSkin.java:993-1010 | Frame 0 of toThree is the glyph of 2. |
| Morphs.ToThreeEnds | webfx-demo-ledclock-application/src/main/java/dev/webfx/demo/ledclock/MorphingClockSkin.java:1126-1162 | Frame 7 and the default branch of toThree are the glyph of 3. |
| Morphs.ToFourStarts | webfx-demo-ledclock-application/src/main/java/dev/webfx/demo/ledclock/MorphingClockSkin.java:1169-1186 | Frame 0 of toFour is the glyph of 3. |
| Morphs.ToFourEnds | webfx-demo-ledclock-application/src/main/java/dev/webfx/demo/ledclock/MorphingClockSkin.java:1302-1338 | Frame 7 and the default branch of toFour are the glyph of 4. |
| Morphs.ToFiveStarts | webfx-demo-ledclock-application/src/main/java/dev/webfx/demo/ledclock/MorphingClockSkin.java:1345-1362 | Frame 0 of toFive is the glyph of 4. |
| Morphs.ToFiveEnds | webfx-demo-ledclock-application/src/main/java/dev/webfx/demo/ledclock/MorphingClockSkin.java:1478-1514 | Frame 7 and the default branch of toFive are the glyph of 5. |
| Morphs.ToSixStarts | webfx-demo-ledclock-application/src/main/java/dev/webfx/demo/ledclock/MorphingClockSkin.java:1521-1538 | Frame 0 of toSix is the glyph of 5. |
| Morphs.ToSixEnds | webfx-demo-ledclock-application/src/main/java/dev/webfx/demo/ledclock/MorphingClockSkin.java:1654-1690 | Frame 7 and the default branch of toSix are the glyph of 6. |
| Morphs.ToSevenStarts | webfx-demo-ledclock-application/src/main/java/dev/webfx/demo/ledclock/MorphingClockSkin.java:1697-1714 | Frame 0 of toSeven is the glyph of 6. |
| Morphs.ToSevenEnds | webfx-demo-ledclock-application/src/main/java/dev/webfx/demo/ledclock/MorphingClockSkin.java:1830-1866 | Frame 7 and the default branch of toSeven are the glyph of 7. |
| Morphs.ToEightStarts | webfx-demo-ledclock-application/src/main/java/dev/webfx/demo/ledclock/MorphingClockSkin.java:1873-1890 | Frame 0 of toEight is the glyph of 7. |
| Morphs.ToEightEnds | webfx-demo-ledclock-application/src/main/java/dev/webfx/demo/ledclock/MorphingClockSkin.java:2006-2042 | Frame 7 and the default branch of toEight are the glyph of 8. |
| Morphs.ToNineStarts | webfx-demo-ledclock-application/src/main/java/dev/webfx/demo/ledclock/MorphingClockSkin.java:2049-2066 | Frame 0 of toNine is the glyph of 8. |
| Morphs.ToNineEnds | webfx-demo-ledclock-application/src/main/java/dev/webfx/demo/ledclock/MorphingClockSkin.java:2182-2218 | Frame 7 and the default branch of toNine are the glyph of 9. |
| Clock.AddLong | webfx-demo-ledclock-application/src/main/java/dev/webfx/demo/ledclock/MorphingClockSkin.java:113 | Java long addition: the result is a long, and it differs from the exact sum by at most one wrap of 2^64; when the sum fits, it is the sum. |
| Clock.GatePasses | webfx-demo-ledclock-application/src/main/java/dev/webfx/demo/ledclock/MorphingClockSkin.java:113-113 | The gate now > lastTimerCall + INTERVAL, the sum taken in Java long arithmetic with AddLong; GateWithoutOverflow reduces it to the plain comparison. |
| Clock.GateWithoutOverflow | webfx-demo-ledclock-application/src/main/java/dev/webfx/demo/ledclock/MorphingClockSkin.java:113-113 | Unless lastTimerCall is within 40 ms of the top of the long range, the gate is the plain comparison now > lastTimerCall + 40_000_000. |
| Clock.SkinFontEndsOnGlyph | webfx-demo-ledclock-application/src/main/java/dev/webfx/demo/ledclock/MorphingClockSkin.java:428-440 | With the skin's tables, the last morph frame toward every digit is that digit's settled glyph. |
| Clock.Initial | webfx-demo-ledclock-application/src/main/java/dev/webfx/demo/ledclock/MorphingClockSkin.java:96-141 | The initial state has six blank bitmaps, all digits and old digits 0, step 0, last call 0, the timer started. |
| Clock.InitialWellFormed | webfx-demo-ledclock-application/src/main/java/dev/webfx/demo/ledclock/MorphingClockSkin.java:96-141 | The initial state satisfies the invariant, whatever the tables. |
| Clock.NextFrame | webfx-demo-ledclock-application/src/main/java/dev/webfx/demo/ledclock/MorphingClockSkin.java:114-119 | One guarded assignment of handle: the morph frame toward the new digit at the shared step if the new digit differs from the old one, else the current bitmap. |
| Clock.Idle | webfx-demo-ledclock-application/src/main/java/dev/webfx/demo/ledclock/MorphingClockSkin.java:122-132 | The face the settling tick leaves: step 0, every old digit equal to its new digit, every bitmap the glyph of its digit. |
| Clock.WellFormed | webfx-demo-ledclock-application/src/main/java/dev/webfx/demo/ledclock/MorphingClockSkin.java:64-84 | The invariant every operation keeps: six slots, digits and old digits in 0..9, step in 0..7, a long timestamp, and a stopped timer only on an idle face. |
| Clock.Frames | webfx-demo-ledclock-application/src/main/java/dev/webfx/demo/ledclock/MorphingClockSkin.java:114-120 | The six bitmaps drawn on a committed tick: each slot's morph frame at the shared step if its digit changed, else its old bitmap. |
| Clock.Settled | webfx-demo-ledclock-application/src/main/java/dev/webfx/demo/ledclock/MorphingClockSkin.java:204-211 | The settled face shows in every slot the glyph of that slot's target digit. |
| Clock.Commit | webfx-demo-ledclock-application/src/main/java/dev/webfx/demo/ledclock/MorphingClockSkin.java:114-133 | A committed tick keeps the invariant, records now, never changes the targets, advances the step below 7, and at step 7 stops the timer on an idle face. |
| Clock.TickSpec | webfx-demo-ledclock-application/src/main/java/dev/webfx/demo/ledclock/MorphingClockSkin.java:110-135 | A tick keeps the invariant, changes nothing when the gate is closed, and records now when it opens. |
| Clock.CommitMorphsChangedSlots | webfx-demo-ledclock-application/src/main/java/dev/webfx/demo/ledclock/MorphingClockSkin.java:114-121 | Before the last frame, a committed tick gives only the changed slots a new frame, keyed on the new digit, and leaves all digits alone. |
| Clock.SettleShowsNoJump | webfx-demo-ledclock-application/src/main/java/dev/webfx/demo/ledclock/MorphingClockSkin.java:121-125 | On the settling tick, every morphing slot already shows, in the frame just drawn, the glyph it settles to (given tables whose frame 7 is the glyph). |
| Clock.CommitsMarchInLockstep | webfx-demo-ledclock-application/src/main/java/dev/webfx/demo/ledclock/MorphingClockSkin.java:110-135 | After k committed ticks, each changed slot shows the morph frame of the last step taken and the others are untouched; the tick that consumes frame 7 leaves the face idle with the timer stopped. |
| Clock.StopsAfterEightCommits | webfx-demo-ledclock-application/src/main/java/dev/webfx/demo/ledclock/MorphingClockSkin.java:121-132 | From step 0 the timer is still running after fewer than eight committed ticks and stopped, on an idle face, after exactly eight. |
| Clock.DigitOf | webfx-demo-ledclock-application/src/main/java/dev/webfx/demo/ledclock/MorphingClockSkin.java:2236-2241 | Integer.parseInt of one decimal character is a digit 0..9. |
| Clock.SlotDigits | webfx-demo-ledclock-application/src/main/java/dev/webfx/demo/ledclock/MorphingClockSkin.java:2236-2241 | The six slot digits read from characters 0, 1, 3, 4, 6 and 7 of the formatted time are all in 0..9. |
| Clock.UpdateTimeSpec | webfx-demo-ledclock-application/src/main/java/dev/webfx/demo/ledclock/MorphingClockSkin.java:2236-2245 | updateTime keeps the invariant, starts the timer, sets the six targets from the text, and leaves the old digits, step, bitmaps and gate time alone. |
| Clock.DigitChar | webfx-demo-ledclock-application/src/main/java/dev/webfx/demo/ledclock/MorphingClockSkin.java:40-40 | Printing a digit gives a decimal character that parses back to it. |
| Clock.TwoDigits | webfx-demo-ledclock-application/src/main/java/dev/webfx/demo/ledclock/MorphingClockSkin.java:40-40 | A zero-padded two-digit field is two decimal characters. |
| Clock.FormatTime | webfx-demo-ledclock-application/src/main/java/dev/webfx/demo/ledclock/MorphingClockSkin.java:40-40 | HH:mm:ss text is eight characters with colons at positions 2 and 5. |
| Clock.SlotDigitsOfFormattedTime | webfx-demo-ledclock-application/src/main/java/dev/webfx/demo/ledclock/MorphingClockSkin.java:2236-2241 | On HH:mm:ss text, the six slots receive the tens and units of hours, minutes and seconds. |
| Clock.FirstFrameAfterUpdate | webfx-demo-ledclock-application/src/main/java/dev/webfx/demo/ledclock/MorphingClockSkin.java:114-119 | After a new time reaches an idle face, a changed slot's first frame is the new digit's predecessor glyph; it equals what was on screen if and only if the digit counted up by one. |
| Clock.UpdateJoinsAtCurrentStep | webfx-demo-ledclock-application/src/main/java/dev/webfx/demo/ledclock/MorphingClockSkin.java:2236-2245 | A new time arriving mid-cycle joins the running animation: the next committed frame of a changed slot is the morph frame at the current step, and the step advances by one. |
| Clock.Controller.constructor | webfx-demo-ledclock-application/src/main/java/dev/webfx/demo/ledclock/MorphingClockSkin.java:96-141 | The fields start in the initial state with the skin's own tables, and the invariant holds. |
| Clock.Controller.Tick | webfx-demo-ledclock-application/src/main/java/dev/webfx/demo/ledclock/MorphingClockSkin.java:110-135 | One call of handle(now) moves the fields exactly as TickSpec says, keeps the invariant, and returns the drawn frames when the gate opens. |
| Clock.Controller.MorphChangedSlots | webfx-demo-ledclock-application/src/main/java/dev/webfx/demo/ledclock/MorphingClockSkin.java:114-119 | The six guarded animateArray assignments leave the bitmaps equal to Frames of the prior state. |
| Clock.Controller.MorphSlot | webfx-demo-ledclock-application/src/main/java/dev/webfx/demo/ledclock/MorphingClockSkin.java:114-114 | One guarded assignment changes only its own slot, to the next frame of that slot. |
| Clock.Controller.UpdateArrays | webfx-demo-ledclock-application/src/main/java/dev/webfx/demo/ledclock/MorphingClockSkin.java:204-211 | Every bitmap becomes the glyph of its slot's target digit. |
| Clock.Controller.UpdateTime | webfx-demo-ledclock-application/src/main/java/dev/webfx/demo/ledclock/MorphingClockSkin.java:2236-2245 | The fields move exactly as UpdateTimeSpec says, the invariant holds, and it reports a start exactly when the timer was stopped. |

## Left out

- Drawing: `drawTime`, `initGraphics`, `registerListeners`, resizing, colours and gradients (double-precision geometry and JavaFX paint objects). `Tick` returns the six bitmaps that `drawTime` would hand to the canvas.
- Formatter and locale: `updateTime`'s choice between `HH:mm:ss` and `hh:mm:ss` by locale, and the `DateTimeFormatter` call, are a foreign library. `UpdateTime` takes the formatted text. `FormatTime` models only the 24-hour pattern, and only to connect the slots to hours, minutes and seconds.
- Clock.Controller.UpdateTime: it requires decimal digits at positions 0, 1, 3, 4, 6 and 7, the only text the two formatters (`HH:mm:ss` and `hh:mm:ss`) can produce. The `NumberFormatException` path is not modelled.
- Clock.Controller.Tick: it requires a running timer. The `AnimationTimer` scheduler calls `handle` only between `start()` and `stop()`, and those calls are modelled by the `timerStarted` flag. The platform's frame clock is the parameter `now`.
- Array identity and aliasing: the `int[][]` bitmaps are modelled as values. Every table lookup in the source returns a fresh array and nothing mutates one in place, so only the contents matter.
- Field layout: the six bitmap fields `hl` ... `sr` are gathered into one sequence field, `bitmaps`, indexed by slot (hour left, hour right, minute left, minute right, second left, second right). The same goes for `hourLeft` ... `secRight` (`digits`) and `oldHourLeft` ... `oldSecRight` (`oldDigits`).
- Java `int` overflow of `step` and the digits: `step` stays in 0..8 and every digit in 0..9, so it cannot occur.
- Concurrency between the timer thread and `updateTime`: modelled as interleaved calls of whole methods.
- CanvasMatrixPane.java, LedMatrixPane.java, LedClockApplication.java, ServiceLoader.java and module-info.java are not part of this model.
