/**
 * The clock digit controller of the morphing clock skin: six digit slots that
 * march in lockstep through the eight morph frames on a rate-gated animation
 * tick, and the wall-clock update that feeds them new target digits.
 *
 * The pure functions over ClockState are the specification; the class
 * Controller holds the same state in fields (the six per-slot fields of each
 * kind gathered into one sequence indexed by slot) and its methods are proved
 * against those functions.
 */
module Clock {
  import opened Glyphs
  import opened Morphs

  datatype Option<T> = None | Some(value: T)

  // ---------------------------------------------------------------------------
  // Java long arithmetic and the rate gate
  // ---------------------------------------------------------------------------

  const MinLong: int := -0x8000_0000_0000_0000
  const MaxLong: int := 0x7fff_ffff_ffff_ffff
  const LongModulus: int := 0x1_0000_0000_0000_0000

  predicate IsLong(x: int)
  {
    MinLong <= x <= MaxLong
  }

  /** Java `long` addition: the exact sum, wrapped into the 64-bit range. */
  function AddLong(a: int, b: int): (r: int)
    requires IsLong(a) && IsLong(b)
    ensures IsLong(r)
    ensures r == a + b || r == a + b - LongModulus || r == a + b + LongModulus
    ensures IsLong(a + b) ==> r == a + b
  {
    var sum := a + b;
    if sum > MaxLong then sum - LongModulus
    else if sum < MinLong then sum + LongModulus
    else sum
  }

  /** Minimum time between two committed frames: 40 ms, in nanoseconds. */
  const Interval: int := 40_000_000

  /** The animation tick commits a frame only when now > lastTimerCall + INTERVAL, in long arithmetic. */
  predicate GatePasses(lastTimerCall: int, now: int)
    requires IsLong(lastTimerCall) && IsLong(now)
  {
    now > AddLong(lastTimerCall, Interval)
  }

  /** Away from the top of the long range the gate is the plain comparison. */
  lemma GateWithoutOverflow(lastTimerCall: int, now: int)
    requires IsLong(lastTimerCall) && IsLong(now)
    requires lastTimerCall <= MaxLong - Interval
    ensures GatePasses(lastTimerCall, now) <==> now > lastTimerCall + Interval
  {
  }

  // ---------------------------------------------------------------------------
  // The font and the controller state
  // ---------------------------------------------------------------------------

  /** Slots, in order: hour left, hour right, minute left, minute right, second left, second right. */
  const Slots: nat := 6

  predicate IsDigit(d: int)
  {
    0 <= d <= 9
  }

  /**
   * The two table lookups the controller calls: the settled glyph of a digit
   * (updateArray) and frame `step` of the morph toward a digit (animateArray).
   */
  datatype Font = Font(glyph: int -> Bitmap, morph: (int, int) -> Bitmap)

  /** The skin's own tables. */
  function SkinFont(): Font
  {
    Font(Glyph, Morph)
  }

  /** The last morph frame toward a digit is that digit's settled glyph. */
  predicate EndsOnGlyph(font: Font)
  {
    forall d :: 0 <= d <= 9 ==> font.morph(d, 7) == font.glyph(d)
  }

  /** The skin's tables end every morph on the target glyph, so settling a slot never changes what it shows. */
  lemma SkinFontEndsOnGlyph()
    ensures EndsOnGlyph(SkinFont())
  {
    forall d | IsDigit(d)
      ensures Morph(d, 7) == Glyph(d)
    {
      MorphEndsOnTarget(d, 7);
    }
  }

  /**
   * The state of the skin that the animation reads and writes: the six bitmaps
   * (hl ... sr), the six target digits (hourLeft ... secRight), the six digits of
   * the last settled face (oldHourLeft ... oldSecRight), the shared frame index,
   * the time of the last committed frame and whether the timer runs.
   */
  datatype ClockState = ClockState(
    bitmaps: seq<Bitmap>,
    digits: seq<int>,
    oldDigits: seq<int>,
    step: int,
    lastTimerCall: int,
    timerStarted: bool)

  predicate HasSixSlots(s: ClockState)
  {
    |s.bitmaps| == Slots && |s.digits| == Slots && |s.oldDigits| == Slots
  }

  /** No slot is mid-morph: every slot shows the glyph of its digit and the frame index is reset. */
  predicate Idle(font: Font, s: ClockState)
  {
    HasSixSlots(s) && s.step == 0 &&
    forall i :: 0 <= i < Slots ==> s.oldDigits[i] == s.digits[i] && s.bitmaps[i] == font.glyph(s.digits[i])
  }

  /**
   * The invariant every operation keeps: six slots, digits in 0..9, a frame
   * index in 0..7, a long timestamp, and a stopped timer only on an idle face.
   */
  predicate WellFormed(font: Font, s: ClockState)
  {
    HasSixSlots(s) &&
    (forall i :: 0 <= i < Slots ==> IsDigit(s.digits[i]) && IsDigit(s.oldDigits[i])) &&
    0 <= s.step <= 7 &&
    IsLong(s.lastTimerCall) &&
    (!s.timerStarted ==> Idle(font, s))
  }

  const ZeroDigits: seq<int> := [0, 0, 0, 0, 0, 0]

  /** The state the constructor leaves: blank arrays, all digits 0, the timer started. */
  function Initial(): (s: ClockState)
    ensures HasSixSlots(s) && s.timerStarted && s.step == 0 && s.lastTimerCall == 0
    ensures forall i :: 0 <= i < Slots ==> s.digits[i] == 0 && s.oldDigits[i] == 0 && IsBlank(s.bitmaps[i])
  {
    RenderBlank({});
    ClockState([Blank, Blank, Blank, Blank, Blank, Blank], ZeroDigits, ZeroDigits, 0, 0, true)
  }

  /** Whatever the tables, the initial state satisfies the invariant. */
  lemma InitialWellFormed(font: Font)
    ensures WellFormed(font, Initial())
  {
  }

  // ---------------------------------------------------------------------------
  // The animation tick
  // ---------------------------------------------------------------------------

  /**
   * What one slot shows after the morph part of a committed tick: the frame of
   * the morph toward its target at the shared step if the target differs from
   * the settled digit, and its current bitmap otherwise.
   */
  function NextFrame(font: Font, bitmap: Bitmap, digit: int, oldDigit: int, step: int): Bitmap
  {
    if digit != oldDigit then font.morph(digit, step) else bitmap
  }

  /** The six bitmaps handed to the renderer on a committed tick. */
  function Frames(font: Font, s: ClockState): (f: seq<Bitmap>)
    requires HasSixSlots(s)
    ensures |f| == Slots
    ensures forall i :: 0 <= i < Slots ==> f[i] == NextFrame(font, s.bitmaps[i], s.digits[i], s.oldDigits[i], s.step)
  {
    [NextFrame(font, s.bitmaps[0], s.digits[0], s.oldDigits[0], s.step),
     NextFrame(font, s.bitmaps[1], s.digits[1], s.oldDigits[1], s.step),
     NextFrame(font, s.bitmaps[2], s.digits[2], s.oldDigits[2], s.step),
     NextFrame(font, s.bitmaps[3], s.digits[3], s.oldDigits[3], s.step),
     NextFrame(font, s.bitmaps[4], s.digits[4], s.oldDigits[4], s.step),
     NextFrame(font, s.bitmaps[5], s.digits[5], s.oldDigits[5], s.step)]
  }

  /** The settled face: the glyph of every target digit (updateArrays). */
  function Settled(font: Font, digits: seq<int>): (f: seq<Bitmap>)
    requires |digits| == Slots
    ensures |f| == Slots && forall i :: 0 <= i < Slots ==> f[i] == font.glyph(digits[i])
  {
    [font.glyph(digits[0]), font.glyph(digits[1]), font.glyph(digits[2]),
     font.glyph(digits[3]), font.glyph(digits[4]), font.glyph(digits[5])]
  }

  /**
   * A committed tick: morph the changed slots, advance the step, and after the
   * eighth frame settle every slot, copy the targets into the settled digits
   * and stop the timer.
   */
  function Commit(font: Font, s: ClockState, now: int): (t: ClockState)
    requires WellFormed(font, s) && s.timerStarted && IsLong(now)
    ensures WellFormed(font, t)
    ensures t.lastTimerCall == now && t.digits == s.digits
    ensures s.step < 7 ==> t.timerStarted && t.step == s.step + 1 && t.oldDigits == s.oldDigits
    ensures s.step == 7 ==> !t.timerStarted && Idle(font, t)
  {
    if s.step + 1 > 7 then
      ClockState(Settled(font, s.digits), s.digits, s.digits, 0, now, false)
    else
      ClockState(Frames(font, s), s.digits, s.oldDigits, s.step + 1, now, s.timerStarted)
  }

  /** One call of the timer's handle: a committed tick when the gate passes, otherwise nothing. */
  function TickSpec(font: Font, s: ClockState, now: int): (t: ClockState)
    requires WellFormed(font, s) && s.timerStarted && IsLong(now)
    ensures WellFormed(font, t)
    ensures !GatePasses(s.lastTimerCall, now) ==> t == s
    ensures GatePasses(s.lastTimerCall, now) ==> t.lastTimerCall == now
  {
    if GatePasses(s.lastTimerCall, now) then Commit(font, s, now) else s
  }

  /** On a committed tick before the last, only changed slots move; unchanged slots and all digits stay put. */
  lemma CommitMorphsChangedSlots(font: Font, s: ClockState, now: int, i: int)
    requires WellFormed(font, s) && s.timerStarted && IsLong(now)
    requires 0 <= i < Slots && s.step < 7
    ensures Commit(font, s, now).digits == s.digits && Commit(font, s, now).oldDigits == s.oldDigits
    ensures Commit(font, s, now).step == s.step + 1
    ensures s.digits[i] != s.oldDigits[i] ==> Commit(font, s, now).bitmaps[i] == font.morph(s.digits[i], s.step)
    ensures s.digits[i] == s.oldDigits[i] ==> Commit(font, s, now).bitmaps[i] == s.bitmaps[i]
  {
  }

  /**
   * Settling causes no visual jump: on the tick that settles the face, every
   * morphing slot was already showing its target glyph in the frame just drawn.
   */
  lemma SettleShowsNoJump(font: Font, s: ClockState, i: int)
    requires EndsOnGlyph(font)
    requires WellFormed(font, s) && s.step == 7 && 0 <= i < Slots
    requires s.digits[i] != s.oldDigits[i]
    ensures Frames(font, s)[i] == Settled(font, s.digits)[i]
  {
  }

  /** The state after a run of committed ticks at the given times, at most up to the settling tick. */
  function CommitAll(font: Font, s: ClockState, nows: seq<int>): (t: ClockState)
    requires WellFormed(font, s) && s.timerStarted
    requires |nows| <= 8 - s.step
    requires forall k :: 0 <= k < |nows| ==> IsLong(nows[k])
    decreases |nows|
  {
    if |nows| == 0 then s
    else if |nows| == 1 then Commit(font, s, nows[0])
    else CommitAll(font, Commit(font, s, nows[0]), nows[1..])
  }

  /**
   * All six slots march in lockstep on the shared step: before the cycle ends,
   * each changed slot shows the morph frame of the last step taken and every
   * other slot its untouched bitmap; the tick that consumes frame 7 leaves the
   * face idle with the timer stopped.
   */
  lemma {:induction false} CommitsMarchInLockstep(font: Font, s: ClockState, nows: seq<int>)
    requires WellFormed(font, s) && s.timerStarted
    requires 0 < |nows| <= 8 - s.step
    requires forall k :: 0 <= k < |nows| ==> IsLong(nows[k])
    decreases |nows|
    ensures WellFormed(font, CommitAll(font, s, nows))
    ensures CommitAll(font, s, nows).digits == s.digits
    ensures CommitAll(font, s, nows).lastTimerCall == nows[|nows| - 1]
    ensures |nows| < 8 - s.step ==>
      CommitAll(font, s, nows).timerStarted &&
      CommitAll(font, s, nows).step == s.step + |nows| &&
      CommitAll(font, s, nows).oldDigits == s.oldDigits &&
      forall i :: 0 <= i < Slots ==>
        CommitAll(font, s, nows).bitmaps[i] ==
          if s.digits[i] != s.oldDigits[i] then font.morph(s.digits[i], s.step + |nows| - 1) else s.bitmaps[i]
    ensures |nows| == 8 - s.step ==> !CommitAll(font, s, nows).timerStarted && Idle(font, CommitAll(font, s, nows))
  {
    if |nows| > 1 {
      var s' := Commit(font, s, nows[0]);
      CommitsMarchInLockstep(font, s', nows[1..]);
      assert CommitAll(font, s, nows) == CommitAll(font, s', nows[1..]);
    }
  }

  /** A morph cycle started at step 0 stops the timer after exactly eight committed ticks. */
  lemma StopsAfterEightCommits(font: Font, s: ClockState, nows: seq<int>)
    requires WellFormed(font, s) && s.timerStarted && s.step == 0
    requires 0 < |nows| <= 8
    requires forall k :: 0 <= k < |nows| ==> IsLong(nows[k])
    ensures CommitAll(font, s, nows).timerStarted <==> |nows| < 8
    ensures |nows| == 8 ==> Idle(font, CommitAll(font, s, nows))
  {
    CommitsMarchInLockstep(font, s, nows);
  }

  // ---------------------------------------------------------------------------
  // The wall-clock update
  // ---------------------------------------------------------------------------

  predicate IsDigitChar(c: char)
  {
    '0' <= c <= '9'
  }

  /** Integer.parseInt of a one-character decimal string. */
  function DigitOf(c: char): (d: int)
    requires IsDigitChar(c)
    ensures IsDigit(d)
  {
    c as int - '0' as int
  }

  /** A formatted time HH:mm:ss (or hh:mm:ss): decimal digits at positions 0, 1, 3, 4, 6 and 7. */
  predicate IsTimeText(t: string)
  {
    |t| >= 8 &&
    IsDigitChar(t[0]) && IsDigitChar(t[1]) &&
    IsDigitChar(t[3]) && IsDigitChar(t[4]) &&
    IsDigitChar(t[6]) && IsDigitChar(t[7])
  }

  /** The six target digits read from a formatted time, one per slot. */
  function SlotDigits(t: string): (ds: seq<int>)
    requires IsTimeText(t)
    ensures |ds| == Slots && forall i :: 0 <= i < Slots ==> IsDigit(ds[i])
  {
    [DigitOf(t[0]), DigitOf(t[1]), DigitOf(t[3]), DigitOf(t[4]), DigitOf(t[6]), DigitOf(t[7])]
  }

  /** updateTime: new targets, the timer (re)started; settled digits, step, bitmaps and the gate untouched. */
  function UpdateTimeSpec(font: Font, s: ClockState, t: string): (r: ClockState)
    requires WellFormed(font, s) && IsTimeText(t)
    ensures WellFormed(font, r) && r.timerStarted
    ensures r.digits == SlotDigits(t)
    ensures r.oldDigits == s.oldDigits && r.step == s.step && r.bitmaps == s.bitmaps
    ensures r.lastTimerCall == s.lastTimerCall
  {
    s.(digits := SlotDigits(t), timerStarted := true)
  }

  /** The character of a decimal digit. */
  function DigitChar(d: int): (c: char)
    requires IsDigit(d)
    ensures IsDigitChar(c) && DigitOf(c) == d
  {
    ('0' as int + d) as char
  }

  /** A two-digit, zero-padded field, as the HH, mm and ss patterns print it. */
  function TwoDigits(n: int): (f: string)
    requires 0 <= n < 100
    ensures |f| == 2 && IsDigitChar(f[0]) && IsDigitChar(f[1])
  {
    [DigitChar(n / 10), DigitChar(n % 10)]
  }

  /** The text the HH:mm:ss pattern produces for a time of day. */
  function FormatTime(hours: int, minutes: int, seconds: int): (t: string)
    requires 0 <= hours < 24 && 0 <= minutes < 60 && 0 <= seconds < 60
    ensures |t| == 8 && t[2] == ':' && t[5] == ':'
  {
    TwoDigits(hours) + ":" + TwoDigits(minutes) + ":" + TwoDigits(seconds)
  }

  /** Reading the slots of a formatted time gives back the tens and units of each field. */
  lemma SlotDigitsOfFormattedTime(hours: int, minutes: int, seconds: int)
    requires 0 <= hours < 24 && 0 <= minutes < 60 && 0 <= seconds < 60
    ensures IsTimeText(FormatTime(hours, minutes, seconds))
    ensures SlotDigits(FormatTime(hours, minutes, seconds)) ==
      [hours / 10, hours % 10, minutes / 10, minutes % 10, seconds / 10, seconds % 10]
  {
    var t := FormatTime(hours, minutes, seconds);
    assert t[0] == DigitChar(hours / 10) && t[1] == DigitChar(hours % 10);
    assert t[3] == DigitChar(minutes / 10) && t[4] == DigitChar(minutes % 10);
    assert t[6] == DigitChar(seconds / 10) && t[7] == DigitChar(seconds % 10);
  }

  /**
   * With the skin's tables, the first frame a changed slot shows after a new
   * time reaches an idle face is the glyph of the new digit's predecessor; it
   * continues from the glyph on screen exactly when the digit counted up by one.
   */
  lemma FirstFrameAfterUpdate(s: ClockState, t: string, now: int, i: int)
    requires WellFormed(SkinFont(), s) && Idle(SkinFont(), s)
    requires IsTimeText(t) && IsLong(now) && 0 <= i < Slots
    requires SlotDigits(t)[i] != s.digits[i]
    ensures Commit(SkinFont(), UpdateTimeSpec(SkinFont(), s, t), now).bitmaps[i] == Glyph(Predecessor(SlotDigits(t)[i]))
    ensures Commit(SkinFont(), UpdateTimeSpec(SkinFont(), s, t), now).bitmaps[i] == s.bitmaps[i]
      <==> s.digits[i] == Predecessor(SlotDigits(t)[i])
  {
    var d := SlotDigits(t)[i];
    var u := UpdateTimeSpec(SkinFont(), s, t);
    CommitMorphsChangedSlots(SkinFont(), u, now, i);
    MorphStartsOnPredecessor(d);
    MorphStartsFromShownGlyph(s.digits[i], d);
  }

  /**
   * A new time that arrives while a cycle is under way joins it at the current
   * step: the next committed frame of a slot whose new digit differs from its
   * settled digit is the morph frame at that step, not frame 0.
   */
  lemma UpdateJoinsAtCurrentStep(font: Font, s: ClockState, t: string, now: int, i: int)
    requires WellFormed(font, s) && s.step < 7
    requires IsTimeText(t) && IsLong(now) && 0 <= i < Slots
    requires SlotDigits(t)[i] != s.oldDigits[i]
    ensures Commit(font, UpdateTimeSpec(font, s, t), now).bitmaps[i] == font.morph(SlotDigits(t)[i], s.step)
    ensures Commit(font, UpdateTimeSpec(font, s, t), now).step == s.step + 1
  {
    CommitMorphsChangedSlots(font, UpdateTimeSpec(font, s, t), now, i);
  }

  // ---------------------------------------------------------------------------
  // The skin's fields and methods
  // ---------------------------------------------------------------------------

  /** Slot indices: hour left, hour right, minute left, minute right, second left, second right. */
  const HourLeft: nat := 0
  const HourRight: nat := 1
  const MinLeft: nat := 2
  const MinRight: nat := 3
  const SecLeft: nat := 4
  const SecRight: nat := 5

  class Controller {
    /** The tables the skin looks its frames up in; the constructor fixes them to SkinFont(). */
    const font: Font
    /** hl, hr, ml, mr, sl, sr: the bitmap each slot shows, by slot index. */
    var bitmaps: seq<Bitmap>
    /** hourLeft ... secRight: the target digit of each slot. */
    var digits: seq<int>
    /** oldHourLeft ... oldSecRight: the digit each slot last settled on. */
    var oldDigits: seq<int>
    var step: int
    var lastTimerCall: int
    var timerStarted: bool

    /** The fields viewed as a ClockState. */
    function State(): ClockState
      reads this
    {
      ClockState(bitmaps, digits, oldDigits, step, lastTimerCall, timerStarted)
    }

    ghost predicate Valid()
      reads this
    {
      WellFormed(font, State())
    }

    /** Fresh 15 x 8 arrays, all digits 0, the timer started. */
    constructor ()
      ensures Valid() && State() == Initial() && font == SkinFont()
    {
      font := SkinFont();
      bitmaps := [Blank, Blank, Blank, Blank, Blank, Blank];
      digits := ZeroDigits;
      oldDigits := ZeroDigits;
      step := 0;
      lastTimerCall := 0;
      timerStarted := true;
      new;
      InitialWellFormed(font);
    }

    /**
     * The body of the animation timer's handle. Called by the platform only
     * while the timer runs. Returns the six bitmaps drawn, if a frame was
     * committed.
     */
    method Tick(now: int) returns (drawn: Option<seq<Bitmap>>)
      requires Valid() && timerStarted && IsLong(now)
      modifies this
      ensures State() == TickSpec(font, old(State()), now)
      ensures Valid()
      ensures drawn == if GatePasses(old(lastTimerCall), now) then Some(Frames(font, old(State()))) else None
    {
      if now > AddLong(lastTimerCall, Interval) {
        MorphChangedSlots();
        drawn := Some(bitmaps);
        step := step + 1;
        if step > 7 {
          step := 0;
          UpdateArrays();
          oldDigits := digits;
          timerStarted := false;
        }
        lastTimerCall := now;
      } else {
        drawn := None;
      }
    }

    /** The six guarded animateArray calls of handle, one per slot. */
    method MorphChangedSlots()
      requires HasSixSlots(State())
      modifies this`bitmaps
      ensures bitmaps == Frames(font, old(State()))
    {
      MorphSlot(HourLeft);
      MorphSlot(HourRight);
      MorphSlot(MinLeft);
      MorphSlot(MinRight);
      MorphSlot(SecLeft);
      MorphSlot(SecRight);
    }

    /** One slot of the morph part of handle: the target's frame at the current step if the target differs from the settled digit. */
    method MorphSlot(i: nat)
      requires i < Slots && |bitmaps| == |digits| == |oldDigits| == Slots
      modifies this`bitmaps
      ensures bitmaps == old(bitmaps)[i := NextFrame(font, old(bitmaps)[i], digits[i], oldDigits[i], step)]
    {
      if digits[i] != oldDigits[i] {
        bitmaps := bitmaps[i := font.morph(digits[i], step)];
      }
    }

    /** Sets every bitmap to the glyph of its slot's target digit. */
    method UpdateArrays()
      requires |digits| == Slots
      modifies this`bitmaps
      ensures bitmaps == Settled(font, digits)
    {
      bitmaps := [font.glyph(digits[HourLeft]), font.glyph(digits[HourRight]),
                  font.glyph(digits[MinLeft]), font.glyph(digits[MinRight]),
                  font.glyph(digits[SecLeft]), font.glyph(digits[SecRight])];
    }

    /**
     * The digit-setting part of updateTime, given the already formatted time.
     * Returns whether the timer had to be started.
     */
    method UpdateTime(t: string) returns (started: bool)
      requires Valid() && IsTimeText(t)
      modifies this
      ensures State() == UpdateTimeSpec(font, old(State()), t)
      ensures Valid()
      ensures started == !old(timerStarted)
    {
      digits := [DigitOf(t[0]), DigitOf(t[1]), DigitOf(t[3]), DigitOf(t[4]), DigitOf(t[6]), DigitOf(t[7])];
      started := !timerStarted;
      if started {
        timerStarted := true;
      }
    }
  }
}
