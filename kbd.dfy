/** The 5 x 5 key matrix (Core/Src/kbd.c, Core/Inc/kbd.h): five open-drain
  * drive lines and five pulled-up sense lines. A key joins one drive line to
  * one sense line; `KBD_Read` pulls the drive lines low one at a time and
  * reports the first sense line it finds low. */
module Kbd {
  import opened Common

  /** Key codes of the key enum: 1 + 5 * sense line + drive line. */
  const KEY_NONE: int := 0
  const KEY_F4: int := 1
  const KEY_F3: int := 2
  const KEY_F2: int := 3
  const KEY_F1: int := 4
  const KEY_VOLT: int := 5
  const KEY_F5: int := 6
  const KEY_LEFT: int := 7
  const KEY_MATH: int := 8
  const KEY_SAVE: int := 9
  const KEY_AMP: int := 10
  const KEY_DUAL: int := 11
  const KEY_RANGE: int := 12
  const KEY_UTIL: int := 13
  const KEY_REC: int := 14
  const KEY_OHM: int := 15
  const KEY_EXIT: int := 16
  const KEY_DOWN: int := 17
  const KEY_UP: int := 18
  const KEY_RUN: int := 19
  const KEY_CAP: int := 20
  const KEY_TEMP: int := 21
  const KEY_SPARE: int := 22
  const KEY_RIGHT: int := 23
  const KEY_PORT: int := 24
  const KEY_FREQ: int := 25

  /** Number of drive lines and of sense lines. */
  const LINES: int := 5

  /** Which keys are held down: `pressed(drive, sense)`. Sampled by the
    * scan; the board itself is not part of this model. */
  type Matrix = (int, int) -> bool

  /** The code of the key on drive line `d` and sense line `s`. */
  function KeyCode(d: int, s: int): int { 1 + 5 * s + d }

  /** The drive and sense line a key code names. */
  function DriveOf(key: int): int { (key - 1) % 5 }
  function SenseOf(key: int): int { (key - 1) / 5 }

  /** Key codes and line pairs are in one-to-one correspondence. */
  lemma KeyCodeRoundTrip(d: int, s: int)
    requires 0 <= d < LINES && 0 <= s < LINES
    ensures 1 <= KeyCode(d, s) <= 25
    ensures DriveOf(KeyCode(d, s)) == d && SenseOf(KeyCode(d, s)) == s
  {
  }

  lemma KeyDecodeRoundTrip(key: int)
    requires 1 <= key <= 25
    ensures 0 <= DriveOf(key) < LINES && 0 <= SenseOf(key) < LINES
    ensures KeyCode(DriveOf(key), SenseOf(key)) == key
  {
  }

  /** The first sense line at or after `s` that shows a key on drive line `d`,
    * or `LINES` when there is none. */
  function FirstSense(m: Matrix, d: int, s: int): (r: int)
    requires 0 <= s <= LINES
    ensures s <= r <= LINES
    ensures r < LINES ==> m(d, r)
    ensures forall t :: s <= t < r ==> !m(d, t)
    decreases LINES - s
  {
    if s == LINES then LINES
    else if m(d, s) then s
    else FirstSense(m, d, s + 1)
  }

  /** The key the scan finds, as its drive and sense line: drive lines from
    * `d` down to 0, sense lines from 0 up within each, first hit wins. */
  function Hit(m: Matrix, d: int): (h: Option<(int, int)>)
    requires -1 <= d < LINES
    decreases d + 1
  {
    if d < 0 then None
    else
      var s := FirstSense(m, d, 0);
      if s < LINES then Some((d, s)) else Hit(m, d - 1)
  }

  /** The code of the first key down on drive line `d`, or 0. */
  function LineKey(m: Matrix, d: int): int
  {
    var s := FirstSense(m, d, 0);
    if s < LINES then KeyCode(d, s) else KEY_NONE
  }

  /** What `KBD_Read` reports: the code of the key the scan from drive line
    * 4 finds, or 0. */
  function Read(m: Matrix): (key: int)
  {
    match Hit(m, LINES - 1)
    case None => KEY_NONE
    case Some((d, s)) => KeyCode(d, s)
  }

  /** The scan finds nothing exactly when no key at or below drive line `d`
    * is down. */
  lemma {:induction false} HitNone(m: Matrix, d: int)
    requires -1 <= d < LINES
    ensures Hit(m, d).None? <==> forall e, s :: 0 <= e <= d && 0 <= s < LINES ==> !m(e, s)
    decreases d + 1
  {
    if d >= 0 {
      var s := FirstSense(m, d, 0);
      if s == LINES {
        HitNone(m, d - 1);
      } else {
        assert m(d, s);
      }
    }
  }

  /** Otherwise it finds the key on the highest drive line that shows one,
    * on the lowest sense line that drive line shows. */
  lemma {:induction false} HitSome(m: Matrix, d: int)
    requires -1 <= d < LINES && Hit(m, d).Some?
    ensures var (e, s) := Hit(m, d).value;
      0 <= e <= d && 0 <= s < LINES && m(e, s)
      && (forall t :: 0 <= t < s ==> !m(e, t))
      && (forall f, t :: e < f <= d && 0 <= t < LINES ==> !m(f, t))
    decreases d + 1
  {
    if FirstSense(m, d, 0) == LINES {
      HitSome(m, d - 1);
    }
  }

  /** The key code that reaches the application is 0 when no key is down, and
    * otherwise lies in 1..25 and names a key that is down. */
  lemma ReadMeaning(m: Matrix)
    ensures Read(m) == KEY_NONE <==> forall d, s :: 0 <= d < LINES && 0 <= s < LINES ==> !m(d, s)
    ensures Read(m) != KEY_NONE ==> 1 <= Read(m) <= 25 && m(DriveOf(Read(m)), SenseOf(Read(m)))
  {
    HitNone(m, LINES - 1);
    if Hit(m, LINES - 1).Some? {
      HitSome(m, LINES - 1);
      var (d, s) := Hit(m, LINES - 1).value;
      KeyCodeRoundTrip(d, s);
    }
  }

  /** The drive lines a scan pulls low, in order: from `d` down to the line
    * on which it finds a key, or down to 0. */
  function Lowered(m: Matrix, d: int): (ds: seq<int>)
    requires -1 <= d < LINES
    decreases d + 1
  {
    if d < 0 then []
    else if FirstSense(m, d, 0) < LINES then [d]
    else [d] + Lowered(m, d - 1)
  }

  /** Each drive line is pulled low at most once, counting down from `d`. */
  lemma {:induction false} LoweredCountsDown(m: Matrix, d: int)
    requires -1 <= d < LINES
    ensures |Lowered(m, d)| <= d + 1
    ensures forall i :: 0 <= i < |Lowered(m, d)| ==> Lowered(m, d)[i] == d - i
    decreases d + 1
  {
    if d >= 0 && FirstSense(m, d, 0) == LINES {
      LoweredCountsDown(m, d - 1);
    }
  }

  /** One drive line of the scan: either it shows a key, which ends the scan,
    * or the scan goes on with the next lower line. */
  lemma ScanStep(m: Matrix, d: int)
    requires 0 <= d < LINES
    ensures LineKey(m, d) == KEY_NONE ==> Lowered(m, d) == [d] + Lowered(m, d - 1) && Hit(m, d) == Hit(m, d - 1)
    ensures LineKey(m, d) != KEY_NONE ==>
      Lowered(m, d) == [d] && Hit(m, d).Some? && KeyCode(d, Hit(m, d).value.1) == LineKey(m, d) && Hit(m, d).value.0 == d
  {
  }

  /** Where the drive loop of `KBD_Read` stands after the lines above `d`:
    * with no key yet, the lines lowered so far followed by those still to
    * come make up the whole scan; with a key, the scan is complete and the
    * key is the one it finds. */
  ghost predicate Scanning(m: Matrix, d: int, key: int, lowered: seq<int>)
    requires -1 <= d < LINES
  {
    (key == KEY_NONE ==> lowered + Lowered(m, d) == Lowered(m, LINES - 1) && Hit(m, d) == Hit(m, LINES - 1))
    && (key != KEY_NONE ==>
          Hit(m, LINES - 1).Some? && lowered == Lowered(m, LINES - 1)
          && key == KeyCode(Hit(m, LINES - 1).value.0, Hit(m, LINES - 1).value.1))
  }

  /** Scanning drive line `d` keeps `Scanning`. */
  lemma ScanAdvance(m: Matrix, d: int, lowered: seq<int>)
    requires 0 <= d < LINES && Scanning(m, d, KEY_NONE, lowered)
    ensures Scanning(m, d - 1, LineKey(m, d), lowered + [d])
  {
    ScanStep(m, d);
    var rest := Lowered(m, d - 1);
    assert (lowered + [d]) + rest == lowered + ([d] + rest);
  }

  /** When the loop stops, the key and the lowered lines are the scan's. */
  lemma ScanDone(m: Matrix, d: int, key: int, lowered: seq<int>)
    requires -1 <= d < LINES && Scanning(m, d, key, lowered)
    requires d == -1 || key != KEY_NONE
    ensures key == Read(m) && lowered == Lowered(m, LINES - 1)
  {
    if key == KEY_NONE {
      assert Lowered(m, d) == [] && lowered + [] == lowered;
    }
  }

  /** The scan stops on the drive line of the key it finds, and pulls every
    * line low once when it finds none. */
  lemma {:induction false} LoweredEndsAtHit(m: Matrix, d: int)
    requires -1 <= d < LINES
    ensures Hit(m, d).Some? ==> |Lowered(m, d)| > 0 && Lowered(m, d)[|Lowered(m, d)| - 1] == Hit(m, d).value.0
    ensures Hit(m, d).None? ==> |Lowered(m, d)| == d + 1
    decreases d + 1
  {
    if d >= 0 && FirstSense(m, d, 0) == LINES {
      LoweredEndsAtHit(m, d - 1);
    }
  }

  /** How a pin is configured. */
  datatype PinMode = Unconfigured | OutputOpenDrain | InputPullUp

  /** The keypad's pins: drive levels (true = high, i.e. released), the output
    * latch of each sense pin, and each pin's configuration. */
  class Keypad {
    const drive: array<bool>
    const sense: array<bool>
    const driveMode: array<PinMode>
    const senseMode: array<PinMode>

    ghost predicate Valid()
      reads this
    {
      drive.Length == LINES && sense.Length == LINES && drive != sense
      && driveMode.Length == LINES && senseMode.Length == LINES && driveMode != senseMode
    }

    /** A sense line reads low when a drive line that is low right now is
      * joined to it by a pressed key; otherwise the pull-up holds it high. */
    predicate SenseLow(m: Matrix, s: int)
      reads this, drive
      requires Valid()
    {
      exists d | 0 <= d < LINES :: !drive[d] && m(d, s)
    }

    constructor ()
      ensures Valid() && fresh(drive) && fresh(sense) && fresh(driveMode) && fresh(senseMode)
    {
      drive := new bool[LINES](_ => false);
      sense := new bool[LINES](_ => false);
      driveMode := new PinMode[LINES](_ => Unconfigured);
      senseMode := new PinMode[LINES](_ => Unconfigured);
    }

    /** `KBD_Init`: every drive pin an open-drain output set high, every sense
      * pin a pulled-up input with its latch set high. */
    method Init()
      requires Valid()
      modifies drive, sense, driveMode, senseMode
      ensures Valid()
      ensures forall i :: 0 <= i < LINES ==> drive[i] && driveMode[i] == OutputOpenDrain
      ensures forall i :: 0 <= i < LINES ==> sense[i] && senseMode[i] == InputPullUp
    {
      for i := 0 to LINES
        invariant forall j :: 0 <= j < i ==> drive[j] && driveMode[j] == OutputOpenDrain
        invariant forall j :: 0 <= j < i ==> sense[j] && senseMode[j] == InputPullUp
      {
        driveMode[i] := OutputOpenDrain;
        drive[i] := true;
        senseMode[i] := InputPullUp;
        sense[i] := true;
      }
    }

    /** `KBD_Read`. The drive-line counter is a `uint8_t` counted down from 4;
      * the loop ends when it wraps to 255 or when a key was found. While a
      * drive line is scanned it is the only low one, so a sense line reads
      * low exactly for the keys on that line. */
    method ReadKey(m: Matrix) returns (key: int, ghost lowered: seq<int>)
      requires Valid()
      requires forall i :: 0 <= i < LINES ==> drive[i]
      modifies drive
      ensures Valid()
      ensures key == Read(m) && lowered == Lowered(m, LINES - 1)
      ensures forall i :: 0 <= i < LINES ==> drive[i]
    {
      key := KEY_NONE;
      lowered := [];
      var row := 4;
      ghost var d := 4;
      while row < 5 && key == KEY_NONE
        invariant -1 <= d < LINES && row == (if d < 0 then 255 else d)
        invariant forall i :: 0 <= i < LINES ==> drive[i]
        invariant Scanning(m, d, key, lowered)
        decreases d + 1
      {
        key := DriveAndScan(m, row);
        ScanAdvance(m, d, lowered);
        lowered := lowered + [row];
        row := if row == 0 then 255 else row - 1;
        d := d - 1;
      }
      ScanDone(m, d, key, lowered);
    }

    /** One pass of the drive loop of `KBD_Read`: line `d` low, its sense
      * lines scanned, line `d` high again. */
    method DriveAndScan(m: Matrix, d: int) returns (key: int)
      requires Valid() && 0 <= d < LINES
      requires forall i :: 0 <= i < LINES ==> drive[i]
      modifies drive
      ensures Valid() && forall i :: 0 <= i < LINES ==> drive[i]
      ensures key == LineKey(m, d)
    {
      drive[d] := false;
      key := ScanLine(m, d);
      drive[d] := true;
    }

    /** The sense loop of `KBD_Read` while drive line `d` is the only low one:
      * the code of the first sense line that reads low, or 0. */
    method ScanLine(m: Matrix, d: int) returns (key: int)
      requires Valid() && 0 <= d < LINES
      requires forall i :: 0 <= i < LINES ==> drive[i] == (i != d)
      ensures key == LineKey(m, d)
    {
      key := KEY_NONE;
      var col := 0;
      while col < 5
        invariant 0 <= col <= 5
        invariant forall t :: 0 <= t < col ==> !m(d, t)
      {
        var low := SenseLowAt(m, d, col);
        if low {
          key := 1 + 5 * col + d;
          return;
        }
        col := col + 1;
      }
    }

    /** `HAL_GPIO_ReadPin` of a sense line while only drive line `d` is low. */
    method SenseLowAt(m: Matrix, d: int, s: int) returns (low: bool)
      requires Valid() && 0 <= d < LINES
      requires forall i :: 0 <= i < LINES ==> drive[i] == (i != d)
      ensures low == SenseLow(m, s) && low == m(d, s)
    {
      low := exists e | 0 <= e < LINES :: !drive[e] && m(e, s);
    }
  }
}
