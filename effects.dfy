/**
 * The effect sequencer (effects.cpp): which effect runs, its five uint16
 * scratch slots, the brightness, and the time of the last animation step.
 * `ProcessEffect` advances the running effect by at most one step per call.
 *
 * The clock (`millis()`) is the parameter `now`, read once per call, and
 * `rand()` is the parameter `rand`: `rand(k)` is the value of the k-th call
 * to `rand()` made during that call of `ProcessEffect`.
 */
module Effects {
  import opened Geometry
  import opened Draw
  import opened Utils

  const EFFECTS_COUNT: uint8 := 5
  const MAX_BRIGHTNESS: uint8 := 10
  const NO_EFFECT_ACTIVE: uint8 := 0xFF

  const Z: uint16 := AXIS_Z as int
  const Y: uint16 := AXIS_Y as int
  const X: uint16 := AXIS_X as int

  /** `a + b` and `a - b` in `uint16_t` arithmetic. */
  function Add16(a: uint16, b: int): uint16 { (a + b) % 0x1_0000 }
  function Sub16(a: int, b: int): uint16 { (a - b) % 0x1_0000 }

  /** Slots 0, 1 and 2 of `effectState`, the only ones an effect uses. */
  datatype Slots = Slots(s0: uint16, s1: uint16, s2: uint16)

  /** A uint16 slot passed where draw.cpp takes a `uint8_t`: its low byte. */
  function Low8(v: uint16): uint8 {
    v % 0x100
  }

  /** The axis of the plane effects 2 and 3 draw for axis slot `a`: Z, Y, and X for any other value. */
  function PlaneAxis(a: uint16): uint8 {
    if a == Z then AXIS_Z else if a == Y then AXIS_Y else AXIS_X
  }

  // ---------------------------------------------------------------------------
  // Plane bounce (effect 2) and sticky plane bounce (effect 3)
  // ---------------------------------------------------------------------------

  /** Effects 2 and 3 start on an axis slot of 0 by choosing the Z axis. */
  function WithDefaultAxis(s: Slots): (r: Slots)
    ensures r.s0 != 0 && r.s1 == s.s1 && r.s2 == s.s2
    ensures s.s0 == 0 ==> r.s0 == Z
    ensures s.s0 != 0 ==> r == s
  {
    if s.s0 == 0 then s.(s0 := Z) else s
  }

  /** The axis after a full bounce cycle: Z to Y to X to Z; any other value stays. */
  function NextAxis(a: uint16): (r: uint16)
    ensures a in {X, Y, Z} ==> r in {X, Y, Z} && r != a
    ensures a !in {X, Y, Z} ==> r == a
  {
    if a == Z then Y else if a == Y then X else if a == X then Z else a
  }

  /** The axis cycle visits all three axes and returns after three rounds. */
  lemma NextAxisCycle(a: uint16)
    requires a in {X, Y, Z}
    ensures NextAxis(a) in {X, Y, Z} && NextAxis(a) != a
    ensures NextAxis(NextAxis(a)) != a
    ensures NextAxis(NextAxis(NextAxis(a))) == a
  {
  }

  /**
   * The slots after one step of the plane bounce that does not finish:
   * s0 = axis, s1 = position, s2 = counter. At position 0 with counter 4
   * the axis moves on and the counter restarts; otherwise an even counter
   * moves the plane up and an odd one moves it down, and the counter grows
   * when the plane reaches the far end of its run.
   */
  function BounceNext(s: Slots): Slots {
    if s.s1 == 0 && s.s2 == 4 then
      if s.s0 in {X, Y, Z} then s.(s0 := NextAxis(s.s0), s2 := 0) else s
    else if s.s2 % 2 == 0 then
      var p := Add16(s.s1, 1);
      s.(s1 := p, s2 := if p == 7 then Add16(s.s2, 1) else s.s2)
    else
      var p := Sub16(s.s1, 1);
      s.(s1 := p, s2 := if p == 0 then Add16(s.s2, 1) else s.s2)
  }

  /**
   * The bounce's slot invariant: a valid axis, the position in 0..7, the
   * counter in 0..4, an upward run (even counter) below 7, a downward run
   * (odd counter) above 0, and counter 4 only at position 0.
   */
  predicate BounceInv(s: Slots) {
    && s.s0 in {X, Y, Z}
    && s.s1 <= 7
    && s.s2 <= 4
    && (s.s2 % 2 == 0 ==> s.s1 < 7)
    && (s.s2 % 2 == 1 ==> s.s1 > 0)
    && (s.s2 == 4 ==> s.s1 == 0)
  }

  /** The bounce starts, from zeroed slots, inside its invariant. */
  lemma BounceStartsValid()
    ensures BounceInv(WithDefaultAxis(Slots(0, 0, 0)))
  {
  }

  /** One bounce step keeps the invariant and moves exactly as described. */
  lemma BounceStep(s: Slots)
    requires BounceInv(s)
    ensures BounceInv(BounceNext(s))
    ensures s.s1 == 0 && s.s2 == 4 ==> BounceNext(s) == Slots(NextAxis(s.s0), 0, 0)
    ensures !(s.s1 == 0 && s.s2 == 4) ==>
      && BounceNext(s).s0 == s.s0
      && BounceNext(s).s1 == (if s.s2 % 2 == 0 then s.s1 + 1 else s.s1 - 1)
      && (BounceNext(s).s2 == s.s2 + 1 <==> BounceNext(s).s1 in {0, 7})
      && (BounceNext(s).s2 == s.s2 <==> BounceNext(s).s1 !in {0, 7})
  {
  }

  /** `n` steps of `step` from `s`. */
  function After(step: Slots -> Slots, n: nat, s: Slots): Slots {
    if n == 0 then s else After(step, n - 1, step(s))
  }

  lemma {:induction false} AfterAdd(step: Slots -> Slots, m: nat, n: nat, s: Slots)
    ensures After(step, m + n, s) == After(step, n, After(step, m, s))
  {
    if m > 0 {
      AfterAdd(step, m - 1, n, step(s));
    }
  }

  /** `n` bounce steps that do not finish. */
  function BounceAfter(n: nat, s: Slots): Slots {
    After(BounceNext, n, s)
  }

  /** An upward run from position p ends after 7 - p steps at position 7, with the counter one higher. */
  lemma {:induction false} BounceRunUp(s: Slots)
    requires s.s2 in {0, 2} && s.s1 < 7
    ensures BounceAfter(7 - s.s1, s) == Slots(s.s0, 7, s.s2 + 1)
    decreases 7 - s.s1
  {
    var t := BounceNext(s);
    assert BounceAfter(7 - s.s1, s) == BounceAfter(7 - t.s1, t);
    if s.s1 < 6 {
      BounceRunUp(t);
    }
  }

  /** A downward run from position p ends after p steps at position 0, with the counter one higher. */
  lemma {:induction false} BounceRunDown(s: Slots)
    requires s.s2 in {1, 3} && 0 < s.s1 <= 7
    ensures BounceAfter(s.s1, s) == Slots(s.s0, 0, s.s2 + 1)
    decreases s.s1
  {
    var t := BounceNext(s);
    assert BounceAfter(s.s1, s) == BounceAfter(t.s1, t);
    if s.s1 > 1 {
      BounceRunDown(t);
    }
  }

  /** One round trip: 14 steps from position 0 with counter 0 or 2 return to position 0 with the counter two higher. */
  lemma BounceRoundTrip(a: uint16, c: uint16)
    requires c in {0, 2}
    ensures BounceAfter(14, Slots(a, 0, c)) == Slots(a, 0, c + 2)
  {
    BounceRunUp(Slots(a, 0, c));
    BounceRunDown(Slots(a, 7, c + 1));
    AfterAdd(BounceNext, 7, 7, Slots(a, 0, c));
  }

  /**
   * A full bounce cycle: two round trips (up and down, 7 steps each), then
   * one step that moves on to the next axis: 29 steps from (axis, 0, 0)
   * lead to (NextAxis(axis), 0, 0).
   */
  lemma BounceCycle(a: uint16)
    requires a in {X, Y, Z}
    ensures BounceAfter(29, Slots(a, 0, 0)) == Slots(NextAxis(a), 0, 0)
  {
    var s0 := Slots(a, 0, 0);
    BounceRoundTrip(a, 0);
    BounceRoundTrip(a, 2);
    AfterAdd(BounceNext, 14, 14, s0);
    AfterAdd(BounceNext, 28, 1, s0);
    assert BounceAfter(1, Slots(a, 0, 4)) == Slots(NextAxis(a), 0, 0);
  }

  /**
   * A finish request is served within 7 steps: from any valid state the
   * plane reaches position 0 or 7 after at most 6 steps that do not finish,
   * and the step that starts there finishes.
   */
  lemma BounceReachesEnd(s: Slots) returns (n: nat)
    requires BounceInv(s)
    ensures n <= 6
    ensures BounceAfter(n, s).s1 in {0, 7}
    ensures forall m | 0 <= m < n :: BounceAfter(m, s).s1 !in {0, 7}
  {
    if s.s1 in {0, 7} {
      n := 0;
    } else if s.s2 % 2 == 0 {
      n := 7 - s.s1;
      BounceRunUp(s);
      BounceMidRun(s, n);
    } else {
      n := s.s1;
      BounceRunDown(s);
      BounceMidRun(s, n);
    }
  }

  /** Inside a run the plane is strictly between the two ends. */
  lemma {:induction false} BounceMidRun(s: Slots, n: nat)
    requires BounceInv(s) && 0 < s.s1 < 7
    requires n == if s.s2 % 2 == 0 then 7 - s.s1 else s.s1
    ensures forall m | 0 <= m < n :: BounceAfter(m, s).s1 !in {0, 7}
    decreases n
  {
    if n > 1 {
      var t := BounceNext(s);
      BounceMidRun(t, n - 1);
      forall m | 0 < m < n
        ensures BounceAfter(m, s).s1 !in {0, 7}
      {
        assert BounceAfter(m, s) == BounceAfter(m - 1, t);
      }
    }
  }

  /**
   * The slots after one step of the sticky plane bounce that does not
   * finish: s0 = axis, s1 = position, s2 = counter. At position 7 with
   * counter 1 the axis moves on and position and counter restart;
   * otherwise the position advances, wrapping from 8 to 0 and then
   * counting the wrap.
   */
  function StickyNext(s: Slots): Slots {
    if s.s1 == 7 && s.s2 == 1 then
      if s.s0 in {X, Y, Z} then Slots(NextAxis(s.s0), 0, 0) else s
    else
      var p := Add16(s.s1, 1);
      if p == 8 then s.(s1 := 0, s2 := Add16(s.s2, 1)) else s.(s1 := p)
  }

  /** The sticky bounce's slot invariant: a valid axis, position in 0..7, counter 0 or 1. */
  predicate StickyInv(s: Slots) {
    s.s0 in {X, Y, Z} && s.s1 <= 7 && s.s2 <= 1
  }

  lemma StickyStep(s: Slots)
    requires StickyInv(s)
    ensures StickyInv(StickyNext(s))
    ensures s.s1 == 7 && s.s2 == 1 ==> StickyNext(s) == Slots(NextAxis(s.s0), 0, 0)
    ensures s.s1 < 7 ==> StickyNext(s) == s.(s1 := s.s1 + 1)
    ensures s.s1 == 7 && s.s2 == 0 ==> StickyNext(s) == Slots(s.s0, 0, 1)
  {
  }

  /** `n` sticky-bounce steps that do not finish. */
  function StickyAfter(n: nat, s: Slots): Slots {
    After(StickyNext, n, s)
  }

  /** Within a pass the position advances one layer per step. */
  lemma {:induction false} StickyRun(s: Slots, n: nat)
    requires s.s1 + n <= 7
    ensures StickyAfter(n, s) == s.(s1 := s.s1 + n)
    decreases n
  {
    if n > 0 {
      StickyRun(s.(s1 := s.s1 + 1), n - 1);
    }
  }

  /**
   * A full sticky cycle: 8 steps setting planes 0..7, 8 steps clearing
   * them, the last of which moves on to the next axis: 16 steps from
   * (axis, 0, 0) lead to (NextAxis(axis), 0, 0).
   */
  lemma StickyCycle(a: uint16)
    requires a in {X, Y, Z}
    ensures StickyAfter(16, Slots(a, 0, 0)) == Slots(NextAxis(a), 0, 0)
  {
    var s0 := Slots(a, 0, 0);
    StickyRun(s0, 7);
    var s1 := Slots(a, 7, 0);
    var s2 := Slots(a, 0, 1);
    assert StickyNext(s1) == s2;
    StickyRun(s2, 7);
    var s3 := Slots(a, 7, 1);
    AfterAdd(StickyNext, 7, 1, s0);
    AfterAdd(StickyNext, 8, 7, s0);
    AfterAdd(StickyNext, 15, 1, s0);
    assert StickyAfter(1, s3) == StickyNext(s3);
  }

  /**
   * A finish request is served within 16 steps: from any valid state the
   * sticky bounce reaches position 7 of its clearing pass, the only state
   * in which it finishes, after at most 15 steps that do not finish, and
   * it is not there before.
   */
  lemma StickyReachesEnd(s: Slots) returns (n: nat)
    requires StickyInv(s)
    ensures n <= 15
    ensures StickyAfter(n, s) == Slots(s.s0, 7, 1)
    ensures forall m | 0 <= m < n :: !(StickyAfter(m, s).s1 == 7 && StickyAfter(m, s).s2 == 1)
  {
    var k := 7 - s.s1;
    StickyRun(s, k);
    if s.s2 == 1 {
      n := k;
      forall m | 0 <= m < n
        ensures StickyAfter(m, s).s1 < 7
      {
        StickyRun(s, m);
      }
    } else {
      var t := Slots(s.s0, 0, 1);
      assert StickyAfter(1, s.(s1 := 7)) == t;
      AfterAdd(StickyNext, k, 1, s);
      StickyRun(t, 7);
      AfterAdd(StickyNext, k + 1, 7, s);
      n := k + 8;
      forall m | 0 <= m < n
        ensures !(StickyAfter(m, s).s1 == 7 && StickyAfter(m, s).s2 == 1)
      {
        if m <= k {
          StickyRun(s, m);
        } else {
          StickyRun(t, m - k - 1);
          AfterAdd(StickyNext, k + 1, m - k - 1, s);
        }
      }
    }
  }

  // ---------------------------------------------------------------------------
  // Rain (effect 0) and random toggle (effect 1)
  // ---------------------------------------------------------------------------

  /**
   * Coordinate `k` (0 = x, 1 = y, ...) of the i-th random voxel of a step
   * that draws `per` values per voxel. C++ leaves the order in which the
   * coordinate arguments are evaluated open; as `rand` is arbitrary, taking
   * x first only renumbers the draws.
   */
  function RandomCoord(rand: nat -> nat, per: nat, i: nat, k: nat): uint8 {
    rand(1 + per * i + k) % LAYER_COUNT as int
  }

  /** Column (x, y) receives one of the first `n` rain drops (two `rand()` calls each, after the first). */
  predicate Dropped(rand: nat -> nat, n: nat, x: int, y: int) {
    n > 0 && (Dropped(rand, n - 1, x, y) || (RandomCoord(rand, 2, n - 1, 0) == x && RandomCoord(rand, 2, n - 1, 1) == y))
  }

  /** The columns of the first `n` rain drops. */
  function Drops(rand: nat -> nat, n: nat): (r: set<(int, int)>)
    ensures |r| <= n
  {
    if n == 0 then {} else Drops(rand, n - 1) + {(RandomCoord(rand, 2, n - 1, 0), RandomCoord(rand, 2, n - 1, 1))}
  }

  /** The drops of a rain step fall in at most three distinct columns, the members of `Drops`. */
  lemma {:induction false} DroppedColumns(rand: nat -> nat, n: nat)
    ensures forall x, y :: Dropped(rand, n, x, y) <==> (x, y) in Drops(rand, n)
    ensures n <= 3 ==> |Drops(rand, n)| <= 3
  {
    if n > 0 {
      DroppedColumns(rand, n - 1);
    }
  }

  /** How many of the first `n` toggles (three `rand()` calls each, after the first) hit voxel (x, y, z). */
  function Hits(rand: nat -> nat, n: nat, x: int, y: int, z: int): (r: nat)
    ensures r <= n
  {
    if n == 0 then 0
    else
      var hit := RandomCoord(rand, 3, n - 1, 0) == x && RandomCoord(rand, 3, n - 1, 1) == y && RandomCoord(rand, 3, n - 1, 2) == z;
      Hits(rand, n - 1, x, y, z) + (if hit then 1 else 0)
  }

  /** Whether the first `n` toggles invert voxel (x, y, z) overall. */
  predicate Toggled(rand: nat -> nat, n: nat, x: int, y: int, z: int) {
    n > 0 &&
    var hit := RandomCoord(rand, 3, n - 1, 0) == x && RandomCoord(rand, 3, n - 1, 1) == y && RandomCoord(rand, 3, n - 1, 2) == z;
    Toggled(rand, n - 1, x, y, z) != hit
  }

  /** The toggles invert a voxel exactly when they hit it an odd number of times. */
  lemma {:induction false} ToggledOdd(rand: nat -> nat, n: nat, x: int, y: int, z: int)
    ensures Toggled(rand, n, x, y, z) <==> Hits(rand, n, x, y, z) % 2 == 1
  {
    if n > 0 {
      ToggledOdd(rand, n - 1, x, y, z);
    }
  }

  /** A voxel that none of the first `n` toggles targets is hit zero times. */
  lemma {:induction false} HitsMissed(rand: nat -> nat, n: nat, x: int, y: int, z: int)
    requires forall i | 0 <= i < n :: (RandomCoord(rand, 3, i, 0), RandomCoord(rand, 3, i, 1), RandomCoord(rand, 3, i, 2)) != (x, y, z)
    ensures Hits(rand, n, x, y, z) == 0
  {
    if n > 0 {
      HitsMissed(rand, n - 1, x, y, z);
    }
  }

  // ---------------------------------------------------------------------------
  // Blink (effect 4)
  // ---------------------------------------------------------------------------

  /** The blink's on step is due: LED state 0 and the delay (or its mirror `751 - delay`) elapsed. */
  predicate BlinkOnDue(s: Slots, dt: uint32) {
    s.s1 == 0 && ((s.s2 == 0 && dt >= s.s0) || dt >= Sub16(751, s.s0))
  }

  /** The blink's off step is due: LED state 1 and at least 100 ms elapsed. */
  predicate BlinkOffDue(s: Slots, dt: uint32) {
    dt >= 100 && s.s1 == 1
  }

  /** The delay slot after an off step, `d - (15 + 1000 / (d / 10))` in 16-bit unsigned arithmetic. */
  function BlinkNextDelay(d: uint16): uint16
    requires d / 10 != 0
  {
    Sub16(d, 15 + 1000 / (d / 10))
  }

  /**
   * The delay shrinks, without wrapping, exactly while it is at least 110;
   * from 10 to 109 the subtraction wraps around to a value near 65535.
   */
  lemma BlinkDelayShrinks(d: uint16)
    requires d >= 10
    ensures BlinkNextDelay(d) < d <==> d >= 110
    ensures d >= 110 ==> BlinkNextDelay(d) == d - (15 + 1000 / (d / 10))
    ensures d < 110 ==> BlinkNextDelay(d) == d - (15 + 1000 / (d / 10)) + 0x1_0000
  {
  }

  /**
   * An off step from a delay of at least 10 leads to a delay of 1..9, where
   * the next off step would divide by zero, only from the delays 110..114.
   */
  lemma OnlyFrom110(d: uint16)
    requires d >= 10 && !(110 <= d <= 114)
    ensures !(1 <= BlinkNextDelay(d) <= 9)
  {
    BlinkDelayShrinks(d);
    var q := d / 10;
    if d >= 115 {
      // 1000 / q is at most 90 once q is at least 11
      assert q >= 11 && (1000 / q) * q <= 1000;
    }
  }

  /** The delays from 750: it accelerates for 17 off steps, then 76 wraps to 65455. */
  lemma BlinkDelayTrace()
    ensures BlinkNextDelay(750) == 722 && BlinkNextDelay(722) == 694 && BlinkNextDelay(694) == 665
    ensures BlinkNextDelay(665) == 635 && BlinkNextDelay(635) == 605 && BlinkNextDelay(605) == 574
    ensures BlinkNextDelay(574) == 542 && BlinkNextDelay(542) == 509 && BlinkNextDelay(509) == 474
    ensures BlinkNextDelay(474) == 438 && BlinkNextDelay(438) == 400 && BlinkNextDelay(400) == 360
    ensures BlinkNextDelay(360) == 318 && BlinkNextDelay(318) == 271 && BlinkNextDelay(271) == 219
    ensures BlinkNextDelay(219) == 157 && BlinkNextDelay(157) == 76 && BlinkNextDelay(76) == 65455
    ensures Sub16(751, 65455) == 832
  {
    assert BlinkNextDelay(750) == 722;
    assert BlinkNextDelay(722) == 694;
    assert BlinkNextDelay(694) == 665;
    assert BlinkNextDelay(665) == 635;
    assert BlinkNextDelay(635) == 605;
    assert BlinkNextDelay(605) == 574;
    assert BlinkNextDelay(574) == 542;
    assert BlinkNextDelay(542) == 509;
    assert BlinkNextDelay(509) == 474;
    assert BlinkNextDelay(474) == 438;
    assert BlinkNextDelay(438) == 400;
    assert BlinkNextDelay(400) == 360;
    assert BlinkNextDelay(360) == 318;
    assert BlinkNextDelay(318) == 271;
    assert BlinkNextDelay(271) == 219;
    assert BlinkNextDelay(219) == 157;
    assert BlinkNextDelay(157) == 76;
  }

  /**
   * The sequencer's globals. The buffer `cube` is drawn on by the effects;
   * `effectState` is the `uint16_t effectState[5]` scratch array.
   */
  class Sequencer {
    const cube: Cube
    const effectState: array<uint16>
    var currentEffectIndex: uint8
    var previousEffectIndex: uint8
    var brightness: uint8
    var lastExecutionTime: uint32

    ghost predicate Valid() {
      cube.Valid() && effectState.Length == 5
    }

    /** Every voxel is off. */
    ghost predicate Dark()
      requires Valid()
      reads cube.buf
    {
      forall x, y, z | InRange(x, y, z) :: !cube.Lit(x, y, z)
    }

    /** Every voxel is on. */
    ghost predicate Bright()
      requires Valid()
      reads cube.buf
    {
      forall x, y, z | InRange(x, y, z) :: cube.Lit(x, y, z)
    }

    /** Slots 0..2 of `effectState`. */
    ghost function Used(): Slots
      requires Valid()
      reads effectState
    {
      Slots(effectState[0], effectState[1], effectState[2])
    }

    /** Slots 3 and 4, which no effect uses, are as they were. */
    twostate predicate SpareSlotsKept()
      requires Valid()
      reads effectState
    {
      effectState[3] == old(effectState[3]) && effectState[4] == old(effectState[4])
    }

    /** Neither the running effect, the previous one nor the brightness changed. */
    twostate predicate IdentityKept()
      reads this
    {
      && currentEffectIndex == old(currentEffectIndex)
      && previousEffectIndex == old(previousEffectIndex)
      && brightness == old(brightness)
    }

    /** The state `forceFinishEffect` leaves behind, from the state it started in. */
    twostate predicate Finished()
      requires Valid()
      reads this, effectState, cube.buf
    {
      && Dark()
      && (forall i | 0 <= i < 5 :: effectState[i] == 0)
      && previousEffectIndex == old(currentEffectIndex)
      && currentEffectIndex == NO_EFFECT_ACTIVE
      && brightness == old(brightness)
    }

    /** The globals as a reset microcontroller holds them. */
    constructor ()
      ensures Valid() && fresh(cube) && fresh(cube.buf) && fresh(effectState)
      ensures currentEffectIndex == NO_EFFECT_ACTIVE && previousEffectIndex == NO_EFFECT_ACTIVE
      ensures brightness == MAX_BRIGHTNESS && lastExecutionTime == 0
      ensures forall i | 0 <= i < 5 :: effectState[i] == 0
      ensures Dark()
    {
      cube := new Cube();
      effectState := new uint16[5](i => 0);
      currentEffectIndex := NO_EFFECT_ACTIVE;
      previousEffectIndex := NO_EFFECT_ACTIVE;
      brightness := MAX_BRIGHTNESS;
      lastExecutionTime := 0;
    }

    /**
     * `startEffect`: run effect `index` when it is a registered effect (an
     * unknown index leaves the running effect as it is); in every case the
     * buffer is cleared and the brightness reset. The scratch slots, the
     * previous effect and the time of the last step are left alone.
     */
    method StartEffect(index: uint8)
      requires Valid()
      modifies this, cube.buf
      ensures currentEffectIndex == if index < EFFECTS_COUNT then index else old(currentEffectIndex)
      ensures previousEffectIndex == old(previousEffectIndex)
      ensures brightness == MAX_BRIGHTNESS
      ensures lastExecutionTime == old(lastExecutionTime)
      ensures Dark()
    {
      if index < EFFECTS_COUNT {
        currentEffectIndex := index;
      }
      cube.Fill(0x00);
      brightness := MAX_BRIGHTNESS;
    }

    /**
     * `startEffect` as its note ("this will force finish the current
     * effect") describes it: as `StartEffect`, and the five slots are zeroed
     * as `forceFinishEffect` zeroes them, so the new effect starts from the
     * slot 0 of 0 from which effects 2, 3 and 4 initialise themselves.
     */
    method StartEffectReset(index: uint8)
      requires Valid()
      modifies this, effectState, cube.buf
      ensures currentEffectIndex == if index < EFFECTS_COUNT then index else old(currentEffectIndex)
      ensures previousEffectIndex == old(previousEffectIndex)
      ensures brightness == MAX_BRIGHTNESS
      ensures lastExecutionTime == old(lastExecutionTime)
      ensures Dark()
      ensures forall i | 0 <= i < 5 :: effectState[i] == 0
      ensures BlinkDelayDefined()
      ensures BounceInv(WithDefaultAxis(Used())) && StickyInv(WithDefaultAxis(Used()))
    {
      StartEffect(index);
      for i := 0 to 5
        modifies effectState
        invariant forall k | 0 <= k < i :: effectState[k] == 0
      {
        effectState[i] := 0;
      }
    }

    /** `getCurrentEffect`: the running effect, the sentinel exactly when none runs. */
    function CurrentEffect(): (r: uint8)
      reads this
      ensures r == NO_EFFECT_ACTIVE <==> IsEffectFinished()
    {
      currentEffectIndex
    }

    /** `getPreviousEffect`. */
    function PreviousEffect(): uint8
      reads this
    {
      previousEffectIndex
    }

    /** `isEffectFinished`: no effect is running. */
    predicate IsEffectFinished()
      reads this
      ensures IsEffectFinished() ==> currentEffectIndex !in {0, 1, 2, 3, 4}
    {
      currentEffectIndex == NO_EFFECT_ACTIVE
    }

    /**
     * `forceFinishEffect`: clear the buffer, zero all five slots (the
     * 10-byte `memset`), remember the running effect as the previous one
     * and mark that none runs.
     */
    method ForceFinishEffect()
      requires Valid()
      modifies this, effectState, cube.buf
      ensures Finished()
      ensures IsEffectFinished()
      ensures PreviousEffect() == old(CurrentEffect())
      ensures lastExecutionTime == old(lastExecutionTime)
    {
      cube.Fill(0x00);
      for i := 0 to 5
        modifies effectState
        invariant forall k | 0 <= k < i :: effectState[k] == 0
      {
        effectState[i] := 0;
      }
      previousEffectIndex := currentEffectIndex;
      currentEffectIndex := NO_EFFECT_ACTIVE;
    }

    /** The division in the blink's off step is defined: the delay slot is never 1..9 there. */
    ghost predicate BlinkDelayDefined()
      requires Valid()
      reads this, effectState
    {
      currentEffectIndex == 4 && effectState[1] == 1 ==> effectState[0] == 0 || effectState[0] >= 10
    }

    /**
     * `processEffect`: advance the running effect by one step once its
     * interval has elapsed since its last step (measured with
     * `getTimeDifference`). With no effect running nothing changes; an
     * effect only ever finishes into the state of `forceFinishEffect`; the
     * random toggle and the blink never finish.
     */
    method ProcessEffect(shouldFinish: bool, now: uint32, rand: nat -> nat)
      requires Valid()
      requires currentEffectIndex == 4 && effectState[1] == 1 && GetTimeDifference(lastExecutionTime, now) >= 100 ==>
        effectState[0] == 0 || effectState[0] >= 10
      modifies this, effectState, cube.buf
      ensures old(currentEffectIndex) >= EFFECTS_COUNT ==>
        unchanged(this) && unchanged(effectState) && unchanged(cube.buf)
      ensures Waiting(old(currentEffectIndex), old(Used()), GetTimeDifference(old(lastExecutionTime), now)) ==>
        unchanged(cube.buf) && lastExecutionTime == old(lastExecutionTime) && IdentityKept()
      ensures IdentityKept() || Finished()
      ensures old(currentEffectIndex) in {1, 4} ==> IdentityKept()
      ensures old(currentEffectIndex) == 0 ==>
        RainStepped(shouldFinish, GetTimeDifference(old(lastExecutionTime), now), now, rand)
      ensures old(currentEffectIndex) == 1 ==>
        ToggleStepped(GetTimeDifference(old(lastExecutionTime), now), now, rand)
      ensures old(currentEffectIndex) == 2 ==>
        BounceStepped(shouldFinish, GetTimeDifference(old(lastExecutionTime), now), now)
      ensures old(currentEffectIndex) == 3 ==>
        StickyStepped(shouldFinish, GetTimeDifference(old(lastExecutionTime), now), now)
      ensures old(currentEffectIndex) == 4 ==>
        BlinkStepped(GetTimeDifference(old(lastExecutionTime), now), now)
    {
      var deltaTime := GetTimeDifference(lastExecutionTime, now);
      if currentEffectIndex == 0 {
        Rain(shouldFinish, deltaTime, now, rand);
      } else if currentEffectIndex == 1 {
        RandomToggle(deltaTime, now, rand);
      } else if currentEffectIndex == 2 {
        PlaneBounce(shouldFinish, deltaTime, now);
      } else if currentEffectIndex == 3 {
        StickyPlaneBounce(shouldFinish, deltaTime, now);
      } else if currentEffectIndex == 4 {
        Blink(deltaTime, now);
      }
    }

    /** The outcome of one rain call (effect 0) that saw `dt` ms elapsed. */
    twostate predicate RainStepped(shouldFinish: bool, dt: uint32, now: uint32, rand: nat -> nat)
      requires Valid()
      reads this, effectState, cube.buf
    {
      if dt < 1000 then
        unchanged(this) && unchanged(effectState) && unchanged(cube.buf)
      else
        var count := if shouldFinish then Add16(old(effectState[0]), 1) else old(effectState[0]);
        && lastExecutionTime == now
        && if count == LAYER_COUNT as int then Finished()
           else
             && IdentityKept()
             && Used() == old(Used()).(s0 := count)
             && SpareSlotsKept()
             && forall x, y, z | InRange(x, y, z) ::
                  cube.Lit(x, y, z) == if z < 7 then old(cube.Lit(x, y, z + 1))
                                       else !shouldFinish && Dropped(rand, rand(0) % 4, x, y)
    }

    /** Light the top-layer voxels of the `rand() % 4` new rain drops. */
    method AddDrops(rand: nat -> nat)
      requires Valid()
      modifies cube.buf
      ensures forall x, y, z | InRange(x, y, z) ::
        cube.Lit(x, y, z) == (old(cube.Lit(x, y, z)) || (z == 7 && Dropped(rand, rand(0) % 4, x, y)))
    {
      var randomNumber := rand(0) % 4;
      var i := 0;
      while randomNumber > 0
        invariant 0 <= i <= rand(0) % 4 && randomNumber == rand(0) % 4 - i
        invariant forall x, y, z | InRange(x, y, z) ::
          cube.Lit(x, y, z) == (old(cube.Lit(x, y, z)) || (z == 7 && Dropped(rand, i, x, y)))
      {
        randomNumber := randomNumber - 1;
        cube.SetVoxel(RandomCoord(rand, 2, i, 0), RandomCoord(rand, 2, i, 1), LAYER_COUNT - 1);
        i := i + 1;
      }
    }

    /**
     * Rain (effect 0): every second the content falls one layer; then up to
     * three drops appear in the top layer, or, while a finish is requested,
     * slot 0 counts the steps, and the effect finishes when it reaches 8.
     */
    method Rain(shouldFinish: bool, dt: uint32, now: uint32, rand: nat -> nat)
      requires Valid() && currentEffectIndex == 0
      modifies this, effectState, cube.buf
      ensures RainStepped(shouldFinish, dt, now, rand)
    {
      if dt >= 1000 {
        cube.Shift(AXIS_Z, -1);
        if !shouldFinish {
          AddDrops(rand);
        } else {
          effectState[0] := Add16(effectState[0], 1);
        }
        if effectState[0] == LAYER_COUNT as int {
          ForceFinishEffect();
        }
        lastExecutionTime := now;
      }
    }

    /** The outcome of one random-toggle call (effect 1) that saw `dt` ms elapsed. */
    twostate predicate ToggleStepped(dt: uint32, now: uint32, rand: nat -> nat)
      requires Valid()
      reads this, effectState, cube.buf
    {
      && IdentityKept()
      && unchanged(effectState)
      && if dt < 500 then
           unchanged(cube.buf) && lastExecutionTime == old(lastExecutionTime)
         else
           && lastExecutionTime == now
           && forall x, y, z | InRange(x, y, z) ::
                cube.Lit(x, y, z) == (old(cube.Lit(x, y, z)) != Toggled(rand, rand(0) % 8, x, y, z))
    }

    /** Invert the `rand() % 8` randomly drawn voxels, one after the other. */
    method ToggleVoxels(rand: nat -> nat)
      requires Valid()
      modifies cube.buf
      ensures forall x, y, z | InRange(x, y, z) ::
        cube.Lit(x, y, z) == (old(cube.Lit(x, y, z)) != Toggled(rand, rand(0) % 8, x, y, z))
    {
      var randomNumber := rand(0) % LAYER_COUNT as int;
      var i := 0;
      while randomNumber > 0
        invariant 0 <= i <= rand(0) % 8 && randomNumber == rand(0) % 8 - i
        invariant forall x, y, z | InRange(x, y, z) ::
          cube.Lit(x, y, z) == (old(cube.Lit(x, y, z)) != Toggled(rand, i, x, y, z))
      {
        randomNumber := randomNumber - 1;
        cube.ToggleVoxel(RandomCoord(rand, 3, i, 0), RandomCoord(rand, 3, i, 1), RandomCoord(rand, 3, i, 2));
        i := i + 1;
      }
    }

    /**
     * Random toggle (effect 1): every 500 ms, `rand() % 8` random voxels are
     * inverted, so a voxel changes when it is drawn an odd number of times.
     * It ignores finish requests.
     */
    method RandomToggle(dt: uint32, now: uint32, rand: nat -> nat)
      requires Valid() && currentEffectIndex == 1
      modifies this, effectState, cube.buf
      ensures ToggleStepped(dt, now, rand)
    {
      if dt >= 500 {
        ToggleVoxels(rand);
        lastExecutionTime := now;
      }
    }

    /** Turn on the plane at `pos` along the axis in slot value `axis` (X for an unknown axis). */
    method SetPlane(axis: uint16, pos: uint16)
      requires Valid()
      modifies cube.buf
      ensures forall x, y, z | InRange(x, y, z) ::
        cube.Lit(x, y, z) == (AxisCoord(PlaneAxis(axis), x, y, z) == Low8(pos) || old(cube.Lit(x, y, z)))
    {
      if axis == Z {
        cube.SetPlaneZ(Low8(pos));
      } else if axis == Y {
        cube.SetPlaneY(Low8(pos));
      } else {
        cube.SetPlaneX(Low8(pos));
      }
    }

    /** Turn off the plane at `pos` along the axis in slot value `axis` (X for an unknown axis). */
    method ClrPlane(axis: uint16, pos: uint16)
      requires Valid()
      modifies cube.buf
      ensures forall x, y, z | InRange(x, y, z) ::
        cube.Lit(x, y, z) == (AxisCoord(PlaneAxis(axis), x, y, z) != Low8(pos) && old(cube.Lit(x, y, z)))
    {
      if axis == Z {
        cube.ClrPlaneZ(Low8(pos));
      } else if axis == Y {
        cube.ClrPlaneY(Low8(pos));
      } else {
        cube.ClrPlaneX(Low8(pos));
      }
    }

    /** Effects 2 and 3 choose the Z axis when the axis slot is 0. */
    method DefaultAxis()
      requires Valid()
      modifies effectState
      ensures Used() == WithDefaultAxis(old(Used())) && SpareSlotsKept()
    {
      if effectState[0] == 0 {
        effectState[0] := Z;
      }
    }

    /** The slot update of a plane-bounce step that does not finish. */
    method AdvanceBounce()
      requires Valid()
      modifies effectState
      ensures Used() == BounceNext(old(Used())) && SpareSlotsKept()
    {
      if effectState[1] == 0 && effectState[2] == 4 {
        if effectState[0] == Z {
          effectState[0] := Y;
          effectState[2] := 0;
        } else if effectState[0] == Y {
          effectState[0] := X;
          effectState[2] := 0;
        } else if effectState[0] == X {
          effectState[0] := Z;
          effectState[2] := 0;
        }
        return;
      }
      if effectState[2] % 2 == 0 {
        effectState[1] := Add16(effectState[1], 1);
        if effectState[1] == LAYER_COUNT as int - 1 {
          effectState[2] := Add16(effectState[2], 1);
        }
      } else {
        effectState[1] := Sub16(effectState[1], 1);
        if effectState[1] == 0 {
          effectState[2] := Add16(effectState[2], 1);
        }
      }
    }

    /** The outcome of one plane-bounce call (effect 2) that saw `dt` ms elapsed. */
    twostate predicate BounceStepped(shouldFinish: bool, dt: uint32, now: uint32)
      requires Valid()
      reads this, effectState, cube.buf
    {
      var s := WithDefaultAxis(old(Used()));
      if dt < 400 then
        && IdentityKept() && Used() == s && SpareSlotsKept()
        && unchanged(cube.buf) && lastExecutionTime == old(lastExecutionTime)
      else if (s.s1 == 0 || s.s1 == 7) && shouldFinish then
        Finished() && lastExecutionTime == old(lastExecutionTime)
      else
        && IdentityKept() && Used() == BounceNext(s) && SpareSlotsKept()
        && lastExecutionTime == now
        && forall x, y, z | InRange(x, y, z) ::
             cube.Lit(x, y, z) == (AxisCoord(PlaneAxis(s.s0), x, y, z) == Low8(s.s1))
    }

    /**
     * Plane bounce (effect 2): every 400 ms exactly one plane is shown, at
     * the position in slot 1 along the axis in slot 0. A finish request is
     * honoured only with the plane at either end, after it was drawn.
     */
    method PlaneBounce(shouldFinish: bool, dt: uint32, now: uint32)
      requires Valid() && currentEffectIndex == 2
      modifies this, effectState, cube.buf
      ensures BounceStepped(shouldFinish, dt, now)
    {
      DefaultAxis();
      if dt >= 400 {
        cube.Fill(0x00);
        SetPlane(effectState[0], effectState[1]);
        if (effectState[1] == 0 || effectState[1] == LAYER_COUNT as int - 1) && shouldFinish {
          ForceFinishEffect();
          return;
        }
        AdvanceBounce();
        lastExecutionTime := now;
      }
    }

    /** The slot update of a sticky-plane-bounce step that does not finish. */
    method AdvanceSticky()
      requires Valid()
      modifies effectState
      ensures Used() == StickyNext(old(Used())) && SpareSlotsKept()
    {
      if effectState[1] == LAYER_COUNT as int - 1 && effectState[2] == 1 {
        if effectState[0] == Z {
          effectState[0], effectState[1], effectState[2] := Y, 0, 0;
        } else if effectState[0] == Y {
          effectState[0], effectState[1], effectState[2] := X, 0, 0;
        } else if effectState[0] == X {
          effectState[0], effectState[1], effectState[2] := Z, 0, 0;
        }
        return;
      }
      effectState[1] := Add16(effectState[1], 1);
      if effectState[1] == LAYER_COUNT as int {
        effectState[1] := 0;
        effectState[2] := Add16(effectState[2], 1);
      }
    }

    /** The outcome of one sticky-plane-bounce call (effect 3) that saw `dt` ms elapsed. */
    twostate predicate StickyStepped(shouldFinish: bool, dt: uint32, now: uint32)
      requires Valid()
      reads this, effectState, cube.buf
    {
      var s := WithDefaultAxis(old(Used()));
      if dt < 400 then
        && IdentityKept() && Used() == s && SpareSlotsKept()
        && unchanged(cube.buf) && lastExecutionTime == old(lastExecutionTime)
      else if s.s1 == 7 && s.s2 == 1 && shouldFinish then
        Finished() && lastExecutionTime == old(lastExecutionTime)
      else
        && IdentityKept() && Used() == StickyNext(s) && SpareSlotsKept()
        && lastExecutionTime == now
        && forall x, y, z | InRange(x, y, z) ::
             cube.Lit(x, y, z) == if AxisCoord(PlaneAxis(s.s0), x, y, z) == Low8(s.s1)
                                  then s.s2 == 0 else old(cube.Lit(x, y, z))
    }

    /**
     * Sticky plane bounce (effect 3): every 400 ms the plane at the position
     * in slot 1 is turned on (counter 0) or off (any other counter), keeping
     * the planes drawn before. A finish request is honoured only at position
     * 7 of the clearing pass.
     */
    method StickyPlaneBounce(shouldFinish: bool, dt: uint32, now: uint32)
      requires Valid() && currentEffectIndex == 3
      modifies this, effectState, cube.buf
      ensures StickyStepped(shouldFinish, dt, now)
    {
      DefaultAxis();
      if dt >= 400 {
        if effectState[2] == 0 {
          SetPlane(effectState[0], effectState[1]);
        } else {
          ClrPlane(effectState[0], effectState[1]);
        }
        if effectState[1] == LAYER_COUNT as int - 1 && effectState[2] == 1 && shouldFinish {
          ForceFinishEffect();
          return;
        }
        AdvanceSticky();
        lastExecutionTime := now;
      }
    }

    /** The outcome of one blink call (effect 4) that saw `dt` ms elapsed. */
    twostate predicate BlinkStepped(dt: uint32, now: uint32)
      requires Valid()
      reads this, effectState, cube.buf
    {
      var d := if old(effectState[0]) == 0 then 750 else old(effectState[0]);
      var s := old(Used()).(s0 := d);
      && IdentityKept()
      && effectState[2] == s.s2
      && SpareSlotsKept()
      && if BlinkOnDue(s, dt) then
           effectState[0] == d && effectState[1] == 1 && Bright() && lastExecutionTime == now
         else if BlinkOffDue(s, dt) then
           && d / 10 != 0 && effectState[0] == BlinkNextDelay(d)
           && effectState[1] == 0 && Dark() && lastExecutionTime == now
         else
           && effectState[0] == d && effectState[1] == s.s1
           && unchanged(cube.buf) && lastExecutionTime == old(lastExecutionTime)
    }

    /**
     * Blink (effect 4): the whole cube is lit when the on step is due and
     * cleared 100 ms later, when the off step also shortens the delay in
     * slot 0. The phase slot 2 never changes and the blink never finishes:
     * the branch meant to toggle the phase or finish requires a delay of 0
     * just after a delay of 0 was replaced by 750.
     */
    method Blink(dt: uint32, now: uint32)
      requires Valid() && currentEffectIndex == 4
      requires effectState[1] == 1 && dt >= 100 ==> effectState[0] == 0 || effectState[0] >= 10
      modifies this, effectState, cube.buf
      ensures BlinkStepped(dt, now)
    {
      if effectState[0] == 0 {
        effectState[0] := 750;
      }
      var delay, ledState, phase := effectState[0], effectState[1], effectState[2];
      if ledState == 0 && ((phase == 0 && dt >= delay) || dt >= Sub16(751, delay)) {
        if delay == 0 {
          // the phase toggle and the finish request of the blink are never reached
          assert false;
        }
        BlinkOn(now);
      } else if dt >= 100 && ledState == 1 {
        BlinkOff(now);
      }
    }

    /** The blink's on step: LED state 1 and every voxel lit. */
    method BlinkOn(now: uint32)
      requires Valid()
      modifies this, effectState, cube.buf
      ensures IdentityKept() && SpareSlotsKept()
      ensures effectState[0] == old(effectState[0]) && effectState[1] == 1 && effectState[2] == old(effectState[2])
      ensures Bright() && lastExecutionTime == now
    {
      effectState[1] := 1;
      cube.Fill(0xFF);
      lastExecutionTime := now;
    }

    /** The blink's off step: every voxel cleared, the delay shortened and LED state 0. */
    method BlinkOff(now: uint32)
      requires Valid() && effectState[0] / 10 != 0
      modifies this, effectState, cube.buf
      ensures IdentityKept() && SpareSlotsKept()
      ensures effectState[0] == BlinkNextDelay(old(effectState[0])) && effectState[1] == 0
      ensures effectState[2] == old(effectState[2])
      ensures Dark() && lastExecutionTime == now
    {
      cube.Fill(0x00);
      effectState[0] := Sub16(effectState[0], 15 + 1000 / (effectState[0] / 10));
      effectState[1] := 0;
      lastExecutionTime := now;
    }
  }

  /**
   * The running effect `index` is still waiting for its interval: the
   * call changes neither the buffer nor the time of the last step.
   */
  predicate Waiting(index: uint8, s: Slots, dt: uint32) {
    || (index == 0 && dt < 1000)
    || (index == 1 && dt < 500)
    || (index in {2, 3} && dt < 400)
    || (index == 4 &&
        var b := s.(s0 := if s.s0 == 0 then 750 else s.s0);
        !BlinkOnDue(b, dt) && !BlinkOffDue(b, dt))
  }

  /**
   * `startEffect` leaves the scratch slots of the effect it replaces in
   * place. Starting the blink right after one step of the plane bounce hands
   * it the bounce's axis (3) as its delay and the bounce's position (1) as
   * its LED state, so the blink's next off step divides by `3 / 10 == 0`.
   */
  method StaleSlotsAfterBounce() returns (delay: uint16, ledState: uint16)
    ensures ledState == 1 && delay != 0 && delay / 10 == 0
  {
    var sequencer := new Sequencer();
    sequencer.StartEffect(2);
    sequencer.ProcessEffect(false, 400, k => 0);
    sequencer.StartEffect(4);
    delay, ledState := sequencer.effectState[0], sequencer.effectState[1];
  }

  /** With the slots reset on start, the same sequence leaves the blink its initial state. */
  method ResetSlotsAfterBounce() returns (delay: uint16, ledState: uint16)
    ensures ledState == 0 && delay == 0
  {
    var sequencer := new Sequencer();
    sequencer.StartEffectReset(2);
    sequencer.ProcessEffect(false, 400, k => 0);
    sequencer.StartEffectReset(4);
    delay, ledState := sequencer.effectState[0], sequencer.effectState[1];
  }
}
