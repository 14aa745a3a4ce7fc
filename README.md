# LED cube firmware: drawing engine and effect sequencer in Dafny

This project models the core of the LEDcube firmware: an 8x8x8 LED cube driven
by an AVR microcontroller. It covers three parts.

- **The voxel framebuffer and its drawing primitives** (`draw.cpp`). The
  framebuffer is the byte matrix `cube[z][y]`; voxel (x, y, z) is bit x of
  `cube[z][y]`. `Draw.Cube` holds it as an `array2<bv8>`. The ghost predicate
  `Lit(x, y, z)` reads the packed bytes back as a 3-D boolean grid. Every
  primitive is a method that updates the array in place, and its contract
  gives the new grid in terms of the old one:
  - point set, clear, toggle and alter;
  - `fill`;
  - the six plane operations;
  - `box` in its three styles;
  - the in-place `shift`.
- **The helpers** `inRange`, `byteline` and `orderValues`, the bit masks, and
  both packings of a coordinate into the buffer (`Geometry`). This includes
  the 4x4x4 packing, where two rows share one byte.
- **The effect sequencer** (`effects.cpp`), as the class `Effects.Sequencer`.
  It holds the running and previous effect, the brightness, the five `uint16_t`
  scratch slots and the time of the last step. `ProcessEffect` advances one of
  the five effects by one step:
  - rain;
  - random toggle;
  - plane bounce;
  - sticky plane bounce;
  - blink.
- **The wrap-aware elapsed-time helper** (`utils.cpp`), on 32-bit
  `unsigned long` values (`Utils`).

## How the effects are specified

Each effect step is stated as a two-state predicate over the old and new
globals: `RainStepped`, `ToggleStepped`, `BounceStepped`, `StickyStepped` and
`BlinkStepped`.

The slot updates of the deterministic effects are pure functions on the three
slots they use: `BounceNext`, `StickyNext` and `BlinkNextDelay`. The lemmas
about those functions give:
- the slot invariants;
- the length of a run, of a round trip and of a full axis cycle;
- how soon a finish request is honoured.

The random effects are stated through recursive predicates over the random
draws:
- `Dropped` gives which columns receive a rain drop;
- `Toggled` gives which voxels end up inverted.

Lemmas relate these to a set of drop columns (`Drops`) and to a hit count
(`Hits`).

### Arithmetic

The slot arithmetic is `uint16_t` arithmetic, written as explicit
`% 0x1_0000`. On AVR `int` is 16 bits wide, so the blink's `751 - delay` and
`delay - (15 + 1000 / (delay / 10))` are computed modulo 2^16 as well.

The elapsed-time helper is written in `unsigned long` (32-bit) arithmetic.

### External inputs

The clock and the random generator are parameters:
- `now` stands for `millis()`. One value is used for both readings in one call of `processEffect`.
- `rand(k)` stands for the value of the k-th `rand()` call within that call.
  C++ leaves the order in which the arguments of `setVoxel(rand() % 8, rand() % 8, ...)`
  and `toggleVoxel(...)` are evaluated unspecified (effects.cpp:73, 92). The model
  draws x before y before z. Because `rand` ranges over all functions, any other
  order only renumbers the draws.

### The blink

The comment at effects.cpp:208 names slot 2 of the blink "accelerating/slowing
down": a phase meant to alternate. The only code that changes it is the branch
at effects.cpp:213-225, which toggles the phase or, on a finish request,
finishes the effect. That branch runs only when the delay slot is 0 at an on
step. But lines 209-211 have just replaced a delay of 0 with 750, so the branch
is never taken. The model follows the code:
- the blink never changes its phase slot;
- the blink never finishes;
- `Blink` carries `assert false` on that branch.

Starting from 750, the off step shortens the delay 17 times (`BlinkDelayTrace`).
From 76 the subtraction wraps around to 65455. Only the off step divides
(effects.cpp:229-231): it runs when LED state is 1 and at least 100 ms have
passed, and is defined only when `delay / 10` is not 0, that is, when the
delay is not in 1..9. `ProcessEffect` and `Blink` require exactly that of an
off step; a blink call that is not an off step (an on step, or one with LED
state 1 that comes too early) has no requirement. From a delay of at least 10,
only 110..114 lead into 1..9 (`OnlyFrom110`).

### The scratch slots on start

The note on `startEffect` (effects.cpp:22) says that starting an effect force
finishes the current one, which is what zeroes the scratch slots
(effects.cpp:54). `startEffect` itself (effects.cpp:23-30) never touches the
slots. Effects 2, 3 and 4 initialise themselves only from a slot 0 of 0
(effects.cpp:100, 151, 209), so an effect started over a running one inherits
its slots (see Findings). `StartEffect` models the code.

## Model

| member | source | states |
|---|---|---|
| `Geometry.InRange` | draw.cpp:25-28 | a coordinate is in range iff all three components are below 8; every primitive's contract is stated over exactly these voxels and makes an out-of-range call a no-op |
| `Geometry.WithBit` | draw.cpp:37 | the stored byte has bit x set and every other bit as before |
| `Geometry.WithoutBit` | draw.cpp:49 | the stored byte has bit x clear and every other bit as before |
| `Geometry.FlipBit` | draw.cpp:71 | the stored byte has bit x inverted and every other bit as before |
| `Geometry.FlipBitTwice` | draw.cpp:65-74 | inverting the same bit twice gives the byte back, so two `toggleVoxel` calls on one voxel restore the buffer |
| `Geometry.ByteLine` | draw.cpp:417-420 | for start and end in 0..7, exactly bits start..end are set (none when start > end); computed in 16-bit `int` and truncated to a byte |
| `Geometry.ByteLineExample` | draw.cpp:415-420 | `byteline(2, 5)` is 0b00111100 |
| `Geometry.Address8` | draw.cpp:37 | the 8x8x8 packing puts every in-range voxel at a valid layer, row and bit of `cube[8][8]` |
| `Geometry.Address4` | draw.cpp:35 | the 4x4x4 packing puts every in-range voxel at a valid layer, row and bit of `cube[4][2]` |
| `Geometry.Address4Injective` | draw.cpp:35 | no two voxels of the 4x4x4 cube share a bit of the buffer |
| `Geometry.Address4Onto` | draw.cpp:35 | every bit of the 4x2 buffer is the packing of some voxel of the 4x4x4 cube |
| `Geometry.OrderValues` | draw.cpp:404-413 | the returned pair is ordered and is the input pair, swapped only when the first value is larger |
| `Draw.OrBits` | draw.cpp:260 | a bit of the bitwise OR is set iff it is set in a or in b |
| `Draw.WallsShape` | draw.cpp:246-265 | BOX_WALLS lights all six faces; it keeps the inside and everything off the y/z extent; it clears the face rows beyond the X extent |
| `Draw.FrameShape` | draw.cpp:266-296 | BOX_FRAME lights the twelve edges; on a dark cube it lights exactly them; it clears the four X rows beyond the X extent and keeps every other voxel |
| `Draw.Cube.constructor` | draw.cpp:14 | the zero-initialised buffer has every voxel off |
| `Draw.Cube.GetVoxel` | draw.cpp:77-93 | 1 iff the voxel is lit, 0 otherwise, and 0 for every coordinate outside the cube |
| `Draw.Cube.SetVoxel` | draw.cpp:31-40 | the addressed voxel is on and every other voxel is unchanged; a coordinate outside the cube leaves the buffer unchanged |
| `Draw.Cube.ClrVoxel` | draw.cpp:43-52 | the addressed voxel is off and every other voxel is unchanged; a coordinate outside the cube leaves the buffer unchanged |
| `Draw.Cube.AlterVoxel` | draw.cpp:55-62 | state 0 clears the voxel and any other state sets it; nothing else changes |
| `Draw.Cube.ToggleVoxel` | draw.cpp:65-74 | the addressed voxel is inverted and every other voxel is unchanged; a coordinate outside the cube leaves the buffer unchanged |
| `Draw.Cube.Fill` | draw.cpp:98-116 | every byte of the buffer is the pattern, so a voxel is lit iff its bit of the pattern is set; 0x00 turns every voxel off and 0xFF turns every voxel on |
| `Draw.Cube.SetPlaneX` | draw.cpp:119-140 | every voxel with that X coordinate is on, the rest unchanged; no-op for x ≥ 8 |
| `Draw.Cube.ClrPlaneX` | draw.cpp:143-164 | every voxel with that X coordinate is off, the rest unchanged; no-op for x ≥ 8 |
| `Draw.Cube.SetPlaneY` | draw.cpp:167-180 | every voxel with that Y coordinate is on, the rest unchanged; no-op for y ≥ 8 |
| `Draw.Cube.ClrPlaneY` | draw.cpp:183-195 | every voxel with that Y coordinate is off, the rest unchanged; no-op for y ≥ 8 |
| `Draw.Cube.SetPlaneZ` | draw.cpp:198-207 | every voxel with that Z coordinate is on, the rest unchanged; no-op for z ≥ 8 |
| `Draw.Cube.ClrPlaneZ` | draw.cpp:210-218 | every voxel with that Z coordinate is off, the rest unchanged; no-op for z ≥ 8 |
| `Draw.Cube.Box` | draw.cpp:224-299 | no-op unless both raw corners are in the cube, and no-op for an unknown style; otherwise, on the ordered corners, FILLED adds every voxel of the box and changes nothing outside it, and WALLS and FRAME give the voxel states `WallsShape` and `FrameShape` characterise |
| `Draw.Cube.BoxFilled` | draw.cpp:234-245 | exactly the voxels of the box are added |
| `Draw.Cube.PutRow` | draw.cpp:254 | assigning a row byte sets the voxels of that row to its bits and leaves every other row alone |
| `Draw.Cube.WallsRow` | draw.cpp:250-261 | one row of BOX_WALLS: a face row becomes the X span, any other row gains its two X ends |
| `Draw.Cube.BoxWalls` | draw.cpp:246-265 | every voxel takes its BOX_WALLS state |
| `Draw.Cube.BoxFrame` | draw.cpp:266-296 | every voxel takes its BOX_FRAME state |
| `Draw.Cube.Shift` | draw.cpp:345-397 | along each axis, direction -1 gives new(v) = old(v + 1) and clears plane 7; any other direction gives new(v) = old(v - 1) and clears plane 0; an unknown axis leaves the buffer unchanged |
| `Draw.Cube.MoveLayers` | draw.cpp:352-382 | after the seven rounds of the outer loop every layer but the edge one holds its neighbour's old content; read-before-write holds because the loop starts at the edge the content moves toward |
| `Draw.Cube.ShiftLayer` | draw.cpp:360-381 | every voxel of layer `current` takes the old state of its neighbour in layer `previous`; nothing else changes |
| `Draw.Cube.ShiftRow` | draw.cpp:362-380 | the voxels of layer `current` with first loop counter j take their neighbours' old states; nothing else changes |
| `Draw.Cube.MoveVoxel` | draw.cpp:364-379 | the voxel reached by (j, k) in layer `current` takes the old state of the one reached in layer `previous` |
| `Utils.GetTimeDifference` | utils.cpp:9-15 | time2 - time1 without a wrap; across a wrap `4294967295 - time1 + time2`, one less than the elapsed time modulo 2^32, with no intermediate overflow and a result ≤ 4294967294; 0 for equal times |
| `Effects.WithDefaultAxis` | effects.cpp:100-102 | an axis slot of 0 becomes Z; any other slots are kept |
| `Effects.NextAxis` | effects.cpp:120-133 | a valid axis moves to a different valid axis, any other value stays; `NextAxisCycle` proves the 3-cycle Z → Y → X → Z |
| `Effects.BounceNext` | effects.cpp:120-143 | the slot update of a bounce step that does not finish; its properties are proved by `BounceStep` (invariant, direction, counter), `BounceCycle` (29-step axis cycle) and `BounceReachesEnd` (finish within 7 steps) |
| `Effects.NextAxisCycle` | effects.cpp:120-133 | the axis cycle Z → Y → X → Z visits all three axes and returns after three rounds |
| `Effects.BounceStartsValid` | effects.cpp:99-102 | the plane bounce starts from zeroed slots inside its invariant |
| `Effects.BounceStep` | effects.cpp:120-143 | a bounce step keeps the invariant (position 0..7, counter 0..4); an even counter moves up and an odd one moves down; the counter grows exactly when an end is reached; (0, counter 4) cycles the axis and resets the counter |
| `Effects.AfterAdd` | effects.cpp:97-147 | m + n steps are n steps after m steps |
| `Effects.BounceRunUp` | effects.cpp:135-138 | an upward run from position p reaches 7 after 7 - p steps with the counter one higher |
| `Effects.BounceRunDown` | effects.cpp:139-143 | a downward run from position p reaches 0 after p steps with the counter one higher |
| `Effects.BounceRoundTrip` | effects.cpp:135-143 | 14 steps from position 0 with counter 0 or 2 return to position 0 with the counter two higher |
| `Effects.BounceCycle` | effects.cpp:120-143 | 29 steps from (axis, 0, 0) lead to (next axis, 0, 0) |
| `Effects.BounceReachesEnd` | effects.cpp:115-118 | from any valid state the plane is at 0 or 7 within 6 steps, so a finish request is honoured at the latest on the 7th step |
| `Effects.BounceMidRun` | effects.cpp:135-143 | strictly inside a run the plane is at neither end |
| `Effects.StickyStep` | effects.cpp:179-201 | a sticky step keeps the invariant (position 0..7, counter 0 or 1); the position advances, and wraps from 7 to 0 with the counter set; (7, counter 1) cycles the axis and resets position and counter |
| `Effects.StickyNext` | effects.cpp:179-201 | the slot update of a sticky step that does not finish; its properties are proved by `StickyStep` (invariant, advance, wrap, axis cycle) and `StickyCycle` (16-step axis cycle) |
| `Effects.StickyRun` | effects.cpp:198-201 | within a pass the position advances one layer per step |
| `Effects.StickyCycle` | effects.cpp:179-201 | 16 steps from (axis, 0, 0) lead to (next axis, 0, 0) |
| `Effects.StickyReachesEnd` | effects.cpp:175-201 | a finish request is served within 16 steps: from any valid state, at most 15 steps that do not finish reach position 7 of the clearing pass, the only state in which the effect finishes, and no earlier step is there |
| `Effects.Drops` | effects.cpp:70-74 | n rain drops fall in at most n columns |
| `Effects.DroppedColumns` | effects.cpp:70-74 | a column is dropped into iff it is in `Drops`; a rain step lights at most 3 distinct columns |
| `Effects.Hits` | effects.cpp:89-93 | n toggles hit one voxel at most n times |
| `Effects.ToggledOdd` | effects.cpp:89-93 | the toggles invert a voxel iff they hit it an odd number of times |
| `Effects.HitsMissed` | effects.cpp:89-93 | a voxel no toggle targets is hit zero times |
| `Effects.BlinkDelayShrinks` | effects.cpp:231 | for a delay of at least 10, the off step shrinks the delay without wrapping iff it is at least 110; below 110 the 16-bit subtraction wraps |
| `Effects.BlinkNextDelay` | effects.cpp:231 | the delay after an off step in 16-bit arithmetic, defined when `delay / 10` is not 0; `BlinkDelayShrinks` (shrinks without wrapping iff the delay is at least 110) and `BlinkDelayTrace` (the values from 750) state its behaviour |
| `Effects.OnlyFrom110` | effects.cpp:229-231 | from a delay of at least 10, an off step leads to a delay in 1..9, where the next off step would divide by zero, only from 110..114 |
| `Effects.BlinkDelayTrace` | effects.cpp:231 | from 750 the delay goes 722, 694, …, 157, 76, then wraps to 65455, whose mirror `751 - delay` is 832 |
| `Effects.StaleSlotsAfterBounce` | effects.cpp:23-30 | starting the blink after one plane-bounce step leaves LED state 1 and a delay of 1..9, so its next off step divides by zero |
| `Effects.ResetSlotsAfterBounce` | effects.cpp:23-30 | with the slots reset on start, the same sequence leaves the blink its initial delay 0 and LED state 0 |
| `Effects.Sequencer.constructor` | effects.cpp:14-19 | the globals at reset: no effect running or finished, full brightness, zeroed slots, dark cube |
| `Effects.Sequencer.StartEffect` | effects.cpp:23-30 | the current effect becomes index iff index < 5; the buffer is cleared and the brightness reset to 10; the previous effect, the slots and the time of the last step are kept |
| `Effects.Sequencer.StartEffectReset` | effects.cpp:21-30 | as `StartEffect`, and all five slots are zero, so the blink's division is defined and the bounce effects start inside their invariants |
| `Effects.Sequencer.CurrentEffect` | effects.cpp:33-36 | the running effect, which is the sentinel 0xFF exactly when `isEffectFinished` holds |
| `Effects.Sequencer.PreviousEffect` | effects.cpp:39-42 | the previous effect; `ForceFinishEffect` states that it becomes the effect that was running |
| `Effects.Sequencer.IsEffectFinished` | effects.cpp:45-48 | true exactly when the current effect is the sentinel 0xFF, so no registered effect 0..4 is running |
| `Effects.Sequencer.ForceFinishEffect` | effects.cpp:51-57 | the buffer is dark, all five slots are zero, the previous effect is the old current one, no effect runs (`isEffectFinished`), and the brightness and the time of the last step are kept |
| `Effects.Sequencer.ProcessEffect` | effects.cpp:60-238 | with no effect running nothing changes; while the running effect waits for its interval, the buffer, the time and the identity are unchanged; the effect's step is as its `…Stepped` predicate states, measured with `getTimeDifference`; an effect either keeps its identity or finishes into the `forceFinishEffect` state; random toggle and blink never finish |
| `Effects.Sequencer.AddDrops` | effects.cpp:70-74 | exactly the top-layer voxels of the `rand() % 4` drawn columns are turned on; nothing else changes |
| `Effects.Sequencer.Rain` | effects.cpp:64-84 | after 1000 ms: the content falls one layer; the top layer holds exactly the new drops, or is dark while a finish is requested; slot 0 counts the finishing steps, the effect finishes when it reaches 8, and the time is updated |
| `Effects.Sequencer.ToggleVoxels` | effects.cpp:89-93 | exactly the voxels drawn an odd number of times among the `rand() % 8` toggles are inverted |
| `Effects.Sequencer.RandomToggle` | effects.cpp:85-96 | after 500 ms the drawn voxels are toggled and the time is updated; the slots and the identity never change |
| `Effects.Sequencer.SetPlane` | effects.cpp:107-113 | the plane at the low byte of the position along the slot's axis (X for an unknown axis) is turned on |
| `Effects.Sequencer.ClrPlane` | effects.cpp:166-172 | the plane at the low byte of the position along the slot's axis (X for an unknown axis) is turned off |
| `Effects.Sequencer.DefaultAxis` | effects.cpp:100-102 | the slots become `WithDefaultAxis` of the old slots |
| `Effects.Sequencer.AdvanceBounce` | effects.cpp:120-143 | the slots become `BounceNext` of the old slots |
| `Effects.Sequencer.PlaneBounce` | effects.cpp:97-147 | after 400 ms exactly one plane is lit on a cleared buffer; a finish request is honoured only at position 0 or 7, after drawing; otherwise the slots advance by `BounceNext` |
| `Effects.Sequencer.AdvanceSticky` | effects.cpp:179-201 | the slots become `StickyNext` of the old slots |
| `Effects.Sequencer.StickyPlaneBounce` | effects.cpp:148-205 | after 400 ms the plane at the position is set (counter 0) or cleared (otherwise) and the rest is kept; a finish request is honoured only at position 7 of the clearing pass; otherwise the slots advance by `StickyNext` |
| `Effects.Sequencer.Blink` | effects.cpp:206-235 | a due on step lights every voxel and sets LED state 1; a due off step (100 ms) clears every voxel, shortens the delay by `BlinkNextDelay` and sets LED state 0; the phase slot never changes and the blink never finishes |
| `Effects.Sequencer.BlinkOn` | effects.cpp:226-228 | LED state 1, every voxel on, delay and phase kept |
| `Effects.Sequencer.BlinkOff` | effects.cpp:230-233 | LED state 0, every voxel off, the delay shortened by `BlinkNextDelay` |

## Left out

- `line` (draw.cpp:302-342) is not modelled. It works with floating-point
  slopes and float-to-byte truncation, and it divides by zero for a line
  without X extent.
- `bitswap` (draw.cpp:423-447) is not modelled. It is inline AVR assembly.
- The 4x4x4 build is modelled only as the addressing function `Address4`, with
  its injectivity and coverage. The primitives are modelled for the 8x8x8
  build only. In the 4x4x4 build:
  - `shift` hard-codes 7 as the far edge;
  - `box(BOX_WALLS)` assigns a whole packed byte, which clobbers the neighbouring row;
  - `setPlaneZ`/`clrPlaneZ` loop over LAYER_COUNT rows of a two-byte layer.
- `millis()` and `rand()` are parameters. `ProcessEffect` reads the clock
  once, where the source reads it a second time to store the time of the
  step. The sequence of random values is the function `rand`.
- `Effects.Sequencer.ProcessEffect` requires that an off step of the blink
  (effect 4, LED state 1, at least 100 ms since the last step) finds a delay
  of 0 or at least 10. At that step only, effects.cpp:231 divides by
  `delay / 10`, and a delay in 1..9 makes that a division by zero, which C
  leaves undefined. `Effects.Sequencer.Blink` has the same requirement.
  - `BlinkDelayDefined` (LED state 1 implies a delay of 0 or at least 10) is
    the state fact that `StartEffectReset` establishes and from which the
    requirement follows.
  - From a zeroed start the delay never enters 1..9. By `OnlyFrom110`, a
    delay of at least 10 leads into 1..9 only from 110..114, so what the model
    does not prove is that the orbit of delays from 750, which runs through
    most of the 16-bit range, avoids 110..114. `BlinkDelayTrace` follows only
    its first part.
  - Stale slots can break the requirement (see Findings).
- `brightness` is reset and kept as the source does. Nothing in this core
  reads it.
- `button.h`, `global.h`, `draw.h`, `effects.h` and `mega32/` declare
  hardware interfaces and constants only. Their constants appear in
  `Geometry` and `Effects`.

## Findings

| source | as written | input that shows it | evidently intended | confidence | as-written member | corrected member |
|---|---|---|---|---|---|---|
| effects.cpp:23-30 | `startEffect` switches the effect but keeps the scratch slots of the effect it replaces, although its note says it force-finishes the current effect | `startEffect(2)`, one plane-bounce step (slots Z=3, 1, 0), `startEffect(4)`: the blink sees LED state 1 and delay 3, and its next off step computes `1000 / (3 / 10)`, a division by zero | the five slots are zeroed on start, so every effect starts from the state its step logic expects | not executed; the division is reached from these inputs as the model states them | `Effects.StaleSlotsAfterBounce` | `Effects.Sequencer.StartEffectReset` |
