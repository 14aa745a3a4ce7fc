/**
 * The voxel framebuffer and its drawing primitives (draw.cpp), for the
 * 8x8x8 build. The buffer is the byte matrix `cube[z][y]`; every primitive
 * updates it in place. `Lit` reads the packed bytes back as the 3-D boolean
 * grid they encode, and every mutating method states the new grid in terms
 * of the old one.
 */
module Draw {
  import opened Geometry

  /** `a | b`, bit by bit. */
  function OrBits(a: bv8, b: bv8): (r: bv8)
    ensures forall i | 0 <= i < 8 :: Bit(r, i) <==> Bit(a, i) || Bit(b, i)
  {
    a | b
  }

  /** The coordinate of voxel (x, y, z) along `axis` (anything but X or Y reads as Z). */
  function AxisCoord(axis: uint8, x: int, y: int, z: int): int {
    if axis == AXIS_Z then z else if axis == AXIS_Y then y else x
  }

  /** Voxel (x, y, z) moved by `d` along `axis`. */
  function Moved(axis: uint8, x: int, y: int, z: int, d: int): (int, int, int) {
    if axis == AXIS_Z then (x, y, z + d) else if axis == AXIS_Y then (x, y + d, z) else (x + d, y, z)
  }

  /**
   * The order in which `shift` visits a layer: the voxel of layer `layer`
   * reached by the loop counters j (outer) and k (inner).
   */
  function Visit(axis: uint8, layer: int, j: int, k: int): (int, int, int) {
    if axis == AXIS_Z then (j, k, layer) else if axis == AXIS_Y then (j, layer, k) else (layer, k, j)
  }

  /** The loop counters (j, k) under which `shift` visits voxel (x, y, z). */
  function Counters(axis: uint8, x: int, y: int, z: int): (int, int) {
    if axis == AXIS_Z then (x, y) else if axis == AXIS_Y then (x, z) else (z, y)
  }

  /**
   * `shift` has finished the layers at coordinate `c` after `i` rounds:
   * moving toward 0 it fills layers 0, 1, ... in turn, moving toward 7 it
   * fills layers 7, 6, ... in turn.
   */
  predicate Shifted(direction: int, i: int, c: int) {
    if direction == -1 then c < i else c > 7 - i
  }

  /**
   * The voxel state `box(BOX_WALLS, ...)` leaves at (x, y, z) when it was
   * `was`, for the ordered box [lx, hx] x [ly, hy] x [lz, hz].
   */
  predicate WallsVoxel(lx: int, ly: int, lz: int, hx: int, hy: int, hz: int, x: int, y: int, z: int, was: bool) {
    var rows := ly <= y <= hy && lz <= z <= hz;
    if rows && (y == ly || y == hy || z == lz || z == hz) then lx <= x <= hx
    else if rows then was || x == lx || x == hx
    else was
  }

  /**
   * The voxel state `box(BOX_FRAME, ...)` leaves at (x, y, z) when it was
   * `was`, for the ordered box [lx, hx] x [ly, hy] x [lz, hz].
   */
  predicate FrameVoxel(lx: int, ly: int, lz: int, hx: int, hy: int, hz: int, x: int, y: int, z: int, was: bool) {
    var edgeY := y == ly || y == hy;
    var edgeZ := z == lz || z == hz;
    if edgeY && edgeZ then lx <= x <= hx
    else was || ((x == lx || x == hx) && ((ly <= y <= hy && edgeZ) || (edgeY && lz <= z <= hz)))
  }

  /** Voxel (x, y, z) lies in the ordered box [lx, hx] x [ly, hy] x [lz, hz]. */
  predicate InBox(lx: int, ly: int, lz: int, hx: int, hy: int, hz: int, x: int, y: int, z: int) {
    lx <= x <= hx && ly <= y <= hy && lz <= z <= hz
  }

  /** How many of the coordinates of (x, y, z) lie on a bound of the box. */
  function Bounds(lx: int, ly: int, lz: int, hx: int, hy: int, hz: int, x: int, y: int, z: int): int {
    (if End(x, lx, hx) then 1 else 0) + (if End(y, ly, hy) then 1 else 0) + (if End(z, lz, hz) then 1 else 0)
  }

  /**
   * The shape BOX_WALLS draws: all six faces of the box are lit, the inside
   * of the box and everything off the y/z extent keep their state, and the
   * rows of the four y/z faces are assigned, so their voxels beyond the X
   * extent are turned off.
   */
  lemma WallsShape(lx: int, ly: int, lz: int, hx: int, hy: int, hz: int, x: int, y: int, z: int, was: bool)
    requires lx <= hx && ly <= hy && lz <= hz
    ensures InBox(lx, ly, lz, hx, hy, hz, x, y, z) && Bounds(lx, ly, lz, hx, hy, hz, x, y, z) >= 1 ==>
      WallsVoxel(lx, ly, lz, hx, hy, hz, x, y, z, was)
    ensures InBox(lx, ly, lz, hx, hy, hz, x, y, z) && Bounds(lx, ly, lz, hx, hy, hz, x, y, z) == 0 ==>
      WallsVoxel(lx, ly, lz, hx, hy, hz, x, y, z, was) == was
    ensures !(ly <= y <= hy && lz <= z <= hz) ==> WallsVoxel(lx, ly, lz, hx, hy, hz, x, y, z, was) == was
    ensures ly <= y <= hy && lz <= z <= hz && (End(y, ly, hy) || End(z, lz, hz)) && !(lx <= x <= hx) ==>
      !WallsVoxel(lx, ly, lz, hx, hy, hz, x, y, z, was)
    ensures ly <= y <= hy && lz <= z <= hz && !End(y, ly, hy) && !End(z, lz, hz) && !(lx <= x <= hx) ==>
      WallsVoxel(lx, ly, lz, hx, hy, hz, x, y, z, was) == was
  {
  }

  /**
   * The shape BOX_FRAME draws: exactly the twelve edges of the box, the
   * voxels of the box with at least two coordinates on a bound, are lit;
   * the four rows along X are assigned, so their voxels beyond the X extent
   * are turned off; every other voxel keeps its state.
   */
  lemma FrameShape(lx: int, ly: int, lz: int, hx: int, hy: int, hz: int, x: int, y: int, z: int, was: bool)
    requires lx <= hx && ly <= hy && lz <= hz
    ensures InBox(lx, ly, lz, hx, hy, hz, x, y, z) && Bounds(lx, ly, lz, hx, hy, hz, x, y, z) >= 2 ==>
      FrameVoxel(lx, ly, lz, hx, hy, hz, x, y, z, was)
    ensures End(y, ly, hy) && End(z, lz, hz) && !(lx <= x <= hx) ==>
      !FrameVoxel(lx, ly, lz, hx, hy, hz, x, y, z, was)
    ensures !(End(y, ly, hy) && End(z, lz, hz)) && !(InBox(lx, ly, lz, hx, hy, hz, x, y, z) && Bounds(lx, ly, lz, hx, hy, hz, x, y, z) >= 2) ==>
      FrameVoxel(lx, ly, lz, hx, hy, hz, x, y, z, was) == was
    ensures FrameVoxel(lx, ly, lz, hx, hy, hz, x, y, z, false) <==>
      InBox(lx, ly, lz, hx, hy, hz, x, y, z) && Bounds(lx, ly, lz, hx, hy, hz, x, y, z) >= 2
  {
  }

  class Cube {
    /** `cube[z][y]`: bit x of `buf[z, y]` is voxel (x, y, z). */
    const buf: array2<bv8>

    ghost predicate Valid() {
      buf.Length0 == LAYER_COUNT as int && buf.Length1 == LAYER_COUNT as int
    }

    /** The abstract grid: voxel (x, y, z) is on. Off outside the cube. */
    ghost predicate Lit(x: int, y: int, z: int)
      requires Valid()
      reads buf
    {
      InRange(x, y, z) && var a := Address8(x, y, z); Bit(buf[a.layer, a.row], a.bit)
    }

    /** The buffer starts cleared, as a zero-initialised global does. */
    constructor ()
      ensures Valid() && fresh(buf)
      ensures forall x, y, z | InRange(x, y, z) :: !Lit(x, y, z)
    {
      buf := new bv8[LAYER_COUNT, LAYER_COUNT]((z, y) => 0);
    }

    /** `getVoxel`: 1 for a lit voxel of the cube, 0 otherwise (also out of range). */
    function GetVoxel(x: uint8, y: uint8, z: uint8): (r: uint8)
      requires Valid()
      reads buf
      ensures r == 0 || r == 1
      ensures r == 1 <==> Lit(x, y, z)
      ensures !InRange(x, y, z) ==> r == 0
    {
      if InRange(x, y, z) then (if buf[z, y] & Mask(x) != 0 then 1 else 0) else 0
    }

    /** `setVoxel`: turn one voxel on; a coordinate outside the cube is ignored. */
    method SetVoxel(x: uint8, y: uint8, z: uint8)
      requires Valid()
      modifies buf
      ensures forall a, b, c | InRange(a, b, c) ::
        Lit(a, b, c) == ((a == x && b == y && c == z) || old(Lit(a, b, c)))
      ensures !InRange(x, y, z) ==> unchanged(buf)
    {
      if InRange(x, y, z) {
        buf[z, y] := WithBit(buf[z, y], x);
      }
    }

    /** `clrVoxel`: turn one voxel off; a coordinate outside the cube is ignored. */
    method ClrVoxel(x: uint8, y: uint8, z: uint8)
      requires Valid()
      modifies buf
      ensures forall a, b, c | InRange(a, b, c) ::
        Lit(a, b, c) == (!(a == x && b == y && c == z) && old(Lit(a, b, c)))
      ensures !InRange(x, y, z) ==> unchanged(buf)
    {
      if InRange(x, y, z) {
        buf[z, y] := WithoutBit(buf[z, y], x);
      }
    }

    /** `alterVoxel`: state 0 clears the voxel, any other state sets it. */
    method AlterVoxel(x: uint8, y: uint8, z: uint8, state: uint8)
      requires Valid()
      modifies buf
      ensures forall a, b, c | InRange(a, b, c) ::
        Lit(a, b, c) == (if a == x && b == y && c == z then state != 0 else old(Lit(a, b, c)))
      ensures !InRange(x, y, z) ==> unchanged(buf)
    {
      if state == 0 {
        ClrVoxel(x, y, z);
      } else {
        SetVoxel(x, y, z);
      }
    }

    /** `toggleVoxel`: invert one voxel; a coordinate outside the cube is ignored. */
    method ToggleVoxel(x: uint8, y: uint8, z: uint8)
      requires Valid()
      modifies buf
      ensures forall a, b, c | InRange(a, b, c) ::
        Lit(a, b, c) == (if a == x && b == y && c == z then !old(Lit(a, b, c)) else old(Lit(a, b, c)))
      ensures !InRange(x, y, z) ==> unchanged(buf)
    {
      if InRange(x, y, z) {
        buf[z, y] := FlipBit(buf[z, y], x);
      }
    }

    /** `fill`: store the raw byte `pattern` in every row of every layer. */
    method Fill(pattern: bv8)
      requires Valid()
      modifies buf
      ensures forall z, y | 0 <= z < LAYER_COUNT as int && 0 <= y < LAYER_COUNT as int :: buf[z, y] == pattern
      ensures forall x, y, z | InRange(x, y, z) :: Lit(x, y, z) == Bit(pattern, x)
      ensures pattern == 0x00 ==> forall x, y, z | InRange(x, y, z) :: !Lit(x, y, z)
      ensures pattern == 0xFF ==> forall x, y, z | InRange(x, y, z) :: Lit(x, y, z)
    {
      for z := 0 to LAYER_COUNT
        invariant forall k, j | 0 <= k < z && 0 <= j < LAYER_COUNT as int :: buf[k, j] == pattern
      {
        for y := 0 to LAYER_COUNT
          invariant forall k, j | 0 <= k < z && 0 <= j < LAYER_COUNT as int :: buf[k, j] == pattern
          invariant forall j | 0 <= j < y :: buf[z, j] == pattern
        {
          buf[z, y] := pattern;
        }
      }
    }

    /** `setPlaneX`: turn on every voxel with X coordinate `x`; no-op when x is outside the cube. */
    method SetPlaneX(x: uint8)
      requires Valid()
      modifies buf
      ensures forall a, b, c | InRange(a, b, c) :: Lit(a, b, c) == (a == x || old(Lit(a, b, c)))
      ensures x >= LAYER_COUNT ==> unchanged(buf)
    {
      if InRange(x, 0, 0) {
        for z := 0 to LAYER_COUNT
          invariant forall a, b, c | InRange(a, b, c) ::
            Lit(a, b, c) == ((a == x && c < z) || old(Lit(a, b, c)))
        {
          for y := 0 to LAYER_COUNT
            invariant forall a, b, c | InRange(a, b, c) ::
              Lit(a, b, c) == ((a == x && (c < z || (c == z && b < y))) || old(Lit(a, b, c)))
          {
            buf[z, y] := WithBit(buf[z, y], x);
          }
        }
      }
    }

    /** `clrPlaneX`: turn off every voxel with X coordinate `x`; no-op when x is outside the cube. */
    method ClrPlaneX(x: uint8)
      requires Valid()
      modifies buf
      ensures forall a, b, c | InRange(a, b, c) :: Lit(a, b, c) == (a != x && old(Lit(a, b, c)))
      ensures x >= LAYER_COUNT ==> unchanged(buf)
    {
      if InRange(x, 0, 0) {
        for z := 0 to LAYER_COUNT
          invariant forall a, b, c | InRange(a, b, c) ::
            Lit(a, b, c) == (!(a == x && c < z) && old(Lit(a, b, c)))
        {
          for y := 0 to LAYER_COUNT
            invariant forall a, b, c | InRange(a, b, c) ::
              Lit(a, b, c) == (!(a == x && (c < z || (c == z && b < y))) && old(Lit(a, b, c)))
          {
            buf[z, y] := WithoutBit(buf[z, y], x);
          }
        }
      }
    }

    /** `setPlaneY`: every row `y` of every layer becomes 0xFF; no-op when y is outside the cube. */
    method SetPlaneY(y: uint8)
      requires Valid()
      modifies buf
      ensures forall a, b, c | InRange(a, b, c) :: Lit(a, b, c) == (b == y || old(Lit(a, b, c)))
      ensures y >= LAYER_COUNT ==> unchanged(buf)
    {
      if InRange(0, y, 0) {
        for z := 0 to LAYER_COUNT
          invariant forall a, b, c | InRange(a, b, c) ::
            Lit(a, b, c) == ((b == y && c < z) || old(Lit(a, b, c)))
        {
          buf[z, y] := 0xFF;
        }
      }
    }

    /** `clrPlaneY`: every row `y` of every layer becomes 0x00; no-op when y is outside the cube. */
    method ClrPlaneY(y: uint8)
      requires Valid()
      modifies buf
      ensures forall a, b, c | InRange(a, b, c) :: Lit(a, b, c) == (b != y && old(Lit(a, b, c)))
      ensures y >= LAYER_COUNT ==> unchanged(buf)
    {
      if InRange(0, y, 0) {
        for z := 0 to LAYER_COUNT
          invariant forall a, b, c | InRange(a, b, c) ::
            Lit(a, b, c) == (!(b == y && c < z) && old(Lit(a, b, c)))
        {
          buf[z, y] := 0x00;
        }
      }
    }

    /** `setPlaneZ`: every row of layer `z` becomes 0xFF; no-op when z is outside the cube. */
    method SetPlaneZ(z: uint8)
      requires Valid()
      modifies buf
      ensures forall a, b, c | InRange(a, b, c) :: Lit(a, b, c) == (c == z || old(Lit(a, b, c)))
      ensures z >= LAYER_COUNT ==> unchanged(buf)
    {
      if InRange(0, 0, z) {
        for i := 0 to LAYER_COUNT
          invariant forall a, b, c | InRange(a, b, c) ::
            Lit(a, b, c) == ((c == z && b < i) || old(Lit(a, b, c)))
        {
          buf[z, i] := 0xFF;
        }
      }
    }

    /** `clrPlaneZ`: every row of layer `z` becomes 0x00; no-op when z is outside the cube. */
    method ClrPlaneZ(z: uint8)
      requires Valid()
      modifies buf
      ensures forall a, b, c | InRange(a, b, c) :: Lit(a, b, c) == (c != z && old(Lit(a, b, c)))
      ensures z >= LAYER_COUNT ==> unchanged(buf)
    {
      if InRange(0, 0, z) {
        for i := 0 to LAYER_COUNT
          invariant forall a, b, c | InRange(a, b, c) ::
            Lit(a, b, c) == (!(c == z && b < i) && old(Lit(a, b, c)))
        {
          buf[z, i] := 0x00;
        }
      }
    }
  
    /**
     * `box`: draw the axis-aligned box spanned by two corners. Nothing happens
     * unless both raw corners lie in the cube; the coordinates are then put in
     * order pairwise. FILLED turns on every voxel of the box. WALLS assigns the
     * row byteline(x1, x2) to every row of the y1/y2/z1/z2 faces (clearing the
     * rest of those rows) and turns on the x1 and x2 ends of the other rows.
     * FRAME assigns byteline(x1, x2) to the four rows along X and turns on the
     * eight edges along Y and Z. Any other style draws nothing.
     */
    method Box(style: uint8, x1: uint8, y1: uint8, z1: uint8, x2: uint8, y2: uint8, z2: uint8)
      requires Valid()
      modifies buf
      ensures !(InRange(x1, y1, z1) && InRange(x2, y2, z2)) ==> unchanged(buf)
      ensures style !in {BOX_FILLED, BOX_WALLS, BOX_FRAME} ==> unchanged(buf)
      ensures InRange(x1, y1, z1) && InRange(x2, y2, z2) && style == BOX_FILLED ==>
        forall x, y, z | InRange(x, y, z) ::
          Lit(x, y, z) == (old(Lit(x, y, z)) || (Span(x, x1, x2) && Span(y, y1, y2) && Span(z, z1, z2)))
      ensures InRange(x1, y1, z1) && InRange(x2, y2, z2) && style == BOX_WALLS ==>
        forall x, y, z | InRange(x, y, z) ::
          Lit(x, y, z) == WallsVoxel(Min(x1, x2), Min(y1, y2), Min(z1, z2), Max(x1, x2), Max(y1, y2), Max(z1, z2), x, y, z, old(Lit(x, y, z)))
      ensures InRange(x1, y1, z1) && InRange(x2, y2, z2) && style == BOX_FRAME ==>
        forall x, y, z | InRange(x, y, z) ::
          Lit(x, y, z) == FrameVoxel(Min(x1, x2), Min(y1, y2), Min(z1, z2), Max(x1, x2), Max(y1, y2), Max(z1, z2), x, y, z, old(Lit(x, y, z)))
    {
      if InRange(x1, y1, z1) && InRange(x2, y2, z2) {
        var lx, hx := OrderValues(x1, x2);
        var ly, hy := OrderValues(y1, y2);
        var lz, hz := OrderValues(z1, z2);
        if style == BOX_FILLED {
          BoxFilled(lx, ly, lz, hx, hy, hz);
        } else if style == BOX_WALLS {
          BoxWalls(lx, ly, lz, hx, hy, hz);
        } else if style == BOX_FRAME {
          BoxFrame(lx, ly, lz, hx, hy, hz);
        }
      }
    }

    /** The BOX_FILLED branch of `box`, on ordered corners. */
    method BoxFilled(lx: uint8, ly: uint8, lz: uint8, hx: uint8, hy: uint8, hz: uint8)
      requires Valid()
      requires lx <= hx < LAYER_COUNT && ly <= hy < LAYER_COUNT && lz <= hz < LAYER_COUNT
      modifies buf
      ensures forall x, y, z | InRange(x, y, z) ::
        Lit(x, y, z) == (old(Lit(x, y, z)) || (lx <= x <= hx && ly <= y <= hy && lz <= z <= hz))
    {
      var line := ByteLine(lx, hx);
      var i := lz;
      while i <= hz
        invariant lz <= i <= hz + 1
        invariant forall x, y, z | InRange(x, y, z) ::
          Lit(x, y, z) == (old(Lit(x, y, z)) || (lx <= x <= hx && ly <= y <= hy && lz <= z < i))
      {
        var j := ly;
        while j <= hy
          invariant ly <= j <= hy + 1
          invariant forall x, y, z | InRange(x, y, z) ::
            Lit(x, y, z) == (old(Lit(x, y, z)) ||
              (lx <= x <= hx && ly <= y <= hy && lz <= z && (z < i || (z == i && y < j))))
        {
          buf[i, j] := OrBits(buf[i, j], line);
          j := j + 1;
        }
        i := i + 1;
      }
    }

    /** Store the byte `row` as row `y` of layer `z` (`cube[z][y] = row`). */
    method PutRow(z: uint8, y: uint8, row: bv8)
      requires Valid() && z < LAYER_COUNT && y < LAYER_COUNT
      modifies buf
      ensures forall a, b, c | InRange(a, b, c) ::
        Lit(a, b, c) == if b == y && c == z then Bit(row, a) else old(Lit(a, b, c))
    {
      buf[z, y] := row;
    }

    /** One row of the BOX_WALLS branch: the whole X span on a face row, the two X ends added elsewhere. */
    method WallsRow(lx: uint8, ly: uint8, lz: uint8, hx: uint8, hy: uint8, hz: uint8, z: uint8, y: uint8)
      requires Valid()
      requires lx <= hx < LAYER_COUNT && ly <= y <= hy < LAYER_COUNT && lz <= z <= hz < LAYER_COUNT
      modifies buf
      ensures forall a, b, c | InRange(a, b, c) ::
        Lit(a, b, c) == if b == y && c == z then WallsVoxel(lx, ly, lz, hx, hy, hz, a, b, c, old(Lit(a, b, c)))
                        else old(Lit(a, b, c))
    {
      if y == ly || y == hy || z == lz || z == hz {
        PutRow(z, y, ByteLine(lx, hx));
      } else {
        PutRow(z, y, OrBits(buf[z, y], OrBits(Mask(lx), Mask(hx))));
      }
    }

    /** The BOX_WALLS branch of `box`, on ordered corners. */
    method BoxWalls(lx: uint8, ly: uint8, lz: uint8, hx: uint8, hy: uint8, hz: uint8)
      requires Valid()
      requires lx <= hx < LAYER_COUNT && ly <= hy < LAYER_COUNT && lz <= hz < LAYER_COUNT
      modifies buf
      ensures forall x, y, z | InRange(x, y, z) ::
        Lit(x, y, z) == WallsVoxel(lx, ly, lz, hx, hy, hz, x, y, z, old(Lit(x, y, z)))
    {
      var i := lz;
      while i <= hz
        invariant lz <= i <= hz + 1
        invariant forall x, y, z | InRange(x, y, z) ::
          Lit(x, y, z) == if ly <= y <= hy && lz <= z < i
            then WallsVoxel(lx, ly, lz, hx, hy, hz, x, y, z, old(Lit(x, y, z)))
            else old(Lit(x, y, z))
      {
        var j := ly;
        while j <= hy
          invariant ly <= j <= hy + 1
          invariant forall x, y, z | InRange(x, y, z) ::
            Lit(x, y, z) == if ly <= y <= hy && lz <= z && (z < i || (z == i && y < j))
              then WallsVoxel(lx, ly, lz, hx, hy, hz, x, y, z, old(Lit(x, y, z)))
              else old(Lit(x, y, z))
        {
          WallsRow(lx, ly, lz, hx, hy, hz, i, j);
          j := j + 1;
        }
        i := i + 1;
      }
    }

    /** The BOX_FRAME branch of `box`, on ordered corners. */
    method BoxFrame(lx: uint8, ly: uint8, lz: uint8, hx: uint8, hy: uint8, hz: uint8)
      requires Valid()
      requires lx <= hx < LAYER_COUNT && ly <= hy < LAYER_COUNT && lz <= hz < LAYER_COUNT
      modifies buf
      ensures forall x, y, z | InRange(x, y, z) ::
        Lit(x, y, z) == FrameVoxel(lx, ly, lz, hx, hy, hz, x, y, z, old(Lit(x, y, z)))
    {
      var line := ByteLine(lx, hx);
      // the four rows along X
      buf[lz, ly] := line;
      buf[lz, hy] := line;
      buf[hz, ly] := line;
      buf[hz, hy] := line;
      // the edges along Y
      var j := ly;
      while j <= hy
        invariant ly <= j <= hy + 1
        invariant forall x, y, z | InRange(x, y, z) ::
          Lit(x, y, z) == (
            if End(y, ly, hy) && End(z, lz, hz) then lx <= x <= hx
            else old(Lit(x, y, z)) || (End(x, lx, hx) && End(z, lz, hz) && ly <= y < j))
      {
        SetVoxel(lx, j, lz);
        SetVoxel(lx, j, hz);
        SetVoxel(hx, j, lz);
        SetVoxel(hx, j, hz);
        j := j + 1;
      }
      // the edges along Z
      var i := lz;
      while i <= hz
        invariant lz <= i <= hz + 1
        invariant forall x, y, z | InRange(x, y, z) ::
          Lit(x, y, z) == (
            if End(y, ly, hy) && End(z, lz, hz) then lx <= x <= hx
            else old(Lit(x, y, z)) || (End(x, lx, hx) && ((End(z, lz, hz) && ly <= y <= hy) || (End(y, ly, hy) && lz <= z < i))))
      {
        SetVoxel(lx, ly, i);
        SetVoxel(lx, hy, i);
        SetVoxel(hx, ly, i);
        SetVoxel(hx, hy, i);
        i := i + 1;
      }
    }

    /**
     * `shift`: move the whole content one voxel along `axis`. Direction -1
     * moves it toward index 0 and clears the plane at 7; every other
     * direction moves it toward index 7 and clears the plane at 0. The copy is
     * done in place, one voxel at a time, layer by layer starting at the edge
     * the content moves toward, so that no layer is overwritten before it has
     * been read. An axis other than X, Y or Z leaves the buffer unchanged.
     */
    method Shift(axis: uint8, direction: int8)
      requires Valid()
      modifies buf
      ensures axis == AXIS_Z && direction == -1 ==> forall x, y, z | InRange(x, y, z) ::
        Lit(x, y, z) == (z < 7 && old(Lit(x, y, z + 1)))
      ensures axis == AXIS_Z && direction != -1 ==> forall x, y, z | InRange(x, y, z) ::
        Lit(x, y, z) == (z > 0 && old(Lit(x, y, z - 1)))
      ensures axis == AXIS_Y && direction == -1 ==> forall x, y, z | InRange(x, y, z) ::
        Lit(x, y, z) == (y < 7 && old(Lit(x, y + 1, z)))
      ensures axis == AXIS_Y && direction != -1 ==> forall x, y, z | InRange(x, y, z) ::
        Lit(x, y, z) == (y > 0 && old(Lit(x, y - 1, z)))
      ensures axis == AXIS_X && direction == -1 ==> forall x, y, z | InRange(x, y, z) ::
        Lit(x, y, z) == (x < 7 && old(Lit(x + 1, y, z)))
      ensures axis == AXIS_X && direction != -1 ==> forall x, y, z | InRange(x, y, z) ::
        Lit(x, y, z) == (x > 0 && old(Lit(x - 1, y, z)))
      ensures axis !in {AXIS_X, AXIS_Y, AXIS_Z} ==> unchanged(buf)
    {
      MoveLayers(axis, direction);
      var edge: uint8 := if direction == -1 then 7 else 0;
      if axis == AXIS_X {
        ClrPlaneX(edge);
      } else if axis == AXIS_Y {
        ClrPlaneY(edge);
      } else if axis == AXIS_Z {
        ClrPlaneZ(edge);
      }
    }

    /**
     * The outer loop of `shift`: the seven layers after the first along the
     * direction of travel each take the content of the layer behind them.
     */
    method MoveLayers(axis: uint8, direction: int8)
      requires Valid()
      modifies buf
      ensures axis !in {AXIS_X, AXIS_Y, AXIS_Z} ==> unchanged(buf)
      ensures axis in {AXIS_X, AXIS_Y, AXIS_Z} ==> forall x, y, z | InRange(x, y, z) ::
        Lit(x, y, z) == if Shifted(direction, 7, AxisCoord(axis, x, y, z))
          then old(LitAt(Moved(axis, x, y, z, if direction == -1 then 1 else -1))) else old(Lit(x, y, z))
    {
      var d := if direction == -1 then 1 else -1;
      for i := 0 to LAYER_COUNT - 1
        invariant axis !in {AXIS_X, AXIS_Y, AXIS_Z} ==> unchanged(buf)
        invariant axis in {AXIS_X, AXIS_Y, AXIS_Z} ==> forall x, y, z | InRange(x, y, z) ::
          Lit(x, y, z) == if Shifted(direction, i, AxisCoord(axis, x, y, z))
            then old(LitAt(Moved(axis, x, y, z, d))) else old(Lit(x, y, z))
      {
        var current: uint8 := if direction == -1 then i else 7 - i;
        var previous: uint8 := if direction == -1 then current + 1 else current - 1;
        ShiftLayer(axis, current, previous);
      }
    }

    /**
     * The body of `shift`'s outer loop: every voxel of layer `current` (along
     * `axis`) takes the state of its neighbour in layer `previous`.
     */
    method ShiftLayer(axis: uint8, current: uint8, previous: uint8)
      requires Valid()
      requires current < LAYER_COUNT && previous < LAYER_COUNT && current != previous
      modifies buf
      ensures axis in {AXIS_X, AXIS_Y, AXIS_Z} ==> forall x, y, z | InRange(x, y, z) ::
        Lit(x, y, z) == if AxisCoord(axis, x, y, z) == current
          then old(LitAt(Moved(axis, x, y, z, previous - current))) else old(Lit(x, y, z))
      ensures axis !in {AXIS_X, AXIS_Y, AXIS_Z} ==> unchanged(buf)
    {
      for j := 0 to LAYER_COUNT
        invariant axis !in {AXIS_X, AXIS_Y, AXIS_Z} ==> unchanged(buf)
        invariant axis in {AXIS_X, AXIS_Y, AXIS_Z} ==> forall x, y, z | InRange(x, y, z) ::
          Lit(x, y, z) == if AxisCoord(axis, x, y, z) == current && Counters(axis, x, y, z).0 < j
            then old(LitAt(Moved(axis, x, y, z, previous - current))) else old(Lit(x, y, z))
      {
        ShiftRow(axis, current, previous, j);
      }
    }

    /** The innermost loop of `shift`: the voxels of layer `current` whose first counter is `j`. */
    method ShiftRow(axis: uint8, current: uint8, previous: uint8, j: uint8)
      requires Valid()
      requires current < LAYER_COUNT && previous < LAYER_COUNT && current != previous && j < LAYER_COUNT
      modifies buf
      ensures axis in {AXIS_X, AXIS_Y, AXIS_Z} ==> forall x, y, z | InRange(x, y, z) ::
        Lit(x, y, z) == if AxisCoord(axis, x, y, z) == current && Counters(axis, x, y, z).0 == j
          then old(LitAt(Moved(axis, x, y, z, previous - current))) else old(Lit(x, y, z))
      ensures axis !in {AXIS_X, AXIS_Y, AXIS_Z} ==> unchanged(buf)
    {
      for k := 0 to LAYER_COUNT
        invariant axis !in {AXIS_X, AXIS_Y, AXIS_Z} ==> unchanged(buf)
        invariant axis in {AXIS_X, AXIS_Y, AXIS_Z} ==> forall x, y, z | InRange(x, y, z) ::
          Lit(x, y, z) == if AxisCoord(axis, x, y, z) == current && Counters(axis, x, y, z).0 == j && Counters(axis, x, y, z).1 < k
            then old(LitAt(Moved(axis, x, y, z, previous - current))) else old(Lit(x, y, z))
      {
        MoveVoxel(axis, current, previous, j, k);
      }
    }

    /**
     * The body of `shift`'s innermost loop: copy the voxel that the counters
     * (j, k) reach in layer `previous` to the one they reach in layer
     * `current`, through `getVoxel` and `alterVoxel`.
     */
    method MoveVoxel(axis: uint8, current: uint8, previous: uint8, j: uint8, k: uint8)
      requires Valid()
      requires current < LAYER_COUNT && previous < LAYER_COUNT && j < LAYER_COUNT && k < LAYER_COUNT
      modifies buf
      ensures axis in {AXIS_X, AXIS_Y, AXIS_Z} ==> forall x, y, z | InRange(x, y, z) ::
        Lit(x, y, z) == if (x, y, z) == Visit(axis, current, j, k)
          then old(LitAt(Visit(axis, previous, j, k))) else old(Lit(x, y, z))
      ensures axis !in {AXIS_X, AXIS_Y, AXIS_Z} ==> unchanged(buf)
    {
      if axis == AXIS_Z {
        var state := GetVoxel(j, k, previous);
        AlterVoxel(j, k, current, state);
      } else if axis == AXIS_Y {
        var state := GetVoxel(j, previous, k);
        AlterVoxel(j, current, k, state);
      } else if axis == AXIS_X {
        var state := GetVoxel(previous, k, j);
        AlterVoxel(current, k, j, state);
      }
    }

    /** `Lit` on a coordinate triple. */
    ghost predicate LitAt(v: (int, int, int))
      requires Valid()
      reads buf
    {
      Lit(v.0, v.1, v.2)
    }
  }
}
