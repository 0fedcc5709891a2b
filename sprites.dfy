/**
 * The sprite of src/entities/Sprites.ts: a sprite sheet cut into
 * `hFrames` x `vFrames` cells of `frameSize`, the frame map from frame
 * number to the top-left corner of its cell, and the choice of arguments
 * for `ctx.drawImage`.  The image resource is named by a string, and
 * whether it has loaded is a parameter of `DrawImage`.
 */
module SpriteSheet {
  import opened Options
  import opened Geometry
  import opened Clips
  import opened LegacyAnimations

  /** How many cells the nested loops visit: none unless both counts are positive. */
  function FrameCount(hFrames: int, vFrames: int): nat {
    if hFrames > 0 && vFrames > 0 then hFrames * vFrames else 0
  }

  /** The top-left corner of cell `k` in row-major order. */
  function CellOrigin(k: int, hFrames: int, frameSize: Vec): Vec {
    if hFrames > 0 then Vec(frameSize.x * (k % hFrames), frameSize.y * (k / hFrames)) else Vec(0, 0)
  }

  /** The entries for frames 0 .. n-1. */
  function FirstCells(n: int, hFrames: int, frameSize: Vec): map<int, Vec> {
    map k | 0 <= k < n :: CellOrigin(k, hFrames, frameSize)
  }

  /** The entries `buildFrameMap` writes. */
  function FrameMap(hFrames: int, vFrames: int, frameSize: Vec): map<int, Vec> {
    FirstCells(FrameCount(hFrames, vFrames), hFrames, frameSize)
  }

  /** Euclidean division recovers row and column of a row-major index. */
  lemma RowMajor(v: int, h: int, hFrames: int)
    requires 0 <= h < hFrames && 0 <= v
    ensures (v * hFrames + h) / hFrames == v && (v * hFrames + h) % hFrames == h
  {
    var k := v * hFrames + h;
    var q := k / hFrames;
    var r := k % hFrames;
    assert (q - v) * hFrames == h - r;
    MulBounds(q - v, hFrames);
  }

  /** A nonzero multiple of a positive number is at least that number away from zero. */
  lemma MulBounds(d: int, n: int)
    requires n > 0
    ensures d >= 1 ==> d * n >= n
    ensures d <= -1 ==> d * n <= -n
  {
    if d >= 1 {
      assert d * n == (d - 1) * n + n;
    } else if d <= -1 {
      assert d * n == (d + 1) * n - n;
    }
  }

  /** The frame number at the start of row v: v full rows of `rowLength` cells. */
  function RowStart(v: int, rowLength: int): int
    decreases v
  {
    if v <= 0 then 0 else RowStart(v - 1, rowLength) + rowLength
  }

  lemma {:induction false} RowStartIsProduct(v: int, rowLength: int)
    requires 0 <= v
    ensures RowStart(v, rowLength) == v * rowLength
    decreases v
  {
    if v > 0 {
      RowStartIsProduct(v - 1, rowLength);
      assert (v - 1) * rowLength + rowLength == v * rowLength;
    }
  }

  /** One more cell: writing frame `n`, in column h of row v, extends the first n entries by one. */
  lemma FirstCellsStep(n: int, h: int, v: int, hFrames: int, frameSize: Vec)
    requires 0 <= h < hFrames && 0 <= v && n == RowStart(v, hFrames) + h
    ensures FirstCells(n + 1, hFrames, frameSize) == FirstCells(n, hFrames, frameSize)[n := Vec(frameSize.x * h, frameSize.y * v)]
  {
    RowStartIsProduct(v, hFrames);
    RowMajor(v, h, hFrames);
    assert CellOrigin(n, hFrames, frameSize) == Vec(frameSize.x * h, frameSize.y * v);
  }

  lemma UpdateUnion(a: map<int, Vec>, b: map<int, Vec>, k: int, c: Vec)
    ensures (a + b)[k := c] == a + b[k := c]
  {
  }

  /** Frame `v*hFrames + h` is the cell in column h of row v. */
  lemma FrameMapCell(hFrames: int, vFrames: int, frameSize: Vec, h: int, v: int)
    requires 0 <= h < hFrames && 0 <= v < vFrames
    ensures v * hFrames + h in FrameMap(hFrames, vFrames, frameSize)
    ensures FrameMap(hFrames, vFrames, frameSize)[v * hFrames + h] == Vec(frameSize.x * h, frameSize.y * v)
  {
    RowMajor(v, h, hFrames);
    IndexBelowCount(v, h, hFrames, vFrames);
    assert CellOrigin(v * hFrames + h, hFrames, frameSize) == Vec(frameSize.x * h, frameSize.y * v);
  }

  /** A cell inside the sheet has a row-major index below the cell count. */
  lemma IndexBelowCount(v: int, h: int, hFrames: int, vFrames: int)
    requires 0 <= h < hFrames && 0 <= v < vFrames
    ensures 0 <= v * hFrames + h < FrameCount(hFrames, vFrames)
  {
    MulBounds(vFrames - v, hFrames);
    assert (vFrames - v) * hFrames == hFrames * vFrames - v * hFrames;
    assert 0 <= v * hFrames;
  }

  /** The keys are exactly 0 .. hFrames*vFrames - 1. */
  lemma FrameMapKeys(hFrames: int, vFrames: int, frameSize: Vec, k: int)
    ensures k in FrameMap(hFrames, vFrames, frameSize) <==> 0 <= k < FrameCount(hFrames, vFrames)
  {
  }

  lemma {:induction false} FirstCellsSize(n: nat, hFrames: int, frameSize: Vec)
    ensures |FirstCells(n, hFrames, frameSize)| == n
    decreases n
  {
    if n > 0 {
      FirstCellsSize(n - 1, hFrames, frameSize);
      var m := FirstCells(n - 1, hFrames, frameSize);
      assert FirstCells(n, hFrames, frameSize) == m[n - 1 := CellOrigin(n - 1, hFrames, frameSize)];
      assert n - 1 !in m;
    }
  }

  /** The map has exactly hFrames*vFrames entries. */
  lemma FrameMapSize(hFrames: int, vFrames: int, frameSize: Vec)
    ensures |FrameMap(hFrames, vFrames, frameSize)| == FrameCount(hFrames, vFrames)
  {
    FirstCellsSize(FrameCount(hFrames, vFrames), hFrames, frameSize);
  }

  /** With cells of positive size, different frames start at different corners. */
  lemma FrameMapInjective(hFrames: int, vFrames: int, frameSize: Vec, k1: int, k2: int)
    requires frameSize.x > 0 && frameSize.y > 0
    requires k1 in FrameMap(hFrames, vFrames, frameSize) && k2 in FrameMap(hFrames, vFrames, frameSize)
    requires FrameMap(hFrames, vFrames, frameSize)[k1] == FrameMap(hFrames, vFrames, frameSize)[k2]
    ensures k1 == k2
  {
    var q1, r1 := k1 / hFrames, k1 % hFrames;
    var q2, r2 := k2 / hFrames, k2 % hFrames;
    assert frameSize.x * r1 == frameSize.x * r2;
    assert frameSize.y * q1 == frameSize.y * q2;
    MulCancel(frameSize.x, r1, r2);
    MulCancel(frameSize.y, q1, q2);
  }

  lemma MulCancel(c: int, a: int, b: int)
    requires c > 0 && c * a == c * b
    ensures a == b
  {
    assert (a - b) * c == 0;
    MulBounds(a - b, c);
  }

  /** A sheet of one cell maps frame 0 to the origin and nothing else. */
  lemma SingleCell(frameSize: Vec)
    ensures FrameMap(1, 1, frameSize) == map[0 := Vec(0, 0)]
  {
  }

  /** The arguments of one `ctx.drawImage` call: source rectangle, then destination rectangle. */
  datatype DrawArgs = DrawArgs(image: string, sx: int, sy: int, sw: int, sh: int, dx: int, dy: int, dw: int, dh: int)

  class Sprite {
    const resource: string
    const frameSize: Vec
    const hFrames: int
    const vFrames: int
    var frame: int
    const scale: Vec
    const position: Vec
    var frameMap: map<int, Vec>
    const animations: Animations

    /** The frame map is the one the constructor built. */
    ghost predicate Valid()
      reads this
    {
      frameMap == FrameMap(hFrames, vFrames, frameSize)
    }

    /**
     * Defaults: 16x16 cells, one by one, frame 0, scale (1, 1), position
     * (0, 0) and a controller with no clips; the map is built at once.
     */
    constructor(resource: string, frameSize: Option<Vec> := None, hFrames: Option<int> := None,
                vFrames: Option<int> := None, frame: Option<int> := None, scale: Vec := Vec(1, 1),
                position: Vec := Vec(0, 0), animations: Option<Animations> := None)
      ensures this.resource == resource
      ensures this.frameSize == (if frameSize.Some? then frameSize.value else Vec(16, 16))
      ensures this.hFrames == (if hFrames.Some? then hFrames.value else 1)
      ensures this.vFrames == (if vFrames.Some? then vFrames.value else 1)
      ensures this.frame == (if frame.Some? then frame.value else 0)
      ensures this.scale == scale && this.position == position
      ensures animations.Some? ==> this.animations == animations.value
      ensures animations.None? ==> fresh(this.animations) && this.animations.patterns == map[] && this.animations.activeKey == None
      ensures Valid()
    {
      this.resource := resource;
      this.frameSize := if frameSize.Some? then frameSize.value else Vec(16, 16);
      this.hFrames := if hFrames.Some? then hFrames.value else 1;
      this.vFrames := if vFrames.Some? then vFrames.value else 1;
      this.frame := if frame.Some? then frame.value else 0;
      this.frameMap := map[];
      this.scale := scale;
      this.position := position;
      if animations.Some? {
        this.animations := animations.value;
      } else {
        this.animations := new Animations([], map[]);
      }
      new;
      BuildFrameMap();
    }

    /** Row by row, column by column: frame number `frameCount` gets the corner of the current cell. */
    method BuildFrameMap()
      modifies this`frameMap
      ensures frameMap == old(frameMap) + FrameMap(hFrames, vFrames, frameSize)
      ensures old(Valid()) ==> Valid()
    {
      ghost var base := frameMap;
      var size, columns, rows := frameSize, hFrames, vFrames;
      var frameCount := 0;
      var v := 0;
      ghost var rowLength := if columns > 0 then columns else 0;
      while v < rows
        invariant 0 <= v <= (if rows > 0 then rows else 0)
        invariant frameCount == RowStart(v, rowLength)
        invariant frameMap == base + FirstCells(frameCount, columns, size)
      {
        var h := 0;
        while h < columns
          invariant 0 <= h <= rowLength
          invariant frameCount == RowStart(v, rowLength) + h
          invariant frameMap == base + FirstCells(frameCount, columns, size)
        {
          var cell := Vec(size.x * h, size.y * v);
          FirstCellsStep(frameCount, h, v, columns, size);
          UpdateUnion(base, FirstCells(frameCount, columns, size), frameCount, cell);
          frameMap := frameMap[frameCount := cell];
          frameCount := frameCount + 1;
          h := h + 1;
        }
        v := v + 1;
      }
      assert frameCount == FrameCount(columns, rows) by {
        RowStartIsProduct(v, rowLength);
        if columns <= 0 {
          assert rowLength == 0;
        } else if rows <= 0 {
          assert v == 0;
        } else {
          assert v == rows;
        }
      }
    }

    /**
     * Steps the controller, then copies its frame.  `ok` is false where the
     * frame lookup throws; `frame` is then left as it was.
     */
    method Step(delta: real) returns (ok: bool)
      modifies this`frame, animations.Clips()
      ensures animations.HasActive() ==>
        var p := animations.patterns[animations.activeKey.value];
        && p.currentTime == Advanced(old(p.currentTime), delta, p.duration)
        && forall q :: q in animations.Clips() && q != p ==> q.currentTime == old(q.currentTime)
      ensures !animations.HasActive() ==> unchanged(animations.Clips())
      ensures ok <==> animations.CurrentFrame().Some?
      ensures ok ==> frame == animations.CurrentFrame().value
      ensures !ok ==> frame == old(frame)
    {
      animations.Step(delta);
      var f := animations.Frame();
      if f.Some? {
        frame := f.value;
        ok := true;
      } else {
        ok := false;
      }
    }

    /**
     * The `ctx.drawImage` call for destination (x, y), None when the image
     * has not loaded or there is no context.  The source rectangle is the
     * cell of `frame` (the origin when the map has no such frame), and the
     * destination is the cell scaled by `scale`.
     */
    method DrawImage(isLoaded: bool, hasContext: bool, x: int, y: int) returns (r: Option<DrawArgs>)
      requires Valid()
      ensures r.None? <==> !isLoaded || !hasContext
      ensures r.Some? ==> r.value.image == resource && r.value.dx == x && r.value.dy == y
      ensures r.Some? ==> r.value.sw == frameSize.x && r.value.sh == frameSize.y
      ensures r.Some? ==> r.value.dw == frameSize.x * scale.x && r.value.dh == frameSize.y * scale.y
      ensures r.Some? && 0 <= frame < FrameCount(hFrames, vFrames) ==>
        r.value.sx == frameSize.x * (frame % hFrames) && r.value.sy == frameSize.y * (frame / hFrames)
      ensures r.Some? && !(0 <= frame < FrameCount(hFrames, vFrames)) ==> r.value.sx == 0 && r.value.sy == 0
    {
      if !isLoaded {
        return None;
      }
      var frameCoordinateX := 0;
      var frameCoordinateY := 0;
      if frame in frameMap {
        frameCoordinateX := frameMap[frame].x;
        frameCoordinateY := frameMap[frame].y;
      }
      var frameSizeX := frameSize.x;
      var frameSizeY := frameSize.y;
      if !hasContext {
        return None;
      }
      r := Some(DrawArgs(resource, frameCoordinateX, frameCoordinateY, frameSizeX, frameSizeY,
                         x, y, frameSizeX * scale.x, frameSizeY * scale.y));
    }
  }

  /**
   * Drawing frame `v*hFrames + h` of a freshly built sheet cuts the cell in
   * column h of row v.
   */
  lemma DrawnCellOfFrame(hFrames: int, vFrames: int, frameSize: Vec, h: int, v: int)
    requires 0 <= h < hFrames && 0 <= v < vFrames
    ensures var k := v * hFrames + h;
      0 <= k < FrameCount(hFrames, vFrames) && frameSize.x * (k % hFrames) == frameSize.x * h && frameSize.y * (k / hFrames) == frameSize.y * v
  {
    FrameMapCell(hFrames, vFrames, frameSize, h, v);
    RowMajor(v, h, hFrames);
  }
}

/**
 * The older sprite of src/Sprites.ts: the same frame map without a
 * controller or a draw method.
 */
module LegacySprites {
  import opened Options
  import opened Geometry
  import opened SpriteSheet

  class Sprites {
    const resource: string
    const frameSize: Vec
    const hFrames: int
    const vFrames: int
    var frame: int
    const scale: Vec
    const position: Vec
    var frameMap: map<int, Vec>

    /** Defaults: 16x16 cells, frame 0, scale (1, 1), position (0, 0); the map is built at once. */
    constructor(resource: string, hFrames: Option<int>, vFrames: Option<int>, frameSize: Option<Vec> := None,
                frame: int := 0, scale: Vec := Vec(1, 1), position: Vec := Vec(0, 0))
      ensures this.resource == resource && this.frame == frame
      ensures this.frameSize == (if frameSize.Some? then frameSize.value else Vec(16, 16))
      ensures this.hFrames == (if hFrames.Some? then hFrames.value else 1)
      ensures this.vFrames == (if vFrames.Some? then vFrames.value else 1)
      ensures this.scale == scale && this.position == position
      ensures frameMap == FrameMap(this.hFrames, this.vFrames, this.frameSize)
    {
      this.resource := resource;
      this.frameSize := if frameSize.Some? then frameSize.value else Vec(16, 16);
      this.hFrames := if hFrames.Some? then hFrames.value else 1;
      this.vFrames := if vFrames.Some? then vFrames.value else 1;
      this.frame := frame;
      this.frameMap := map[];
      this.scale := scale;
      this.position := position;
      new;
      BuildFrameMap();
    }

    /** The same nested loops as the newer sprite's `buildFrameMap`. */
    method BuildFrameMap()
      modifies this`frameMap
      ensures frameMap == old(frameMap) + FrameMap(hFrames, vFrames, frameSize)
    {
      ghost var base := frameMap;
      var size, columns, rows := frameSize, hFrames, vFrames;
      var frameCount := 0;
      var v := 0;
      ghost var rowLength := if columns > 0 then columns else 0;
      while v < rows
        invariant 0 <= v <= (if rows > 0 then rows else 0)
        invariant frameCount == RowStart(v, rowLength)
        invariant frameMap == base + FirstCells(frameCount, columns, size)
      {
        var h := 0;
        while h < columns
          invariant 0 <= h <= rowLength
          invariant frameCount == RowStart(v, rowLength) + h
          invariant frameMap == base + FirstCells(frameCount, columns, size)
        {
          var cell := Vec(size.x * h, size.y * v);
          FirstCellsStep(frameCount, h, v, columns, size);
          UpdateUnion(base, FirstCells(frameCount, columns, size), frameCount, cell);
          frameMap := frameMap[frameCount := cell];
          frameCount := frameCount + 1;
          h := h + 1;
        }
        v := v + 1;
      }
      assert frameCount == FrameCount(columns, rows) by {
        RowStartIsProduct(v, rowLength);
        if columns <= 0 {
          assert rowLength == 0;
        } else if rows <= 0 {
          assert v == 0;
        } else {
          assert v == rows;
        }
      }
    }
  }

  /** A one-cell sheet built from scratch holds the single entry 0 -> (0, 0). */
  method OneCellSheet(resource: string) returns (m: map<int, Vec>)
    ensures m == map[0 := Vec(0, 0)]
  {
    var s := new Sprites(resource, Some(1), Some(1));
    SingleCell(s.frameSize);
    m := s.frameMap;
  }
}
