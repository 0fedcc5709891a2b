/**
 * The grid helpers of src/utils/grid.ts: tile-to-pixel conversion and the
 * wall lookup.  Walls are a set of keys formatted as the template string
 * `${x},${y}`, so a coordinate pair is first rendered as text.
 */
module Grid {

  /** Side of one grid cell, in pixels. */
  const CellSize: int := 16

  /** Pixel position of tile `n`: a multiple of the cell size from which the tile is recovered. */
  function GridCells(n: int): (px: int)
    ensures px % CellSize == 0 && px / CellSize == n
  {
    n * CellSize
  }

  /** `gridCells` is linear: it maps 0 to 0 and sums to sums. */
  lemma GridCellsAdditive(a: int, b: int)
    ensures GridCells(0) == 0
    ensures GridCells(a + b) == GridCells(a) + GridCells(b)
  {
  }

  /** Decimal digit character of `d`. */
  function DigitChar(d: nat): char
    requires d < 10
  {
    "0123456789"[d]
  }

  predicate IsDigit(c: char) {
    '0' <= c <= '9'
  }

  /** The decimal text of a natural number, as JavaScript renders an integral number. */
  function NatText(n: nat): (s: string)
    ensures |s| >= 1
    ensures forall i :: 0 <= i < |s| ==> IsDigit(s[i])
    ensures n < 10 <==> |s| == 1
    decreases n
  {
    if n < 10 then [DigitChar(n)] else NatText(n / 10) + [DigitChar(n % 10)]
  }

  /** The decimal text of an integer: a leading '-' for negative numbers. */
  function IntText(n: int): string {
    if n < 0 then "-" + NatText(-n) else NatText(n)
  }

  /**
   * The wall key `${x},${y}`: the text of x, then the only comma of the key,
   * then the text of y.
   */
  function Key(x: int, y: int): (k: string)
    ensures |k| == |IntText(x)| + 1 + |IntText(y)| && |k| >= 3
    ensures k[..|IntText(x)|] == IntText(x) && k[|IntText(x)| + 1..] == IntText(y)
    ensures forall j :: 0 <= j < |k| ==> (k[j] == ',' <==> j == |IntText(x)|)
  {
    var a, b := IntText(x), IntText(y);
    IntTextSign(x);
    IntTextSign(y);
    IntTextHasNoComma(x);
    IntTextHasNoComma(y);
    CommaJoin(a, b)
  }

  /** `a + "," + b` with the comma at index `|a|` and nowhere else, when a and b have none. */
  function CommaJoin(a: string, b: string): (k: string)
    requires ',' !in a && ',' !in b
    ensures |k| == |a| + 1 + |b|
    ensures k[..|a|] == a && k[|a| + 1..] == b
    ensures forall j :: 0 <= j < |k| ==> (k[j] == ',' <==> j == |a|)
  {
    var k := a + "," + b;
    assert forall j :: 0 <= j < |a| ==> k[j] == a[j];
    assert forall j :: |a| < j < |k| ==> k[j] == b[j - |a| - 1];
    k
  }

  /**
   * True when no wall is stored under the key of (x, y), that is when no
   * wall key names the cell (x, y); `walls` is only read.
   */
  function IsSpaceFree(walls: set<string>, x: int, y: int): (free: bool)
    ensures free <==> forall x2, y2 :: Key(x2, y2) in walls ==> (x2, y2) != (x, y)
  {
    Key(x, y) !in walls
  }

  lemma DigitCharInjective(a: nat, b: nat)
    requires a < 10 && b < 10 && DigitChar(a) == DigitChar(b)
    ensures a == b
  {
  }

  /** Different natural numbers have different decimal texts. */
  lemma {:induction false} NatTextInjective(a: nat, b: nat)
    requires NatText(a) == NatText(b)
    ensures a == b
    decreases a
  {
    var s := NatText(a);
    if a < 10 {
      assert |NatText(b)| == 1;
      DigitCharInjective(a, b);
    } else {
      assert b >= 10;
      var n := |s|;
      assert NatText(a) == NatText(a / 10) + [DigitChar(a % 10)];
      assert NatText(b) == NatText(b / 10) + [DigitChar(b % 10)];
      assert s[n - 1] == DigitChar(a % 10) && s[n - 1] == DigitChar(b % 10);
      DigitCharInjective(a % 10, b % 10);
      assert NatText(a / 10) == s[..n - 1] == NatText(b / 10);
      NatTextInjective(a / 10, b / 10);
    }
  }

  /** Different integers have different texts, and no integer's text contains a comma. */
  lemma IntTextInjective(a: int, b: int)
    requires IntText(a) == IntText(b)
    ensures a == b
  {
    IntTextSign(a);
    IntTextSign(b);
    if a < 0 {
      assert NatText(-a) == IntText(a)[1..] == NatText(-b);
      NatTextInjective(-a, -b);
    } else {
      NatTextInjective(a, b);
    }
  }

  /** The text starts with '-' exactly for negative numbers. */
  lemma IntTextSign(n: int)
    ensures |IntText(n)| >= 1
    ensures IntText(n)[0] == '-' <==> n < 0
  {
    if n >= 0 {
      assert IsDigit(NatText(n)[0]);
    }
  }

  lemma IntTextHasNoComma(n: int)
    ensures ',' !in IntText(n)
  {
    var s := IntText(n);
    if n < 0 {
      assert forall i :: 1 <= i < |s| ==> s[i] == NatText(-n)[i - 1];
    }
  }

  /** The characters of `a + "," + b` up to and including the comma. */
  lemma CharsOfJoin(a: string, b: string, i: int)
    ensures 0 <= i < |a| ==> (a + "," + b)[i] == a[i]
    ensures i == |a| ==> (a + "," + b)[i] == ','
  {
  }

  /** Splitting at the first comma recovers both halves when the left halves have no comma. */
  lemma {:induction false} SplitAtComma(a: string, b: string, c: string, d: string)
    requires ',' !in a && ',' !in c
    requires a + "," + b == c + "," + d
    ensures a == c && b == d
    decreases |a|
  {
    var s := a + "," + b;
    if |a| < |c| {
      CharsOfJoin(a, b, |a|);
      CharsOfJoin(c, d, |a|);
      assert false;
    } else if |c| < |a| {
      CharsOfJoin(c, d, |c|);
      CharsOfJoin(a, b, |c|);
      assert false;
    } else {
      assert a == s[..|a|] == c;
      assert b == s[|a| + 1..] == d;
    }
  }

  /** The key format is injective: two coordinate pairs share a key only when they are equal. */
  lemma KeyInjective(x1: int, y1: int, x2: int, y2: int)
    requires Key(x1, y1) == Key(x2, y2)
    ensures x1 == x2 && y1 == y2
  {
    IntTextHasNoComma(x1);
    IntTextHasNoComma(x2);
    SplitAtComma(IntText(x1), IntText(y1), IntText(x2), IntText(y2));
    IntTextInjective(x1, x2);
    IntTextInjective(y1, y2);
  }

  /** The keys of a set of wall cells. */
  function WallKeys(cells: set<(int, int)>): set<string> {
    set c | c in cells :: Key(c.0, c.1)
  }

  /** With walls listed as cells, a space is free exactly when it is not one of those cells. */
  lemma IsSpaceFreeMeansNotAWall(cells: set<(int, int)>, x: int, y: int)
    ensures IsSpaceFree(WallKeys(cells), x, y) <==> (x, y) !in cells
  {
    if !IsSpaceFree(WallKeys(cells), x, y) {
      var c :| c in cells && Key(c.0, c.1) == Key(x, y);
      KeyInjective(c.0, c.1, x, y);
    }
  }
}

/**
 * src/helpers/grid.ts: the same two helpers as src/utils/grid.ts, written
 * with an intermediate `isWallPresent`.  The hero consults this copy.
 */
module HelperGrid {
  import Grid

  /** Pixel position of tile `n`, the same as the utils copy. */
  function GridCells(n: int): (px: int)
    ensures px == Grid.GridCells(n)
  {
    n * 16
  }

  /** `gridCells` maps 0 to 0 and is additive. */
  lemma GridCellsAdditive(a: int, b: int)
    ensures GridCells(0) == 0
    ensures GridCells(a + b) == GridCells(a) + GridCells(b)
  {
  }

  /** True iff the key `${x},${y}` is not a member of `walls`; `walls` is only read. */
  function IsSpaceFree(walls: set<string>, x: int, y: int): (free: bool)
    ensures free == Grid.IsSpaceFree(walls, x, y)
  {
    var isWallPresent := Grid.Key(x, y) in walls;
    !isWallPresent
  }

  /** Both copies of the helpers compute the same results. */
  lemma AgreesWithUtilsGrid(walls: set<string>, x: int, y: int, n: int)
    ensures IsSpaceFree(walls, x, y) == Grid.IsSpaceFree(walls, x, y)
    ensures GridCells(n) == Grid.GridCells(n)
  {
  }
}
