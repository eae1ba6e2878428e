/** The values that `draw_rectangles` in examples/rectangles.rs works with, the
    sequence of draw calls it issues for each rectangle (as specification
    functions), and the properties of that sequence: how many tiles, where each
    one goes, which copy is mirrored, and that the tiles partition each edge. */
module Tiling {
  import opened Wrappers

  /** An entry of a colour-modulation matrix. The f32 values are not modelled:
      a channel of the rectangle's colour is an opaque tag, and 0.0 and 1.0 are
      the two constants `mat` writes off the diagonal and in the alpha slot. */
  datatype Entry = Zero | One | Channel(tag: int)

  /** A rectangle's colour `(r, g, b)`, each channel an opaque f32 tag. */
  datatype Rgb = Rgb(r: int, g: int, b: int)

  /** A row-major 4x4 matrix. */
  type Matrix = seq<seq<Entry>>

  /** A loaded texture: its driver id and its dimensions in pixels (u32). */
  datatype Texture = Texture(id: nat, width: nat, height: nat)

  /** What a draw call samples from: a whole texture, or a section of it given
      by an offset and an extent within the texture's pixel space. */
  datatype Source =
    | Whole(texture: Texture)
    | Section(texture: Texture, offsetX: nat, offsetY: nat, extentW: nat, extentH: nat)

  /** The fields of `DrawConfig` that `draw_rectangles` sets; every other field
      keeps its default. */
  datatype DrawConfig = DrawConfig(colorModulation: Matrix, flipHorizontally: bool, flipVertically: bool)

  /** One `ctx.draw(surface, source, (x, y), config)` call. */
  datatype DrawCall = DrawCall(source: Source, x: int, y: int, config: DrawConfig)

  /** A shape to be bordered: top-left position (i32), size (u32) and colour. */
  datatype Rectangle = Rectangle(x: int, y: int, width: nat, height: nat, color: Rgb)

  /** `mat`: the diagonal matrix that multiplies red, green and blue by the
      rectangle's channels and leaves alpha alone. */
  function Mat(c: Rgb): (m: Matrix)
    ensures |m| == 4 && forall i :: 0 <= i < 4 ==> |m[i]| == 4
    ensures m[0][0] == Channel(c.r) && m[1][1] == Channel(c.g) && m[2][2] == Channel(c.b)
    ensures m[3][3] == One
    ensures forall i, j :: 0 <= i < 4 && 0 <= j < 4 && i != j ==> m[i][j] == Zero
  {
    [ [Channel(c.r), Zero, Zero, Zero],
      [Zero, Channel(c.g), Zero, Zero],
      [Zero, Zero, Channel(c.b), Zero],
      [Zero, Zero, Zero, One] ]
  }

  /** Distinct colours give distinct modulation matrices: the matrix a draw
      carries determines the rectangle colour it came from. Nothing in the
      program relies on this; it is a sanity property of `Mat`. */
  lemma MatInjective(a: Rgb, b: Rgb)
    requires Mat(a) == Mat(b)
    ensures a == b
  {
    assert Mat(a)[0][0] == Mat(b)[0][0];
    assert Mat(a)[1][1] == Mat(b)[1][1];
    assert Mat(a)[2][2] == Mat(b)[2][2];
  }

  /** Number of rows a source covers on screen. */
  function SourceHeight(s: Source): nat
  {
    if s.Whole? then s.texture.height else s.extentH
  }

  /** Number of columns a source covers on screen. */
  function SourceWidth(s: Source): nat
  {
    if s.Whole? then s.texture.width else s.extentW
  }

  /** A section lies inside the pixel space of its texture. */
  predicate WithinTexture(s: Source)
  {
    s.Section? ==>
      s.offsetX + s.extentW <= s.texture.width && s.offsetY + s.extentH <= s.texture.height
  }

  /** The counting loops only terminate, unless a draw fails, when the tile
      dimension they subtract is positive: `checked_sub(0)` always succeeds. */
  predicate TilesUsable(vertical: Texture, horizontal: Texture)
  {
    vertical.height > 0 && horizontal.width > 0
  }

  /** `u32::checked_sub`: `None` exactly when the difference would be negative. */
  function CheckedSub(a: nat, b: nat): (r: Option<nat>)
    ensures r.Some? <==> b <= a
    ensures r.Some? ==> r.value + b == a
  {
    if b <= a then Some(a - b) else None
  }

  // ---------------------------------------------------------------------------
  // The draw calls for one rectangle, as the source issues them.

  /** `right_pos`: x of the mirrored right-edge column. */
  function RightPos(r: Rectangle, vertical: Texture): int
  {
    r.x + r.width - vertical.width
  }

  /** `horizontal_height`: y of the bottom edge row. */
  function BottomRow(r: Rectangle, horizontal: Texture): int
  {
    r.y + r.height - horizontal.height
  }

  function Config(r: Rectangle, flipH: bool, flipV: bool): DrawConfig
  {
    DrawConfig(Mat(r.color), flipH, flipV)
  }

  /** The k-th full vertical tile (k >= 1), counted from the bottom, on the
      left edge or, mirrored, on the right edge. */
  function VerticalTile(r: Rectangle, vertical: Texture, k: nat, right: bool): DrawCall
  {
    DrawCall(Whole(vertical), if right then RightPos(r, vertical) else r.x,
             r.y + r.height - k * vertical.height, Config(r, right, false))
  }

  /** The first n iterations of the vertical loop: left copy, then right copy. */
  function VerticalPairs(r: Rectangle, vertical: Texture, n: nat): seq<DrawCall>
  {
    if n == 0 then []
    else VerticalPairs(r, vertical, n - 1)
         + [VerticalTile(r, vertical, n, false), VerticalTile(r, vertical, n, true)]
  }

  /** The `height` left once the vertical loop stops. */
  function VerticalLeftover(r: Rectangle, vertical: Texture): nat
    requires vertical.height > 0
  {
    r.height % vertical.height
  }

  /** `vertical_section`: the bottom rows of the vertical tile. */
  function VerticalSection(r: Rectangle, vertical: Texture): Source
    requires vertical.height > 0
  {
    var rest := VerticalLeftover(r, vertical);
    Section(vertical, 0, vertical.height - rest, vertical.width, rest)
  }

  function VerticalRemainder(r: Rectangle, vertical: Texture, right: bool): DrawCall
    requires vertical.height > 0
  {
    DrawCall(VerticalSection(r, vertical), if right then RightPos(r, vertical) else r.x,
             r.y, Config(r, right, false))
  }

  /** All draws for the left and right edges. */
  function VerticalCalls(r: Rectangle, vertical: Texture): seq<DrawCall>
    requires vertical.height > 0
  {
    VerticalPairs(r, vertical, r.height / vertical.height)
    + [VerticalRemainder(r, vertical, false), VerticalRemainder(r, vertical, true)]
  }

  /** The k-th full horizontal tile (k >= 1), counted from the right, on the
      bottom edge or, mirrored, on the top edge. */
  function HorizontalTile(r: Rectangle, horizontal: Texture, k: nat, top: bool): DrawCall
  {
    DrawCall(Whole(horizontal), r.x + r.width - k * horizontal.width,
             if top then r.y else BottomRow(r, horizontal), Config(r, false, top))
  }

  /** The first n iterations of the horizontal loop: bottom copy, then top copy. */
  function HorizontalPairs(r: Rectangle, horizontal: Texture, n: nat): seq<DrawCall>
  {
    if n == 0 then []
    else HorizontalPairs(r, horizontal, n - 1)
         + [HorizontalTile(r, horizontal, n, false), HorizontalTile(r, horizontal, n, true)]
  }

  /** The `horizontal_pos` left once the horizontal loop stops. */
  function HorizontalLeftover(r: Rectangle, horizontal: Texture): nat
    requires horizontal.width > 0
  {
    r.width % horizontal.width
  }

  /** `horizontal_section`: the rightmost columns of the horizontal tile. */
  function HorizontalSection(r: Rectangle, horizontal: Texture): Source
    requires horizontal.width > 0
  {
    var rest := HorizontalLeftover(r, horizontal);
    Section(horizontal, horizontal.width - rest, 0, rest, horizontal.height)
  }

  function HorizontalRemainder(r: Rectangle, horizontal: Texture, top: bool): DrawCall
    requires horizontal.width > 0
  {
    DrawCall(HorizontalSection(r, horizontal), r.x,
             if top then r.y else BottomRow(r, horizontal), Config(r, false, top))
  }

  /** All draws for the bottom and top edges. */
  function HorizontalCalls(r: Rectangle, horizontal: Texture): seq<DrawCall>
    requires horizontal.width > 0
  {
    HorizontalPairs(r, horizontal, r.width / horizontal.width)
    + [HorizontalRemainder(r, horizontal, false), HorizontalRemainder(r, horizontal, true)]
  }

  /** Every draw one iteration of the outer loop issues, in order. */
  function RectangleCalls(r: Rectangle, vertical: Texture, horizontal: Texture): seq<DrawCall>
    requires TilesUsable(vertical, horizontal)
  {
    VerticalCalls(r, vertical) + HorizontalCalls(r, horizontal)
  }

  /** Every draw `draw_rectangles` issues when none fails: the rectangles in
      deque order, each contributing its own calls. */
  function Plan(rects: seq<Rectangle>, vertical: Texture, horizontal: Texture): seq<DrawCall>
    requires TilesUsable(vertical, horizontal)
  {
    if rects == [] then []
    else RectangleCalls(rects[0], vertical, horizontal) + Plan(rects[1..], vertical, horizontal)
  }

  // ---------------------------------------------------------------------------
  // Shape of the pair sequences.

  lemma {:induction false} VerticalPairsLength(r: Rectangle, vertical: Texture, n: nat)
    ensures |VerticalPairs(r, vertical, n)| == 2 * n
  {
    if n > 0 { VerticalPairsLength(r, vertical, n - 1); }
  }

  lemma {:induction false} HorizontalPairsLength(r: Rectangle, horizontal: Texture, n: nat)
    ensures |HorizontalPairs(r, horizontal, n)| == 2 * n
  {
    if n > 0 { HorizontalPairsLength(r, horizontal, n - 1); }
  }

  /** The k-th iteration's two draws sit at positions 2(k-1) and 2k-1. */
  lemma {:induction false} VerticalPairsAt(r: Rectangle, vertical: Texture, n: nat, k: nat)
    requires 1 <= k <= n
    ensures |VerticalPairs(r, vertical, n)| == 2 * n
    ensures VerticalPairs(r, vertical, n)[2 * k - 2] == VerticalTile(r, vertical, k, false)
    ensures VerticalPairs(r, vertical, n)[2 * k - 1] == VerticalTile(r, vertical, k, true)
  {
    VerticalPairsLength(r, vertical, n);
    VerticalPairsLength(r, vertical, n - 1);
    if k < n { VerticalPairsAt(r, vertical, n - 1, k); }
  }

  lemma {:induction false} HorizontalPairsAt(r: Rectangle, horizontal: Texture, n: nat, k: nat)
    requires 1 <= k <= n
    ensures |HorizontalPairs(r, horizontal, n)| == 2 * n
    ensures HorizontalPairs(r, horizontal, n)[2 * k - 2] == HorizontalTile(r, horizontal, k, false)
    ensures HorizontalPairs(r, horizontal, n)[2 * k - 1] == HorizontalTile(r, horizontal, k, true)
  {
    HorizontalPairsLength(r, horizontal, n);
    HorizontalPairsLength(r, horizontal, n - 1);
    if k < n { HorizontalPairsAt(r, horizontal, n - 1, k); }
  }

  /** Running the loop further only appends: earlier iterations' draws stay put. */
  lemma {:induction false} VerticalPairsPrefix(r: Rectangle, vertical: Texture, m: nat, n: nat)
    requires m <= n
    ensures VerticalPairs(r, vertical, m) <= VerticalPairs(r, vertical, n)
  {
    if m < n { VerticalPairsPrefix(r, vertical, m, n - 1); }
  }

  lemma {:induction false} HorizontalPairsPrefix(r: Rectangle, horizontal: Texture, m: nat, n: nat)
    requires m <= n
    ensures HorizontalPairs(r, horizontal, m) <= HorizontalPairs(r, horizontal, n)
  {
    if m < n { HorizontalPairsPrefix(r, horizontal, m, n - 1); }
  }

  // ---------------------------------------------------------------------------
  // Per-rectangle properties.

  /** Per rectangle the code issues 2*(height / vh) + 2*(width / hw) + 4 draws:
      the four remainder draws are always there, even when a leftover is 0. */
  lemma RectangleCallCount(r: Rectangle, vertical: Texture, horizontal: Texture)
    requires TilesUsable(vertical, horizontal)
    ensures |RectangleCalls(r, vertical, horizontal)|
            == 2 * (r.height / vertical.height) + 2 * (r.width / horizontal.width) + 4
  {
    VerticalPairsLength(r, vertical, r.height / vertical.height);
    HorizontalPairsLength(r, horizontal, r.width / horizontal.width);
  }

  /** The k-th full vertical pair is the k-th tile up from the bottom: both copies
      at y = y + height - k*vh, the left one at x, the right one at the right
      edge and the only one mirrored horizontally; neither flips vertically. */
  lemma VerticalTilePlacement(r: Rectangle, vertical: Texture, horizontal: Texture, k: nat)
    requires TilesUsable(vertical, horizontal)
    requires 1 <= k <= r.height / vertical.height
    ensures |RectangleCalls(r, vertical, horizontal)| > 2 * k - 1
    ensures RectangleCalls(r, vertical, horizontal)[2 * k - 2]
            == DrawCall(Whole(vertical), r.x, r.y + r.height - k * vertical.height,
                        DrawConfig(Mat(r.color), false, false))
    ensures RectangleCalls(r, vertical, horizontal)[2 * k - 1]
            == DrawCall(Whole(vertical), r.x + r.width - vertical.width,
                        r.y + r.height - k * vertical.height,
                        DrawConfig(Mat(r.color), true, false))
  {
    VerticalPairsAt(r, vertical, r.height / vertical.height, k);
  }

  /** After the full pairs come the two vertical remainder draws: the bottom
      `rest = height % vh` rows of the tile, a section inside the tile, drawn
      at the rectangle's top on the left and, mirrored, on the right. */
  lemma VerticalRemainderPlacement(r: Rectangle, vertical: Texture, horizontal: Texture)
    requires TilesUsable(vertical, horizontal)
    ensures var n, rest := r.height / vertical.height, r.height % vertical.height;
      var calls := RectangleCalls(r, vertical, horizontal);
      && rest < vertical.height
      && r.height == n * vertical.height + rest
      && |calls| > 2 * n + 1
      && calls[2 * n] == DrawCall(Section(vertical, 0, vertical.height - rest, vertical.width, rest),
                                  r.x, r.y, DrawConfig(Mat(r.color), false, false))
      && calls[2 * n + 1] == DrawCall(Section(vertical, 0, vertical.height - rest, vertical.width, rest),
                                      r.x + r.width - vertical.width, r.y,
                                      DrawConfig(Mat(r.color), true, false))
      && WithinTexture(calls[2 * n].source)
  {
    VerticalPairsLength(r, vertical, r.height / vertical.height);
  }

  /** The k-th full horizontal pair is the k-th tile from the right: both at
      x = x + width - k*hw, the bottom copy unflipped on the bottom row, the top
      copy at y and the only one mirrored vertically. */
  lemma HorizontalTilePlacement(r: Rectangle, vertical: Texture, horizontal: Texture, k: nat)
    requires TilesUsable(vertical, horizontal)
    requires 1 <= k <= r.width / horizontal.width
    ensures var base := 2 * (r.height / vertical.height) + 2;
      var calls := RectangleCalls(r, vertical, horizontal);
      && |calls| > base + 2 * k - 1
      && calls[base + 2 * k - 2]
         == DrawCall(Whole(horizontal), r.x + r.width - k * horizontal.width,
                     r.y + r.height - horizontal.height, DrawConfig(Mat(r.color), false, false))
      && calls[base + 2 * k - 1]
         == DrawCall(Whole(horizontal), r.x + r.width - k * horizontal.width,
                     r.y, DrawConfig(Mat(r.color), false, true))
  {
    var v := VerticalCalls(r, vertical);
    VerticalPairsLength(r, vertical, r.height / vertical.height);
    HorizontalPairsAt(r, horizontal, r.width / horizontal.width, k);
    assert RectangleCalls(r, vertical, horizontal)[|v| + 2 * k - 2]
           == HorizontalCalls(r, horizontal)[2 * k - 2];
    assert RectangleCalls(r, vertical, horizontal)[|v| + 2 * k - 1]
           == HorizontalCalls(r, horizontal)[2 * k - 1];
  }

  /** The last two draws: the rightmost `rest = width % hw` columns of the tile,
      a section inside the tile, drawn at x on the bottom row and, mirrored
      vertically, on the top row. */
  lemma HorizontalRemainderPlacement(r: Rectangle, vertical: Texture, horizontal: Texture)
    requires TilesUsable(vertical, horizontal)
    ensures var n, rest := r.width / horizontal.width, r.width % horizontal.width;
      var calls := RectangleCalls(r, vertical, horizontal);
      var last := |calls| - 1;
      && rest < horizontal.width
      && r.width == n * horizontal.width + rest
      && last >= 1
      && calls[last - 1] == DrawCall(Section(horizontal, horizontal.width - rest, 0, rest, horizontal.height),
                                     r.x, r.y + r.height - horizontal.height,
                                     DrawConfig(Mat(r.color), false, false))
      && calls[last] == DrawCall(Section(horizontal, horizontal.width - rest, 0, rest, horizontal.height),
                                 r.x, r.y, DrawConfig(Mat(r.color), false, true))
      && WithinTexture(calls[last].source)
  {
  }

  /** Every draw for a rectangle carries that rectangle's colour modulation. */
  lemma RectangleTinted(r: Rectangle, vertical: Texture, horizontal: Texture)
    requires TilesUsable(vertical, horizontal)
    ensures forall c :: c in RectangleCalls(r, vertical, horizontal) ==>
                          c.config.colorModulation == Mat(r.color)
  {
    VerticalPairsTinted(r, vertical, r.height / vertical.height);
    HorizontalPairsTinted(r, horizontal, r.width / horizontal.width);
  }

  lemma {:induction false} VerticalPairsTinted(r: Rectangle, vertical: Texture, n: nat)
    ensures forall c :: c in VerticalPairs(r, vertical, n) ==> c.config.colorModulation == Mat(r.color)
  {
    if n > 0 { VerticalPairsTinted(r, vertical, n - 1); }
  }

  lemma {:induction false} HorizontalPairsTinted(r: Rectangle, horizontal: Texture, n: nat)
    ensures forall c :: c in HorizontalPairs(r, horizontal, n) ==> c.config.colorModulation == Mat(r.color)
  {
    if n > 0 { HorizontalPairsTinted(r, horizontal, n - 1); }
  }

  /** Every section the composer draws lies inside its tile texture. */
  lemma RectangleSectionsInside(r: Rectangle, vertical: Texture, horizontal: Texture)
    requires TilesUsable(vertical, horizontal)
    ensures forall c :: c in RectangleCalls(r, vertical, horizontal) ==> WithinTexture(c.source)
  {
    VerticalPairsWhole(r, vertical, r.height / vertical.height);
    HorizontalPairsWhole(r, horizontal, r.width / horizontal.width);
  }

  lemma {:induction false} VerticalPairsWhole(r: Rectangle, vertical: Texture, n: nat)
    ensures forall c :: c in VerticalPairs(r, vertical, n) ==> c.source == Whole(vertical)
  {
    if n > 0 { VerticalPairsWhole(r, vertical, n - 1); }
  }

  lemma {:induction false} HorizontalPairsWhole(r: Rectangle, horizontal: Texture, n: nat)
    ensures forall c :: c in HorizontalPairs(r, horizontal, n) ==> c.source == Whole(horizontal)
  {
    if n > 0 { HorizontalPairsWhole(r, horizontal, n - 1); }
  }

  // ---------------------------------------------------------------------------
  // The tiles partition each edge.

  /** The span along one edge of tile k: k = 0 is the remainder at the origin
      corner, k >= 1 the k-th full tile counted from the far end. `base` is the
      edge's start, `length` its length and `tile` the tile's size. */
  function EdgeLo(base: int, length: nat, tile: nat, k: nat): int
    requires tile > 0
  {
    if k == 0 then base else base + length - k * tile
  }

  function EdgeHi(base: int, length: nat, tile: nat, k: nat): int
    requires tile > 0
  {
    if k == 0 then base + length % tile else base + length - (k - 1) * tile
  }

  lemma MulMonotone(a: int, b: int, t: nat)
    requires a <= b
    ensures a * t <= b * t
  {
  }

  /** Every tile's span lies within the edge. */
  lemma EdgeWithin(base: int, length: nat, tile: nat, k: nat)
    requires tile > 0 && k <= length / tile
    ensures base <= EdgeLo(base, length, tile, k) <= EdgeHi(base, length, tile, k) <= base + length
  {
    var n := length / tile;
    assert length == n * tile + length % tile;
    if k > 0 {
      MulMonotone(k, n, tile);
      MulMonotone(0, k - 1, tile);
      assert k * tile == (k - 1) * tile + tile;
    }
  }

  /** Every point of the edge lies in the span of some tile. */
  lemma EdgeCover(base: int, length: nat, tile: nat, t: int)
    requires tile > 0 && base <= t < base + length
    ensures exists k :: 0 <= k <= length / tile && EdgeLo(base, length, tile, k) <= t < EdgeHi(base, length, tile, k)
  {
    var n, rest := length / tile, length % tile;
    var e := t - base - rest;
    if e >= 0 {
      var m := e / tile;
      var k := CoveringTile(length, tile, e, n, rest, m);
      assert EdgeLo(base, length, tile, k) <= t < EdgeHi(base, length, tile, k);
    } else {
      assert EdgeLo(base, length, tile, 0) <= t < EdgeHi(base, length, tile, 0);
    }
  }

  /** The full tile holding offset e past the remainder is tile n - e / tile. */
  lemma CoveringTile(length: nat, tile: nat, e: nat, n: nat, rest: nat, m: nat) returns (k: nat)
    requires tile > 0 && n == length / tile && rest == length % tile && m == e / tile
    requires e < length - rest
    ensures 1 <= k <= n
    ensures length - k * tile <= rest + e < length - (k - 1) * tile
  {
    assert length == n * tile + rest;
    assert e == m * tile + e % tile;
    if m >= n { MulMonotone(n, m, tile); }
    k := n - m;
    assert k * tile == n * tile - m * tile;
    assert (k - 1) * tile == k * tile - tile;
  }

  /** No point lies in the spans of two different tiles. */
  lemma EdgeDisjoint(base: int, length: nat, tile: nat, t: int, i: nat, j: nat)
    requires tile > 0 && i <= length / tile && j <= length / tile
    requires EdgeLo(base, length, tile, i) <= t < EdgeHi(base, length, tile, i)
    requires EdgeLo(base, length, tile, j) <= t < EdgeHi(base, length, tile, j)
    ensures i == j
  {
    if i < j {
      EdgeOrdered(base, length, tile, i, j);
    } else if j < i {
      EdgeOrdered(base, length, tile, j, i);
    }
  }

  /** The remainder (index 0) comes first; after it the full tiles run from
      index length / tile down to 1, each wholly before the next. */
  lemma EdgeOrdered(base: int, length: nat, tile: nat, i: nat, j: nat)
    requires tile > 0 && i < j <= length / tile
    ensures if i == 0 then EdgeHi(base, length, tile, i) <= EdgeLo(base, length, tile, j)
            else EdgeHi(base, length, tile, j) <= EdgeLo(base, length, tile, i)
  {
    var n := length / tile;
    assert length == n * tile + length % tile;
    if i == 0 {
      MulMonotone(j, n, tile);
    } else {
      MulMonotone(i, j - 1, tile);
    }
  }

  /** The draw of the left (or, mirrored, right) column with index k: 0 is the
      remainder, k >= 1 the k-th full tile. */
  function VerticalColumnCall(r: Rectangle, vertical: Texture, k: nat, right: bool): DrawCall
    requires vertical.height > 0
  {
    if k == 0 then VerticalRemainder(r, vertical, right) else VerticalTile(r, vertical, k, right)
  }

  /** The draw of the bottom (or, mirrored, top) row with index k. */
  function HorizontalRowCall(r: Rectangle, horizontal: Texture, k: nat, top: bool): DrawCall
    requires horizontal.width > 0
  {
    if k == 0 then HorizontalRemainder(r, horizontal, top) else HorizontalTile(r, horizontal, k, top)
  }

  predicate CoversRow(c: DrawCall, t: int)
  {
    c.y <= t < c.y + SourceHeight(c.source)
  }

  predicate CoversColumn(c: DrawCall, t: int)
  {
    c.x <= t < c.x + SourceWidth(c.source)
  }

  /** On each side edge, the remainder and the full tiles cover exactly the rows
      [y, y + height), each row by exactly one of them. */
  lemma VerticalEdgePartition(r: Rectangle, vertical: Texture, right: bool, t: int)
    requires vertical.height > 0
    ensures (r.y <= t < r.y + r.height) <==>
            exists k :: 0 <= k <= r.height / vertical.height && CoversRow(VerticalColumnCall(r, vertical, k, right), t)
    ensures forall i, j :: (0 <= i <= r.height / vertical.height && 0 <= j <= r.height / vertical.height &&
                            CoversRow(VerticalColumnCall(r, vertical, i, right), t) &&
                            CoversRow(VerticalColumnCall(r, vertical, j, right), t)) ==> i == j
  {
    var b, l, th := r.y, r.height, vertical.height;
    forall k: nat | k <= l / th
      ensures VerticalColumnCall(r, vertical, k, right).y == EdgeLo(b, l, th, k)
      ensures VerticalColumnCall(r, vertical, k, right).y
              + SourceHeight(VerticalColumnCall(r, vertical, k, right).source) == EdgeHi(b, l, th, k)
    {
      if k > 0 { assert (k - 1) * th == k * th - th; }
    }
    if r.y <= t < r.y + r.height {
      EdgeCover(b, l, th, t);
    }
    forall k: nat | k <= l / th && CoversRow(VerticalColumnCall(r, vertical, k, right), t)
      ensures r.y <= t < r.y + r.height
    {
      EdgeWithin(b, l, th, k);
    }
    forall i: nat, j: nat | i <= l / th && j <= l / th &&
                            CoversRow(VerticalColumnCall(r, vertical, i, right), t) &&
                            CoversRow(VerticalColumnCall(r, vertical, j, right), t)
      ensures i == j
    {
      EdgeDisjoint(b, l, th, t, i, j);
    }
  }

  /** On the bottom and top edges, the remainder and the full tiles cover
      exactly the columns [x, x + width), each column by exactly one of them. */
  lemma HorizontalEdgePartition(r: Rectangle, horizontal: Texture, top: bool, t: int)
    requires horizontal.width > 0
    ensures (r.x <= t < r.x + r.width) <==>
            exists k :: 0 <= k <= r.width / horizontal.width && CoversColumn(HorizontalRowCall(r, horizontal, k, top), t)
    ensures forall i, j :: (0 <= i <= r.width / horizontal.width && 0 <= j <= r.width / horizontal.width &&
                            CoversColumn(HorizontalRowCall(r, horizontal, i, top), t) &&
                            CoversColumn(HorizontalRowCall(r, horizontal, j, top), t)) ==> i == j
  {
    var b, l, tw := r.x, r.width, horizontal.width;
    forall k: nat | k <= l / tw
      ensures HorizontalRowCall(r, horizontal, k, top).x == EdgeLo(b, l, tw, k)
      ensures HorizontalRowCall(r, horizontal, k, top).x
              + SourceWidth(HorizontalRowCall(r, horizontal, k, top).source) == EdgeHi(b, l, tw, k)
    {
      if k > 0 { assert (k - 1) * tw == k * tw - tw; }
    }
    if r.x <= t < r.x + r.width {
      EdgeCover(b, l, tw, t);
    }
    forall k: nat | k <= l / tw && CoversColumn(HorizontalRowCall(r, horizontal, k, top), t)
      ensures r.x <= t < r.x + r.width
    {
      EdgeWithin(b, l, tw, k);
    }
    forall i: nat, j: nat | i <= l / tw && j <= l / tw &&
                            CoversColumn(HorizontalRowCall(r, horizontal, i, top), t) &&
                            CoversColumn(HorizontalRowCall(r, horizontal, j, top), t)
      ensures i == j
    {
      EdgeDisjoint(b, l, tw, t, i, j);
    }
  }

  // ---------------------------------------------------------------------------
  // Several rectangles.

  /** Composing two runs of rectangles issues the first run's draws, then the
      second's. */
  lemma {:induction false} PlanConcat(a: seq<Rectangle>, b: seq<Rectangle>, vertical: Texture, horizontal: Texture)
    requires TilesUsable(vertical, horizontal)
    ensures Plan(a + b, vertical, horizontal) == Plan(a, vertical, horizontal) + Plan(b, vertical, horizontal)
  {
    if a == [] {
      assert a + b == b;
    } else {
      assert (a + b)[1..] == a[1..] + b;
      PlanConcat(a[1..], b, vertical, horizontal);
    }
  }

  /** Rectangles are drawn in deque order: the i-th rectangle's draws come right
      after all draws of the rectangles before it. */
  lemma PlanSplit(rects: seq<Rectangle>, i: nat, vertical: Texture, horizontal: Texture)
    requires TilesUsable(vertical, horizontal)
    requires i < |rects|
    ensures Plan(rects, vertical, horizontal)
            == Plan(rects[..i], vertical, horizontal)
               + RectangleCalls(rects[i], vertical, horizontal)
               + Plan(rects[i + 1..], vertical, horizontal)
  {
    assert rects == rects[..i] + rects[i..];
    PlanConcat(rects[..i], rects[i..], vertical, horizontal);
    assert rects[i..][1..] == rects[i + 1..];
  }

  /** Number of draws for a run of rectangles when none fails: each rectangle
      contributes 2*(height / vh) + 2*(width / hw) + 4. */
  function CallCount(rects: seq<Rectangle>, vertical: Texture, horizontal: Texture): int
    requires TilesUsable(vertical, horizontal)
  {
    if rects == [] then 0
    else 2 * (rects[0].height / vertical.height) + 2 * (rects[0].width / horizontal.width) + 4
         + CallCount(rects[1..], vertical, horizontal)
  }

  lemma {:induction false} PlanLength(rects: seq<Rectangle>, vertical: Texture, horizontal: Texture)
    requires TilesUsable(vertical, horizontal)
    ensures |Plan(rects, vertical, horizontal)| == CallCount(rects, vertical, horizontal)
  {
    if rects != [] {
      RectangleCallCount(rects[0], vertical, horizontal);
      PlanLength(rects[1..], vertical, horizontal);
    }
  }

  /** A 40 x 40 rectangle with 16 x 16 tiles: two full tiles per edge and a
      remainder of 8 rows (columns) taken from the far side of each tile. */
  lemma FortyByForty(x: int, y: int, color: Rgb, vertical: Texture, horizontal: Texture)
    requires vertical.width == vertical.height == 16 && horizontal.width == horizontal.height == 16
    ensures var calls := RectangleCalls(Rectangle(x, y, 40, 40, color), vertical, horizontal);
      && |calls| == 12
      && calls[0].y == y + 24 && calls[2].y == y + 8
      && calls[4].source == Section(vertical, 0, 8, 16, 8) && calls[4].y == y
      && calls[6].x == x + 24 && calls[8].x == x + 8
      && calls[10].source == Section(horizontal, 8, 0, 8, 16) && calls[10].x == x
  {
    var r := Rectangle(x, y, 40, 40, color);
    RectangleCallCount(r, vertical, horizontal);
    VerticalTilePlacement(r, vertical, horizontal, 1);
    VerticalTilePlacement(r, vertical, horizontal, 2);
    VerticalRemainderPlacement(r, vertical, horizontal);
    HorizontalTilePlacement(r, vertical, horizontal, 1);
    HorizontalTilePlacement(r, vertical, horizontal, 2);
    HorizontalRemainderPlacement(r, vertical, horizontal);
  }
}
