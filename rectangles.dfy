/** `draw_rectangles` of examples/rectangles.rs as an imperative method: the
    same two counting loops per rectangle, each iteration appending draws to
    the log of issued calls, and an early return on the first draw that fails. */
module Rectangles {
  import opened Tiling

  /** What `draw_rectangles` returns: `Ok(())`, or `Err(ErrDontCare)`, which
      carries nothing. The index of `DrawFailed` is bookkeeping of this model:
      the position of the rejected draw among the draws of the call. */
  datatype Outcome = Done | DrawFailed(index: nat)

  /** No logged draw failed. */
  predicate NoFailure(log: seq<DrawCall>, fails: (nat, DrawCall) -> bool)
  {
    forall i :: 0 <= i < |log| ==> !fails(i, log[i])
  }

  /** `ctx.draw`: the driver accepts the call unless `fails` says the call that
      would become the |log|-th draw is rejected; an accepted call is logged. */
  method Draw(log: seq<DrawCall>, c: DrawCall, fails: (nat, DrawCall) -> bool)
    returns (log': seq<DrawCall>, ok: bool)
    ensures ok == !fails(|log|, c)
    ensures log' == if ok then log + [c] else log
  {
    ok := !fails(|log|, c);
    log' := if ok then log + [c] else log;
  }

  /** Starting from `start`, the calls in `target` were issued in order until
      the first one the driver rejected: `log` extends `start` by a failure-free
      prefix of `target`, all of it when `ok`, and otherwise stops right before
      the rejected call. */
  predicate Progress(start: seq<DrawCall>, target: seq<DrawCall>, log: seq<DrawCall>, ok: bool,
                     fails: (nat, DrawCall) -> bool)
  {
    && start <= log <= start + target
    && NoFailure(log, fails)
    && (ok <==> log == start + target)
    && (!ok ==> |log| < |start + target| && fails(|log|, (start + target)[|log|]))
  }

  /** `draw_rectangles`: the draws issued are the longest prefix of `Plan` in
      which no draw fails; composition reports success exactly when the whole
      plan was issued, and otherwise the first failing draw, which is not logged. */
  method DrawRectangles(rects: seq<Rectangle>, vertical: Texture, horizontal: Texture,
                        fails: (nat, DrawCall) -> bool)
    returns (log: seq<DrawCall>, outcome: Outcome)
    requires TilesUsable(vertical, horizontal)
    ensures log <= Plan(rects, vertical, horizontal)
    ensures NoFailure(log, fails)
    ensures outcome == Done <==> log == Plan(rects, vertical, horizontal)
    ensures outcome.DrawFailed? ==>
              && outcome.index == |log| < |Plan(rects, vertical, horizontal)|
              && fails(|log|, Plan(rects, vertical, horizontal)[|log|])
  {
    log := [];
    var i := 0;
    while i < |rects|
      invariant 0 <= i <= |rects|
      invariant log == Plan(rects[..i], vertical, horizontal)
      invariant NoFailure(log, fails)
    {
      var rectangle := rects[i];
      ghost var base := log;
      ghost var rest := Plan(rects[i + 1..], vertical, horizontal);
      ghost var vc := VerticalCalls(rectangle, vertical);
      ghost var hc := HorizontalCalls(rectangle, horizontal);
      PlanSplit(rects, i, vertical, horizontal);
      var ok: bool;
      log, ok := DrawVerticalEdges(rectangle, vertical, fails, log);
      if ok {
        ghost var mid := log;
        log, ok := DrawHorizontalEdges(rectangle, horizontal, fails, log);
        ProgressThen(base, vc, mid, hc, log, ok, fails);
      } else {
        ProgressStop(base, vc, hc, log, fails);
      }
      if !ok {
        ProgressStop(base, vc + hc, rest, log, fails);
        outcome := DrawFailed(|log|);
        return;
      }
      PlanStep(rects, i, vertical, horizontal);
      i := i + 1;
    }
    assert rects[..i] == rects;
    outcome := Done;
  }

  /** Two consecutive `ctx.draw(..)?` calls: the second is only issued when
      the first was accepted. */
  method DrawPair(log: seq<DrawCall>, first: DrawCall, second: DrawCall, fails: (nat, DrawCall) -> bool)
    returns (log': seq<DrawCall>, ok: bool)
    requires NoFailure(log, fails)
    ensures Progress(log, [first, second], log', ok, fails)
  {
    Accepted(log, first, fails);
    log', ok := Draw(log, first, fails);
    if ok {
      Accepted(log', second, fails);
      log', ok := Draw(log', second, fails);
    }
    assert log + [first, second] == log + [first] + [second];
  }

  /** The first loop of `draw_rectangles` and the two vertical remainder draws:
      the left and right edges of one rectangle. */
  method DrawVerticalEdges(rectangle: Rectangle, vertical: Texture, fails: (nat, DrawCall) -> bool,
                           start: seq<DrawCall>)
    returns (log: seq<DrawCall>, ok: bool)
    requires vertical.height > 0 && NoFailure(start, fails)
    ensures Progress(start, VerticalCalls(rectangle, vertical), log, ok, fails)
  {
    log := start;
    var rightPos := rectangle.x + rectangle.width - vertical.width;
    var height: nat := rectangle.height;
    ghost var k := 0;
    var next := CheckedSub(height, vertical.height);
    while next.Some?
      invariant height + k * vertical.height == rectangle.height
      invariant next == CheckedSub(height, vertical.height)
      invariant log == start + VerticalPairs(rectangle, vertical, k)
      invariant NoFailure(log, fails)
      decreases height
    {
      height := next.value;
      ghost var before := log;
      log, ok := DrawPair(log,
        DrawCall(Whole(vertical), rectangle.x, height + rectangle.y,
                 DrawConfig(Mat(rectangle.color), false, false)),
        DrawCall(Whole(vertical), rightPos, height + rectangle.y,
                 DrawConfig(Mat(rectangle.color), true, false)),
        fails);
      VerticalStep(rectangle, vertical, start, k, height, before, log, ok, fails);
      k := k + 1;
      if !ok { return; }
      next := CheckedSub(height, vertical.height);
    }

    var verticalSection := Section(vertical, 0, vertical.height - height, vertical.width, height);
    ghost var before := log;
    log, ok := DrawPair(log,
      DrawCall(verticalSection, rectangle.x, rectangle.y, DrawConfig(Mat(rectangle.color), false, false)),
      DrawCall(verticalSection, rightPos, rectangle.y, DrawConfig(Mat(rectangle.color), true, false)),
      fails);
    VerticalFinish(rectangle, vertical, start, k, height, before, log, ok, fails);
  }

  /** The second loop of `draw_rectangles` and the two horizontal remainder
      draws: the bottom and top edges of one rectangle. */
  method DrawHorizontalEdges(rectangle: Rectangle, horizontal: Texture, fails: (nat, DrawCall) -> bool,
                             start: seq<DrawCall>)
    returns (log: seq<DrawCall>, ok: bool)
    requires horizontal.width > 0 && NoFailure(start, fails)
    ensures Progress(start, HorizontalCalls(rectangle, horizontal), log, ok, fails)
  {
    log := start;
    var horizontalHeight := rectangle.y + rectangle.height - horizontal.height;
    var horizontalPos: nat := rectangle.width;
    ghost var k := 0;
    var next := CheckedSub(horizontalPos, horizontal.width);
    while next.Some?
      invariant horizontalPos + k * horizontal.width == rectangle.width
      invariant next == CheckedSub(horizontalPos, horizontal.width)
      invariant log == start + HorizontalPairs(rectangle, horizontal, k)
      invariant NoFailure(log, fails)
      decreases horizontalPos
    {
      horizontalPos := next.value;
      ghost var before := log;
      log, ok := DrawPair(log,
        DrawCall(Whole(horizontal), rectangle.x + horizontalPos, horizontalHeight,
                 DrawConfig(Mat(rectangle.color), false, false)),
        DrawCall(Whole(horizontal), rectangle.x + horizontalPos, rectangle.y,
                 DrawConfig(Mat(rectangle.color), false, true)),
        fails);
      HorizontalStep(rectangle, horizontal, start, k, horizontalPos, before, log, ok, fails);
      k := k + 1;
      if !ok { return; }
      next := CheckedSub(horizontalPos, horizontal.width);
    }

    var horizontalSection := Section(horizontal, horizontal.width - horizontalPos, 0,
                                     horizontalPos, horizontal.height);
    ghost var before := log;
    log, ok := DrawPair(log,
      DrawCall(horizontalSection, rectangle.x, horizontalHeight, DrawConfig(Mat(rectangle.color), false, false)),
      DrawCall(horizontalSection, rectangle.x, rectangle.y, DrawConfig(Mat(rectangle.color), false, true)),
      fails);
    HorizontalFinish(rectangle, horizontal, start, k, horizontalPos, before, log, ok, fails);
  }

  /** One iteration of the vertical loop, entered after k full tiles with
      `height` left once one more tile is taken off: that tile is the (k+1)-th
      planned pair, so the log now holds the first k+1 pairs, or the vertical
      calls stopped at a rejection. */
  lemma VerticalStep(rectangle: Rectangle, vertical: Texture, start: seq<DrawCall>, k: nat, height: nat,
                     before: seq<DrawCall>, log: seq<DrawCall>, ok: bool, fails: (nat, DrawCall) -> bool)
    requires vertical.height > 0
    requires height + vertical.height + k * vertical.height == rectangle.height
    requires before == start + VerticalPairs(rectangle, vertical, k) && NoFailure(before, fails)
    requires Progress(before,
               [DrawCall(Whole(vertical), rectangle.x, height + rectangle.y,
                         DrawConfig(Mat(rectangle.color), false, false)),
                DrawCall(Whole(vertical), rectangle.x + rectangle.width - vertical.width, height + rectangle.y,
                         DrawConfig(Mat(rectangle.color), true, false))],
               log, ok, fails)
    ensures k + 1 <= rectangle.height / vertical.height
    ensures height + (k + 1) * vertical.height == rectangle.height
    ensures Progress(start, VerticalPairs(rectangle, vertical, k + 1), log, ok, fails)
    ensures !ok ==> Progress(start, VerticalCalls(rectangle, vertical), log, false, fails)
  {
    var n := rectangle.height / vertical.height;
    MulSucc(k, vertical.height);
    CountedTiles(rectangle.height, vertical.height, k, height + vertical.height);
    var pairs := VerticalPairs(rectangle, vertical, k + 1);
    ProgressThen(start, VerticalPairs(rectangle, vertical, k), before,
                 [VerticalTile(rectangle, vertical, k + 1, false), VerticalTile(rectangle, vertical, k + 1, true)],
                 log, ok, fails);
    if !ok {
      var target := VerticalCalls(rectangle, vertical);
      VerticalPairsPrefix(rectangle, vertical, k + 1, n);
      assert target == pairs + target[|pairs|..];
      ProgressStop(start, pairs, target[|pairs|..], log, fails);
    }
  }

  /** The vertical remainder pair, drawn once the loop has stopped with
      `height` below one tile: it completes the vertical calls unless a draw
      is rejected. */
  lemma VerticalFinish(rectangle: Rectangle, vertical: Texture, start: seq<DrawCall>, k: nat, height: nat,
                       before: seq<DrawCall>, log: seq<DrawCall>, ok: bool, fails: (nat, DrawCall) -> bool)
    requires vertical.height > 0 && height < vertical.height
    requires height + k * vertical.height == rectangle.height
    requires before == start + VerticalPairs(rectangle, vertical, k) && NoFailure(before, fails)
    requires Progress(before,
               [DrawCall(Section(vertical, 0, vertical.height - height, vertical.width, height),
                         rectangle.x, rectangle.y, DrawConfig(Mat(rectangle.color), false, false)),
                DrawCall(Section(vertical, 0, vertical.height - height, vertical.width, height),
                         rectangle.x + rectangle.width - vertical.width, rectangle.y,
                         DrawConfig(Mat(rectangle.color), true, false))],
               log, ok, fails)
    ensures Progress(start, VerticalCalls(rectangle, vertical), log, ok, fails)
  {
    CountedTiles(rectangle.height, vertical.height, k, height);
    ProgressThen(start, VerticalPairs(rectangle, vertical, k), before,
                 [VerticalRemainder(rectangle, vertical, false), VerticalRemainder(rectangle, vertical, true)],
                 log, ok, fails);
  }

  /** One iteration of the horizontal loop, the counterpart of `VerticalStep`. */
  lemma HorizontalStep(rectangle: Rectangle, horizontal: Texture, start: seq<DrawCall>, k: nat, pos: nat,
                       before: seq<DrawCall>, log: seq<DrawCall>, ok: bool, fails: (nat, DrawCall) -> bool)
    requires horizontal.width > 0
    requires pos + horizontal.width + k * horizontal.width == rectangle.width
    requires before == start + HorizontalPairs(rectangle, horizontal, k) && NoFailure(before, fails)
    requires Progress(before,
               [DrawCall(Whole(horizontal), rectangle.x + pos, rectangle.y + rectangle.height - horizontal.height,
                         DrawConfig(Mat(rectangle.color), false, false)),
                DrawCall(Whole(horizontal), rectangle.x + pos, rectangle.y,
                         DrawConfig(Mat(rectangle.color), false, true))],
               log, ok, fails)
    ensures k + 1 <= rectangle.width / horizontal.width
    ensures pos + (k + 1) * horizontal.width == rectangle.width
    ensures Progress(start, HorizontalPairs(rectangle, horizontal, k + 1), log, ok, fails)
    ensures !ok ==> Progress(start, HorizontalCalls(rectangle, horizontal), log, false, fails)
  {
    var n := rectangle.width / horizontal.width;
    MulSucc(k, horizontal.width);
    CountedTiles(rectangle.width, horizontal.width, k, pos + horizontal.width);
    var pairs := HorizontalPairs(rectangle, horizontal, k + 1);
    ProgressThen(start, HorizontalPairs(rectangle, horizontal, k), before,
                 [HorizontalTile(rectangle, horizontal, k + 1, false), HorizontalTile(rectangle, horizontal, k + 1, true)],
                 log, ok, fails);
    if !ok {
      var target := HorizontalCalls(rectangle, horizontal);
      HorizontalPairsPrefix(rectangle, horizontal, k + 1, n);
      assert target == pairs + target[|pairs|..];
      ProgressStop(start, pairs, target[|pairs|..], log, fails);
    }
  }

  /** The horizontal remainder pair, the counterpart of `VerticalFinish`. */
  lemma HorizontalFinish(rectangle: Rectangle, horizontal: Texture, start: seq<DrawCall>, k: nat, pos: nat,
                         before: seq<DrawCall>, log: seq<DrawCall>, ok: bool, fails: (nat, DrawCall) -> bool)
    requires horizontal.width > 0 && pos < horizontal.width
    requires pos + k * horizontal.width == rectangle.width
    requires before == start + HorizontalPairs(rectangle, horizontal, k) && NoFailure(before, fails)
    requires Progress(before,
               [DrawCall(Section(horizontal, horizontal.width - pos, 0, pos, horizontal.height),
                         rectangle.x, rectangle.y + rectangle.height - horizontal.height,
                         DrawConfig(Mat(rectangle.color), false, false)),
                DrawCall(Section(horizontal, horizontal.width - pos, 0, pos, horizontal.height),
                         rectangle.x, rectangle.y, DrawConfig(Mat(rectangle.color), false, true))],
               log, ok, fails)
    ensures Progress(start, HorizontalCalls(rectangle, horizontal), log, ok, fails)
  {
    CountedTiles(rectangle.width, horizontal.width, k, pos);
    ProgressThen(start, HorizontalPairs(rectangle, horizontal, k), before,
                 [HorizontalRemainder(rectangle, horizontal, false), HorizontalRemainder(rectangle, horizontal, true)],
                 log, ok, fails);
  }

  /** Logging an accepted call keeps the log failure-free. */
  lemma Accepted(log: seq<DrawCall>, c: DrawCall, fails: (nat, DrawCall) -> bool)
    requires NoFailure(log, fails)
    ensures !fails(|log|, c) ==> NoFailure(log + [c], fails)
  {
  }

  /** Finishing one part of the target and then all or some of the next part. */
  lemma ProgressThen(start: seq<DrawCall>, a: seq<DrawCall>, mid: seq<DrawCall>, b: seq<DrawCall>,
                     log: seq<DrawCall>, ok: bool, fails: (nat, DrawCall) -> bool)
    requires Progress(start, a, mid, true, fails) && Progress(mid, b, log, ok, fails)
    ensures Progress(start, a + b, log, ok, fails)
  {
    assert mid + b == start + (a + b);
  }

  /** A failure while issuing one part of the target stops the whole target. */
  lemma ProgressStop(start: seq<DrawCall>, a: seq<DrawCall>, b: seq<DrawCall>,
                     log: seq<DrawCall>, fails: (nat, DrawCall) -> bool)
    requires Progress(start, a, log, false, fails)
    ensures Progress(start, a + b, log, false, fails)
  {
    assert start + (a + b) == (start + a) + b;
    assert (start + a) <= (start + a) + b;
    assert (start + (a + b))[|log|] == (start + a)[|log|];
  }

  /** The loop counter after k subtractions that leave `rest`: while `rest`
      is still at least one tile, fewer than length / tile subtractions have
      happened; once it is below one tile, exactly that many have. */
  lemma CountedTiles(length: nat, tile: nat, k: nat, rest: nat)
    requires tile > 0 && rest + k * tile == length
    ensures rest >= tile ==> k < length / tile
    ensures rest < tile ==> k == length / tile && rest == length % tile
  {
    var n := length / tile;
    assert length == n * tile + length % tile;
    if rest >= tile {
      if k >= n { MulMonotone(n, k, tile); }
    } else {
      if k < n { MulMonotone(k + 1, n, tile); }
      if k > n { MulMonotone(n + 1, k, tile); }
    }
  }

  lemma MulSucc(k: nat, t: nat)
    ensures (k + 1) * t == k * t + t
  {
  }

  /** Finishing rectangle i extends the plan of the rectangles before it by
      that rectangle's calls. */
  lemma PlanStep(rects: seq<Rectangle>, i: nat, vertical: Texture, horizontal: Texture)
    requires TilesUsable(vertical, horizontal) && i < |rects|
    ensures Plan(rects[..i + 1], vertical, horizontal)
            == Plan(rects[..i], vertical, horizontal) + RectangleCalls(rects[i], vertical, horizontal)
  {
    assert rects[..i + 1] == rects[..i] + [rects[i]];
    PlanConcat(rects[..i], [rects[i]], vertical, horizontal);
    assert [rects[i]][1..] == [];
  }
}
