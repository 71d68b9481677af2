/**
 * The simulation entities of the hero page's animated background and what one
 * frame does to each of them: stars drift left, wrap around and twinkle; aurora
 * control points oscillate about a rest height, are pushed by the pointer and ease
 * toward their target. Coordinates are `real`. The host's Math.random, Math.sin and
 * Math.sqrt are functions handed in, constrained only by their ranges (the laws below).
 */
module AuroraModel {

  /** Last known pointer position, in viewport coordinates. */
  datatype Pointer = Pointer(x: real, y: real)

  datatype Star = Star(
    x: real, y: real,
    size: real,
    speed: real,          // leftward drift per frame
    opacity: real,        // base opacity before twinkling
    twinkleSpeed: real,
    twinklePhase: real)

  datatype AuroraPoint = AuroraPoint(
    x: real,              // fixed horizontal position
    y: real,              // current height, eased every frame
    baseY: real,          // rest height
    phase: real,
    amplitude: real,
    speed: real)          // phase advance per frame

  const PointCount: nat := 6
  /** The decimal that Math.PI prints as, taken as an exact real. */
  const Pi: real := 3.141592653589793
  const PushRadius: real := 300.0
  const MaxForce: real := 80.0
  const Easing: real := 0.05
  const WrapMargin: real := 10.0
  const GlowRadius: real := 150.0
  const MaxBoost: real := 0.5

  // ---------------------------------------------------------------------------
  // Laws of the host functions

  /** Math.random() returns a value in [0, 1); `random(k)` is the k-th value drawn. */
  ghost predicate RandomLaw(random: nat -> real) {
    forall k :: 0.0 <= random(k) < 1.0
  }

  ghost predicate SineLaw(sin: real -> real) {
    forall v :: -1.0 <= sin(v) <= 1.0
  }

  ghost predicate SqrtLaw(sqrt: real -> real) {
    forall v :: 0.0 <= v ==> 0.0 <= sqrt(v)
  }

  function Abs(v: real): real { if v < 0.0 then -v else v }
  function Min(a: real, b: real): real { if a <= b then a else b }
  function Max(a: real, b: real): real { if a <= b then b else a }

  /** Scaling a viewport extent by a random draw stays inside the extent. */
  lemma ScaleByDraw(r: real, extent: real)
    requires 0.0 <= r < 1.0 && 0.0 <= extent
    ensures 0.0 <= r * extent <= extent
    ensures 0.0 < extent ==> r * extent < extent
  {
    assert (1.0 - r) * extent >= 0.0;
    if 0.0 < extent {
      assert (1.0 - r) * extent > 0.0;
    }
  }

  lemma ScaleBySine(s: real, a: real)
    requires -1.0 <= s <= 1.0 && 0.0 <= a
    ensures -a <= s * a <= a
  {
    assert (1.0 - s) * a >= 0.0;
    assert (1.0 + s) * a >= 0.0;
  }

  // ---------------------------------------------------------------------------
  // Stars

  /** Stars per viewport: one per 8000 square pixels, rounded down. */
  function StarCount(width: nat, height: nat): nat {
    (width * height) / 8000
  }

  /** The count is the largest n with n * 8000 at most the area, and none on an empty viewport. */
  lemma StarCountBounds(width: nat, height: nat)
    ensures StarCount(width, height) * 8000 <= width * height < (StarCount(width, height) + 1) * 8000
    ensures width == 0 || height == 0 ==> StarCount(width, height) == 0
  {
  }

  /** The ranges every star's constant attributes are drawn from. */
  predicate StarShape(s: Star) {
    && 0.5 <= s.size < 2.5
    && 0.1 <= s.speed < 0.4
    && 0.2 <= s.opacity < 1.0
    && 0.01 <= s.twinkleSpeed < 0.03
  }

  /** The region a star stays in: at most the wrap margin beyond either side, and inside the height. */
  predicate InBand(s: Star, width: nat, height: nat) {
    && -WrapMargin <= s.x <= width as real + WrapMargin
    && 0.0 <= s.y <= height as real
  }

  /** The star literal of initStars, given its seven draws in the order the fields are written. */
  function StarOf(width: nat, height: nat, rx: real, ry: real, rSize: real, rSpeed: real,
                  rOpacity: real, rTwinkleSpeed: real, rTwinklePhase: real): Star
  {
    Star(
      x := rx * width as real,
      y := ry * height as real,
      size := rSize * 2.0 + 0.5,
      speed := rSpeed * 0.3 + 0.1,
      opacity := rOpacity * 0.8 + 0.2,
      twinkleSpeed := rTwinkleSpeed * 0.02 + 0.01,
      twinklePhase := rTwinklePhase * Pi * 2.0)
  }

  /** The star made from the seven draws random(k) .. random(k + 6). */
  function NewStar(width: nat, height: nat, random: nat -> real, k: nat): Star {
    StarOf(width, height, random(k), random(k + 1), random(k + 2), random(k + 3),
           random(k + 4), random(k + 5), random(k + 6))
  }

  /** Lawful draws give a well-shaped star on the screen with a phase in [0, 2 pi). */
  lemma NewStarInRange(width: nat, height: nat, random: nat -> real, k: nat)
    requires RandomLaw(random)
    ensures StarShape(NewStar(width, height, random, k))
    ensures var s := NewStar(width, height, random, k);
      && 0.0 <= s.x <= width as real && (0 < width ==> s.x < width as real)
      && 0.0 <= s.y <= height as real && (0 < height ==> s.y < height as real)
      && 0.0 <= s.twinklePhase < 2.0 * Pi
  {
    StarOfInRange(width, height, random(k), random(k + 1), random(k + 2), random(k + 3),
                  random(k + 4), random(k + 5), random(k + 6));
  }

  /** The star literal on seven draws in [0, 1) is well-shaped, on the screen, with a phase in [0, 2 pi). */
  lemma StarOfInRange(width: nat, height: nat, rx: real, ry: real, rSize: real, rSpeed: real,
                      rOpacity: real, rTwinkleSpeed: real, rTwinklePhase: real)
    requires 0.0 <= rx < 1.0 && 0.0 <= ry < 1.0 && 0.0 <= rSize < 1.0 && 0.0 <= rSpeed < 1.0
    requires 0.0 <= rOpacity < 1.0 && 0.0 <= rTwinkleSpeed < 1.0 && 0.0 <= rTwinklePhase < 1.0
    ensures var s := StarOf(width, height, rx, ry, rSize, rSpeed, rOpacity, rTwinkleSpeed, rTwinklePhase);
      && StarShape(s)
      && 0.0 <= s.x <= width as real && (0 < width ==> s.x < width as real)
      && 0.0 <= s.y <= height as real && (0 < height ==> s.y < height as real)
      && 0.0 <= s.twinklePhase < 2.0 * Pi
  {
    StarOfShape(width, height, rx, ry, rSize, rSpeed, rOpacity, rTwinkleSpeed, rTwinklePhase);
    StarOfOnScreen(width, height, rx, ry, rSize, rSpeed, rOpacity, rTwinkleSpeed, rTwinklePhase);
  }

  lemma StarOfShape(width: nat, height: nat, rx: real, ry: real, rSize: real, rSpeed: real,
                    rOpacity: real, rTwinkleSpeed: real, rTwinklePhase: real)
    requires 0.0 <= rSize < 1.0 && 0.0 <= rSpeed < 1.0 && 0.0 <= rOpacity < 1.0 && 0.0 <= rTwinkleSpeed < 1.0
    ensures StarShape(StarOf(width, height, rx, ry, rSize, rSpeed, rOpacity, rTwinkleSpeed, rTwinklePhase))
  {
  }

  lemma StarOfOnScreen(width: nat, height: nat, rx: real, ry: real, rSize: real, rSpeed: real,
                       rOpacity: real, rTwinkleSpeed: real, rTwinklePhase: real)
    requires 0.0 <= rx < 1.0 && 0.0 <= ry < 1.0 && 0.0 <= rTwinklePhase < 1.0
    ensures var s := StarOf(width, height, rx, ry, rSize, rSpeed, rOpacity, rTwinkleSpeed, rTwinklePhase);
      && 0.0 <= s.x <= width as real && (0 < width ==> s.x < width as real)
      && 0.0 <= s.y <= height as real && (0 < height ==> s.y < height as real)
      && 0.0 <= s.twinklePhase < 2.0 * Pi
  {
    var s := StarOf(width, height, rx, ry, rSize, rSpeed, rOpacity, rTwinkleSpeed, rTwinklePhase);
    OnExtent(s.x, rx, width as real);
    OnExtent(s.y, ry, height as real);
    ScaleByDraw(rTwinklePhase, 2.0 * Pi);
    assert s.twinklePhase == rTwinklePhase * (2.0 * Pi);
  }

  /** A coordinate equal to a draw scaled by a viewport extent lies in [0, extent), or on 0 for an empty extent. */
  lemma OnExtent(c: real, r: real, extent: real)
    requires 0.0 <= r < 1.0 && 0.0 <= extent && c == r * extent
    ensures 0.0 <= c <= extent && (0.0 < extent ==> c < extent)
  {
    ScaleByDraw(r, extent);
  }

  /** The first n stars made from random(seed) on, seven draws each, in creation order. */
  function DrawnStars(width: nat, height: nat, random: nat -> real, seed: nat, n: nat): (stars: seq<Star>)
    ensures |stars| == n
  {
    if n == 0 then []
    else DrawnStars(width, height, random, seed, n - 1) + [NewStar(width, height, random, seed + 7 * (n - 1))]
  }

  /** Star i is the one made from the draws random(seed + 7i) .. random(seed + 7i + 6). */
  lemma {:induction false} DrawnStarsAt(width: nat, height: nat, random: nat -> real, seed: nat, n: nat, i: nat)
    requires i < n
    ensures DrawnStars(width, height, random, seed, n)[i] == NewStar(width, height, random, seed + 7 * i)
  {
    if i < n - 1 {
      DrawnStarsAt(width, height, random, seed, n - 1, i);
    }
  }

  /** One more star appends the one made from the next seven draws. */
  lemma DrawnStarsSnoc(width: nat, height: nat, random: nat -> real, seed: nat, n: nat)
    ensures DrawnStars(width, height, random, seed, n + 1)
         == DrawnStars(width, height, random, seed, n) + [NewStar(width, height, random, seed + 7 * n)]
  {
  }

  /** The star list after a (re)initialisation whose first draw is random(seed): one star per 8000 square pixels. */
  function InitialStars(width: nat, height: nat, random: nat -> real, seed: nat): (stars: seq<Star>)
    ensures |stars| == StarCount(width, height)
  {
    DrawnStars(width, height, random, seed, StarCount(width, height))
  }

  /** With lawful draws every initial star is well-shaped and on the screen. */
  lemma InitialStarsInBand(width: nat, height: nat, random: nat -> real, seed: nat)
    requires RandomLaw(random)
    ensures forall i :: 0 <= i < StarCount(width, height) ==>
      StarShape(InitialStars(width, height, random, seed)[i]) &&
      InBand(InitialStars(width, height, random, seed)[i], width, height)
  {
    var stars := InitialStars(width, height, random, seed);
    forall i | 0 <= i < |stars|
      ensures StarShape(stars[i]) && InBand(stars[i], width, height)
    {
      DrawnStarsAt(width, height, random, seed, StarCount(width, height), i);
      NewStarInRange(width, height, random, seed + 7 * i);
    }
  }

  /** Whether this frame's drift carries the star past the left margin. */
  predicate Wraps(s: Star) {
    s.x - s.speed < -WrapMargin
  }

  /** One frame of drift and twinkle; `draw` is a random draw, consulted only when the star wraps. */
  function StepStar(s: Star, width: nat, height: nat, draw: real): (t: Star)
    ensures t.size == s.size && t.speed == s.speed && t.opacity == s.opacity && t.twinkleSpeed == s.twinkleSpeed
    ensures t.twinklePhase == s.twinklePhase + s.twinkleSpeed
    ensures Wraps(s) ==> t.x == width as real + WrapMargin && t.y == draw * height as real
    ensures !Wraps(s) ==> t.x == s.x - s.speed && t.y == s.y && -WrapMargin <= t.x
    ensures Wraps(s) && 0.0 <= draw < 1.0 && 0 < height ==> 0.0 <= t.y < height as real
  {
    var moved := s.(x := s.x - s.speed);
    var placed :=
      if moved.x < -WrapMargin then
        ScaleByDraw(if 0.0 <= draw < 1.0 then draw else 0.0, height as real);
        moved.(x := width as real + WrapMargin, y := draw * height as real)
      else moved;
    placed.(twinklePhase := s.twinklePhase + s.twinkleSpeed)
  }

  /** A frame keeps every star's shape and keeps it in its band, given a draw in [0, 1). */
  lemma StepStarInBand(s: Star, width: nat, height: nat, draw: real)
    requires StarShape(s) && InBand(s, width, height)
    requires 0.0 <= draw < 1.0
    ensures StarShape(StepStar(s, width, height, draw))
    ensures InBand(StepStar(s, width, height, draw), width, height)
  {
    ScaleByDraw(draw, height as real);
  }

  /** How many of the stars wrap this frame, each of which consumes one random draw. */
  function WrapCount(stars: seq<Star>): (n: nat)
    ensures n <= |stars|
  {
    if stars == [] then 0
    else WrapCount(stars[..|stars| - 1]) + if Wraps(stars[|stars| - 1]) then 1 else 0
  }

  /** WrapCount is the number of indices whose star wraps. */
  lemma {:induction false} WrapCountCountsWrapping(stars: seq<Star>)
    ensures WrapCount(stars) == |set i | 0 <= i < |stars| && Wraps(stars[i])|
  {
    if stars != [] {
      var init := stars[..|stars| - 1];
      WrapCountCountsWrapping(init);
      var wrapsBefore := set i | 0 <= i < |init| && Wraps(init[i]);
      var wraps := set i | 0 <= i < |stars| && Wraps(stars[i]);
      assert wraps == wrapsBefore + (if Wraps(stars[|stars| - 1]) then {|stars| - 1} else {});
    }
  }

  /**
   * The star list after one frame whose first unused draw is random(seed): the star at
   * index i, if it wraps, takes the draw after those taken by the wrapping stars before it.
   */
  function StarsAfterFrame(stars: seq<Star>, width: nat, height: nat, random: nat -> real, seed: nat): (next: seq<Star>)
    ensures |next| == |stars|
  {
    if stars == [] then []
    else
      var init := stars[..|stars| - 1];
      StarsAfterFrame(init, width, height, random, seed)
        + [StepStar(stars[|stars| - 1], width, height, random(seed + WrapCount(init)))]
  }

  /** Extending the prefix by one star appends that star's step and counts its wrap. */
  lemma StarsAfterFramePrefix(stars: seq<Star>, width: nat, height: nat, random: nat -> real, seed: nat, i: nat)
    requires i < |stars|
    ensures StarsAfterFrame(stars[..i + 1], width, height, random, seed)
         == StarsAfterFrame(stars[..i], width, height, random, seed)
            + [StepStar(stars[i], width, height, random(seed + WrapCount(stars[..i])))]
    ensures WrapCount(stars[..i + 1]) == WrapCount(stars[..i]) + if Wraps(stars[i]) then 1 else 0
  {
    assert stars[..i + 1][..i] == stars[..i];
  }

  /** Star i of the frame is star i stepped with draw seed + (number of wrapping stars before it). */
  lemma {:induction false} StarsAfterFrameAt(stars: seq<Star>, width: nat, height: nat, random: nat -> real, seed: nat, i: nat)
    requires i < |stars|
    ensures StarsAfterFrame(stars, width, height, random, seed)[i]
         == StepStar(stars[i], width, height, random(seed + WrapCount(stars[..i])))
  {
    var init := stars[..|stars| - 1];
    if i < |stars| - 1 {
      StarsAfterFrameAt(init, width, height, random, seed, i);
      assert init[..i] == stars[..i];
    }
  }

  /** Counting wraps over a longer prefix never gives fewer, and a wrapping star in between adds one. */
  lemma {:induction false} WrapCountPrefix(stars: seq<Star>, i: nat, j: nat)
    requires i < j <= |stars|
    ensures WrapCount(stars[..i]) + (if Wraps(stars[i]) then 1 else 0) <= WrapCount(stars[..j])
    decreases j - i
  {
    if j == i + 1 {
      assert stars[..j][..i] == stars[..i];
    } else {
      WrapCountPrefix(stars, i, j - 1);
      assert stars[..j][..j - 1] == stars[..j - 1];
    }
  }

  /** Two different wrapping stars never share a random draw: each gets a draw height. */
  lemma WrappingStarsDrawDistinct(stars: seq<Star>, seed: nat, i: nat, j: nat)
    requires i < j < |stars| && Wraps(stars[i]) && Wraps(stars[j])
    ensures seed + WrapCount(stars[..i]) < seed + WrapCount(stars[..j])
  {
    WrapCountPrefix(stars, i, j);
  }

  /** A frame keeps every star's shape and band, given lawful draws. */
  lemma StarsAfterFrameInBand(stars: seq<Star>, width: nat, height: nat, random: nat -> real, seed: nat)
    requires RandomLaw(random)
    requires forall i :: 0 <= i < |stars| ==> StarShape(stars[i]) && InBand(stars[i], width, height)
    ensures forall i :: 0 <= i < |stars| ==>
      StarShape(StarsAfterFrame(stars, width, height, random, seed)[i]) &&
      InBand(StarsAfterFrame(stars, width, height, random, seed)[i], width, height)
  {
    var next := StarsAfterFrame(stars, width, height, random, seed);
    forall i | 0 <= i < |stars|
      ensures StarShape(next[i]) && InBand(next[i], width, height)
    {
      StarsAfterFrameAt(stars, width, height, random, seed, i);
      StepStarInBand(stars[i], width, height, random(seed + WrapCount(stars[..i])));
    }
  }

  // ---------------------------------------------------------------------------
  // Twinkle and pointer glow of a star

  function Distance(sqrt: real -> real, pointer: Pointer, x: real, y: real): (d: real)
    requires SqrtLaw(sqrt)
    ensures 0.0 <= d
  {
    var dx := pointer.x - x;
    var dy := pointer.y - y;
    assert 0.0 <= dx * dx && 0.0 <= dy * dy;
    sqrt(dx * dx + dy * dy)
  }

  /** Twinkle factor (sin(phase) + 1) / 2, always in [0, 1]. */
  function Twinkle(sin: real -> real, phase: real): (tw: real)
    requires SineLaw(sin)
    ensures 0.0 <= tw <= 1.0
  {
    sin(phase) * 0.5 + 0.5
  }

  /** Extra brightness of a star `dist` away from the pointer. */
  function Boost(dist: real): (b: real)
    requires 0.0 <= dist
    ensures 0.0 <= b <= MaxBoost
    ensures 0.0 < b <==> dist < GlowRadius
    ensures dist == 0.0 ==> b == MaxBoost
  {
    if dist < GlowRadius then (1.0 - dist / GlowRadius) * MaxBoost else 0.0
  }

  /** The opacity a star is painted with this frame (after its twinkle phase has advanced). */
  function DrawnOpacity(s: Star, pointer: Pointer, sin: real -> real, sqrt: real -> real): real
    requires SineLaw(sin) && SqrtLaw(sqrt)
  {
    Min(TwinkledOpacity(s.opacity, Twinkle(sin, s.twinklePhase)) + Boost(Distance(sqrt, pointer, s.x, s.y)), 1.0)
  }

  /** The base opacity scaled by the twinkle factor into [opacity / 2, opacity]. */
  function TwinkledOpacity(opacity: real, tw: real): (o: real)
    ensures 0.0 <= opacity && 0.0 <= tw <= 1.0 ==> opacity * 0.5 <= o <= opacity
  {
    assert opacity * (0.5 + tw * 0.5) == opacity * 0.5 + (opacity * tw) * 0.5;
    assert 0.0 <= opacity && 0.0 <= tw <= 1.0 ==> 0.0 <= opacity * tw <= opacity by {
      if 0.0 <= opacity && 0.0 <= tw <= 1.0 {
        MulMono(opacity, tw, opacity, 1.0);
      }
    }
    opacity * (0.5 + tw * 0.5)
  }

  /**
   * A star of base opacity in [0, 1] is painted at no more than full opacity and at
   * least half its base; out of the glow radius it is painted at its twinkled opacity.
   */
  lemma DrawnOpacityBounds(s: Star, pointer: Pointer, sin: real -> real, sqrt: real -> real)
    requires SineLaw(sin) && SqrtLaw(sqrt)
    requires 0.0 <= s.opacity <= 1.0
    ensures 0.0 <= DrawnOpacity(s, pointer, sin, sqrt) <= 1.0
    ensures s.opacity * 0.5 <= DrawnOpacity(s, pointer, sin, sqrt)
    ensures GlowRadius <= Distance(sqrt, pointer, s.x, s.y) ==>
      DrawnOpacity(s, pointer, sin, sqrt) == TwinkledOpacity(s.opacity, Twinkle(sin, s.twinklePhase))
  {
  }

  /** The opacities of one frame's stars, in list order. */
  function PaintedOpacities(stars: seq<Star>, pointer: Pointer, sin: real -> real, sqrt: real -> real): (os: seq<real>)
    requires SineLaw(sin) && SqrtLaw(sqrt)
    ensures |os| == |stars|
  {
    if stars == [] then []
    else PaintedOpacities(stars[..|stars| - 1], pointer, sin, sqrt) + [DrawnOpacity(stars[|stars| - 1], pointer, sin, sqrt)]
  }

  /** Entry i of the painted opacities belongs to star i. */
  lemma {:induction false} PaintedOpacitiesAt(stars: seq<Star>, pointer: Pointer, sin: real -> real, sqrt: real -> real, i: nat)
    requires SineLaw(sin) && SqrtLaw(sqrt)
    requires i < |stars|
    ensures PaintedOpacities(stars, pointer, sin, sqrt)[i] == DrawnOpacity(stars[i], pointer, sin, sqrt)
  {
    if i < |stars| - 1 {
      PaintedOpacitiesAt(stars[..|stars| - 1], pointer, sin, sqrt, i);
    }
  }

  /** Painting one more star appends its opacity. */
  lemma PaintedOpacitiesSnoc(stars: seq<Star>, s: Star, pointer: Pointer, sin: real -> real, sqrt: real -> real)
    requires SineLaw(sin) && SqrtLaw(sqrt)
    ensures PaintedOpacities(stars + [s], pointer, sin, sqrt)
         == PaintedOpacities(stars, pointer, sin, sqrt) + [DrawnOpacity(s, pointer, sin, sqrt)]
  {
    assert (stars + [s])[..|stars|] == stars;
  }

  /** Replacing the first element of the untouched suffix moves the boundary one place right. */
  lemma SpliceStep(done: seq<Star>, rest: seq<Star>, s: Star)
    requires 0 < |rest|
    ensures (done + rest)[|done| := s] == (done + [s]) + rest[1..]
  {
  }

  // ---------------------------------------------------------------------------
  // Aurora control points

  /** Horizontal position of control point i: evenly spaced, the first at 0 and the last at the width. */
  function PointX(width: nat, i: nat): real {
    (width as real / 5.0) * i as real
  }

  /**
   * What holds of control point i: its fixed x, its rest height, the ranges of its drawn
   * attributes, and a band around the rest height that its eased height never leaves.
   */
  predicate PointShape(p: AuroraPoint, width: nat, height: nat, i: nat) {
    && p.x == PointX(width, i)
    && p.baseY == height as real * 0.4
    && 50.0 <= p.amplitude < 80.0
    && 0.01 <= p.speed < 0.02
    && p.baseY - p.amplitude - MaxForce <= p.y <= p.baseY + p.amplitude + MaxForce / 2.0
  }

  /** Control point i, made from the draws random(k) (amplitude) and random(k + 1) (speed). */
  function NewPoint(width: nat, height: nat, random: nat -> real, i: nat, k: nat): AuroraPoint {
    AuroraPoint(
      x := PointX(width, i),
      y := height as real * 0.4,
      baseY := height as real * 0.4,
      phase := (i as real / 6.0) * Pi * 2.0,
      amplitude := 50.0 + random(k) * 30.0,
      speed := 0.01 + random(k + 1) * 0.01)
  }

  /** The control points after a (re)initialisation whose first draw is random(seed). */
  function InitialPoints(width: nat, height: nat, random: nat -> real, seed: nat): (points: seq<AuroraPoint>)
    ensures |points| == PointCount
  {
    seq(PointCount, i requires 0 <= i => NewPoint(width, height, random, i, seed + 2 * i))
  }

  /** With lawful draws every initial point is well-shaped and starts at its rest height. */
  lemma InitialPointsShape(width: nat, height: nat, random: nat -> real, seed: nat)
    requires RandomLaw(random)
    ensures forall i :: 0 <= i < PointCount ==> PointShape(InitialPoints(width, height, random, seed)[i], width, height, i)
    ensures forall i :: 0 <= i < PointCount ==>
      InitialPoints(width, height, random, seed)[i].y == InitialPoints(width, height, random, seed)[i].baseY
  {
  }

  /** The first point sits at the left edge, the last at the right edge, and x never decreases. */
  lemma InitialPointsSpan(width: nat, height: nat, random: nat -> real, seed: nat)
    ensures InitialPoints(width, height, random, seed)[0].x == 0.0
    ensures InitialPoints(width, height, random, seed)[PointCount - 1].x == width as real
    ensures forall i, j :: 0 <= i <= j < PointCount ==>
      InitialPoints(width, height, random, seed)[i].x <= InitialPoints(width, height, random, seed)[j].x
  {
    var points := InitialPoints(width, height, random, seed);
    forall i, j | 0 <= i <= j < PointCount
      ensures points[i].x <= points[j].x
    {
      PointXMonotone(width, i, j);
    }
  }

  /** The fixed x of control point i never decreases with i. */
  lemma PointXMonotone(width: nat, i: nat, j: nat)
    requires i <= j
    ensures PointX(width, i) <= PointX(width, j)
  {
    var step := width as real / 5.0;
    assert step * (j - i) as real >= 0.0;
  }

  /** A 1600 x 900 viewport gets 180 stars and control points at x = 0, 320, 640, 960, 1280, 1600. */
  lemma FullHdViewport(random: nat -> real, seed: nat)
    ensures |InitialStars(1600, 900, random, seed)| == 180
    ensures forall i :: 0 <= i < PointCount ==> InitialPoints(1600, 900, random, seed)[i].x == 320.0 * i as real
  {
  }

  /** Strength of the pointer's push at distance `dist` inside the 300px radius. */
  function Force(dist: real): (f: real)
    requires 0.0 <= dist < PushRadius
    ensures 0.0 < f <= MaxForce
    ensures dist == 0.0 <==> f == MaxForce
  {
    (1.0 - dist / PushRadius) * MaxForce
  }

  /**
   * The pointer's contribution to a point's target height: none from 300px on; inside,
   * the full force upward when the pointer is above the point, half of it downward otherwise.
   */
  function Push(pointer: Pointer, p: AuroraPoint, dist: real): (d: real)
    requires 0.0 <= dist
    ensures PushRadius <= dist ==> d == 0.0
    ensures dist < PushRadius && pointer.y < p.y ==> d == -Force(dist)
    ensures dist < PushRadius && p.y <= pointer.y ==> d == Force(dist) * 0.5
    ensures d != 0.0 <==> dist < PushRadius
    ensures -MaxForce <= d <= MaxForce / 2.0
  {
    if dist < PushRadius then
      (if pointer.y < p.y then -Force(dist) else Force(dist) * 0.5)
    else 0.0
  }

  /** The undisturbed wave height baseY + sin(phase) * amplitude, within one amplitude of the rest height. */
  function Wave(p: AuroraPoint, sin: real -> real): (w: real)
    requires SineLaw(sin) && 0.0 <= p.amplitude
    ensures p.baseY - p.amplitude <= w <= p.baseY + p.amplitude
  {
    ScaleBySine(sin(p.phase), p.amplitude);
    p.baseY + sin(p.phase) * p.amplitude
  }

  /** The height a point eases toward, computed on the point after its phase advanced. */
  function Target(p: AuroraPoint, pointer: Pointer, sin: real -> real, sqrt: real -> real): (t: real)
    requires SineLaw(sin) && SqrtLaw(sqrt) && 0.0 <= p.amplitude
    ensures p.baseY - p.amplitude - MaxForce <= t <= p.baseY + p.amplitude + MaxForce / 2.0
    ensures PushRadius <= Distance(sqrt, pointer, p.x, p.y) ==> t == Wave(p, sin)
  {
    Wave(p, sin) + Push(pointer, p, Distance(sqrt, pointer, p.x, p.y))
  }

  /** One frame of easing: 5% of the remaining distance to the target. */
  function Ease(y: real, target: real): real {
    y + (target - y) * Easing
  }

  /** One easing step leaves 95% of the distance to the target and lands between the old height and the target. */
  lemma EaseStep(y: real, target: real)
    ensures Abs(target - Ease(y, target)) == (1.0 - Easing) * Abs(target - y)
    ensures Min(y, target) <= Ease(y, target) <= Max(y, target)
  {
  }

  /** One frame of a control point: the phase advances by its speed and y eases toward the target. */
  function StepPoint(p: AuroraPoint, pointer: Pointer, sin: real -> real, sqrt: real -> real): (q: AuroraPoint)
    requires SineLaw(sin) && SqrtLaw(sqrt) && 0.0 <= p.amplitude
    ensures q.x == p.x && q.baseY == p.baseY && q.amplitude == p.amplitude && q.speed == p.speed
    ensures q.phase == p.phase + p.speed
    ensures Abs(Target(p.(phase := q.phase), pointer, sin, sqrt) - q.y)
         == (1.0 - Easing) * Abs(Target(p.(phase := q.phase), pointer, sin, sqrt) - p.y)
    ensures Min(p.y, Target(p.(phase := q.phase), pointer, sin, sqrt)) <= q.y
         <= Max(p.y, Target(p.(phase := q.phase), pointer, sin, sqrt))
  {
    var advanced := p.(phase := p.phase + p.speed);
    EaseStep(p.y, Target(advanced, pointer, sin, sqrt));
    advanced.(y := Ease(p.y, Target(advanced, pointer, sin, sqrt)))
  }

  /** A frame keeps every property of a control point that initialisation established. */
  lemma StepPointKeepsShape(p: AuroraPoint, pointer: Pointer, sin: real -> real, sqrt: real -> real,
                            width: nat, height: nat, i: nat)
    requires SineLaw(sin) && SqrtLaw(sqrt)
    requires PointShape(p, width, height, i)
    ensures PointShape(StepPoint(p, pointer, sin, sqrt), width, height, i)
  {
    var q := StepPoint(p, pointer, sin, sqrt);
    var t := Target(p.(phase := q.phase), pointer, sin, sqrt);
    assert Min(p.y, t) <= q.y <= Max(p.y, t);
  }

  /** The control points after one frame: every point steps on its own. */
  function AuroraAfterFrame(points: seq<AuroraPoint>, pointer: Pointer, sin: real -> real, sqrt: real -> real)
    : (next: seq<AuroraPoint>)
    requires SineLaw(sin) && SqrtLaw(sqrt)
    requires forall i :: 0 <= i < |points| ==> 0.0 <= points[i].amplitude
    ensures |next| == |points|
  {
    seq(|points|, i requires 0 <= i < |points| => StepPoint(points[i], pointer, sin, sqrt))
  }

  // ---------------------------------------------------------------------------
  // Convergence of the easing law toward a fixed target

  function Pow(b: real, n: nat): real {
    if n == 0 then 1.0 else b * Pow(b, n - 1)
  }

  /** n frames of easing toward a target that stays put. */
  function EaseFrames(y: real, target: real, n: nat): real
    decreases n
  {
    if n == 0 then y else EaseFrames(Ease(y, target), target, n - 1)
  }

  /** After n frames the signed gap to the target is 0.95^n of the initial gap. */
  lemma {:induction false} EaseFramesGap(y: real, target: real, n: nat)
    ensures target - EaseFrames(y, target, n) == Pow(1.0 - Easing, n) * (target - y)
    decreases n
  {
    if n > 0 {
      var b, y1 := 1.0 - Easing, Ease(y, target);
      EaseFramesGap(y1, target, n - 1);
      var p := Pow(b, n - 1);
      assert Pow(b, n) == b * p;
      assert target - y1 == b * (target - y);
      MulAssoc(p, b, target - y);
    }
  }

  /** After n frames the remaining distance is 0.95^n of the initial one. */
  lemma {:induction false} EaseFramesResidual(y: real, target: real, n: nat)
    ensures Abs(target - EaseFrames(y, target, n)) == Pow(1.0 - Easing, n) * Abs(target - y)
  {
    var d, g, k := target - EaseFrames(y, target, n), target - y, Pow(1.0 - Easing, n);
    EaseFramesGap(y, target, n);
    PowBounds(1.0 - Easing, n);
    ResidualFromGap(d, g, k);
  }

  lemma ResidualFromGap(d: real, g: real, k: real)
    requires 0.0 <= k && d == k * g
    ensures Abs(d) == k * Abs(g)
  {
    AbsScale(k, g);
  }

  lemma AbsScale(k: real, v: real)
    requires 0.0 <= k
    ensures Abs(k * v) == k * Abs(v)
  {
    if v < 0.0 {
      assert k * v == -(k * -v);
      assert 0.0 <= k * -v;
    } else {
      assert 0.0 <= k * v;
    }
  }

  /** The remaining distance never grows from one frame to the next. */
  lemma {:induction false} EaseFramesMonotone(y: real, target: real, n: nat)
    ensures Abs(target - EaseFrames(y, target, n + 1)) <= Abs(target - EaseFrames(y, target, n))
  {
    var p := Pow(1.0 - Easing, n);
    EaseFramesResidual(y, target, n);
    EaseFramesResidual(y, target, n + 1);
    assert Pow(1.0 - Easing, n + 1) == (1.0 - Easing) * p;
    PowBounds(1.0 - Easing, n);
    ShrinkByRate(p, Abs(target - y), 1.0 - Easing);
  }

  lemma ShrinkByRate(p: real, a: real, b: real)
    requires 0.0 <= p && 0.0 <= a && 0.0 <= b <= 1.0
    ensures (b * p) * a <= p * a
  {
    MulAssoc(p, b, a);
    assert 0.0 <= p * a;
    MulMono(b, p * a, 1.0, p * a);
  }

  lemma {:induction false} PowBounds(b: real, n: nat)
    requires 0.0 <= b <= 1.0
    ensures 0.0 <= Pow(b, n) <= 1.0
  {
    if n > 0 {
      var q := Pow(b, n - 1);
      PowBounds(b, n - 1);
      ShrinkInUnit(b, q);
    }
  }

  lemma ShrinkInUnit(b: real, q: real)
    requires 0.0 <= b <= 1.0 && 0.0 <= q
    ensures 0.0 <= b * q <= q
  {
    assert (1.0 - b) * q >= 0.0;
  }

  lemma {:induction false} PowAdd(b: real, m: nat, n: nat)
    ensures Pow(b, m + n) == Pow(b, m) * Pow(b, n)
  {
    if m > 0 {
      PowAdd(b, m - 1, n);
      assert Pow(b, m + n) == b * Pow(b, m - 1 + n);
    }
  }

  lemma MulAssoc(a: real, b: real, c: real)
    ensures a * (b * c) == (b * a) * c
  {
  }

  lemma MulMono(a: real, b: real, c: real, d: real)
    requires 0.0 <= a <= c && 0.0 <= b <= d
    ensures a * b <= c * d
  {
    assert a * b <= c * b;
    assert c * b <= c * d;
  }

  /** b^100 is below 1% when b is 0.95 (b is a parameter so that Pow is not unrolled on literals). */
  lemma HundredthPowerSmall(b: real)
    requires b == 1.0 - Easing
    ensures 0.0 <= Pow(b, 100) <= 0.01
  {
    assert Pow(b, 1) == b;
    PowAdd(b, 1, 1);
    PowAdd(b, 2, 2);
    assert Pow(b, 4) == 0.81450625;
    PowAdd(b, 4, 4);
    MulMono(Pow(b, 4), Pow(b, 4), 0.82, 0.82);
    PowAdd(b, 8, 8);
    PowBounds(b, 8);
    MulMono(Pow(b, 8), Pow(b, 8), 0.6724, 0.6724);
    PowAdd(b, 16, 16);
    PowBounds(b, 16);
    MulMono(Pow(b, 16), Pow(b, 16), 0.46, 0.46);
    PowAdd(b, 32, 32);
    PowBounds(b, 32);
    MulMono(Pow(b, 32), Pow(b, 32), 0.22, 0.22);
    PowAdd(b, 64, 32);
    PowBounds(b, 64);
    MulMono(Pow(b, 64), Pow(b, 32), 0.0484, 0.22);
    PowAdd(b, 96, 4);
    PowBounds(b, 96);
    MulMono(Pow(b, 96), Pow(b, 4), 0.010648, 0.81450625);
    PowBounds(b, 100);
  }

  /** b^n stays below 1% from n = 100 on, when b is 0.95. */
  lemma {:induction false} LaterPowersSmall(b: real, n: nat)
    requires b == 1.0 - Easing && 100 <= n
    ensures 0.0 <= Pow(b, n) <= 0.01
  {
    HundredthPowerSmall(b);
    PowAdd(b, 100, n - 100);
    PowBounds(b, n - 100);
    MulMono(Pow(b, 100), Pow(b, n - 100), 0.01, 1.0);
    PowBounds(b, n);
  }

  lemma ScaledAtMost(x: real, k: real, a: real, bound: real)
    requires x == k * a && 0.0 <= k <= bound && 0.0 <= a
    ensures x <= bound * a
  {
    MulMono(k, a, bound, a);
  }

  /** After 100 frames or more toward a fixed target, at most 1% of the initial distance remains. */
  lemma {:induction false} HundredFramesConverge(y: real, target: real, n: nat)
    requires 100 <= n
    ensures Abs(target - EaseFrames(y, target, n)) <= 0.01 * Abs(target - y)
  {
    EaseFramesResidual(y, target, n);
    LaterPowersSmall(1.0 - Easing, n);
    ScaledAtMost(Abs(target - EaseFrames(y, target, n)), Pow(1.0 - Easing, n), Abs(target - y), 0.01);
  }
}
