/**
 * The hero page's animated background as the component keeps it: the viewport size,
 * the cached pointer position, the star and control-point lists (rebuilt on every
 * resize, stepped in place every frame) and how far the injected random source has
 * been read. Each method is proved against the per-entity functions of AuroraModel.
 */
module HeroSection {
  import opened AuroraModel

  class AuroraBackground {
    /** The host's Math.random, as the stream of values it returns. */
    const random: nat -> real
    const sin: real -> real
    const sqrt: real -> real

    /** How many random values have been taken so far. */
    var draws: nat
    var width: nat
    var height: nat
    var mouse: Pointer
    var stars: seq<Star>
    var points: seq<AuroraPoint>

    ghost predicate Lawful() {
      RandomLaw(random) && SineLaw(sin) && SqrtLaw(sqrt)
    }

    /** What every resize establishes and every frame keeps. */
    ghost predicate Valid()
      reads this
    {
      && Lawful()
      && (forall i :: 0 <= i < |stars| ==> StarShape(stars[i]) && InBand(stars[i], width, height))
      && |points| == PointCount
      && (forall i :: 0 <= i < |points| ==> PointShape(points[i], width, height, i))
    }

    /** Mounting: both lists start empty, the pointer at the origin, then the first resize builds the lists. */
    constructor (random: nat -> real, sin: real -> real, sqrt: real -> real, innerWidth: nat, innerHeight: nat)
      requires RandomLaw(random) && SineLaw(sin) && SqrtLaw(sqrt)
      ensures Valid()
      ensures this.random == random && this.sin == sin && this.sqrt == sqrt
      ensures mouse == Pointer(0.0, 0.0)
      ensures width == innerWidth && height == innerHeight
      ensures stars == InitialStars(innerWidth, innerHeight, random, 0)
      ensures points == InitialPoints(innerWidth, innerHeight, random, 7 * |stars|)
      ensures draws == 7 * |stars| + 12
    {
      this.random, this.sin, this.sqrt := random, sin, sqrt;
      draws := 0;
      width, height := innerWidth, innerHeight;
      mouse := Pointer(0.0, 0.0);
      stars, points := [], [];
      new;
      Resize(innerWidth, innerHeight);
    }

    /** One call of Math.random(). */
    method NextRandom() returns (r: real)
      modifies this`draws
      ensures r == random(old(draws)) && draws == old(draws) + 1
    {
      r := random(draws);
      draws := draws + 1;
    }

    /** Takes the new viewport size and rebuilds both lists from it. */
    method Resize(innerWidth: nat, innerHeight: nat)
      requires Lawful()
      modifies this`width, this`height, this`stars, this`points, this`draws
      ensures Valid()
      ensures width == innerWidth && height == innerHeight
      ensures stars == InitialStars(innerWidth, innerHeight, random, old(draws))
      ensures points == InitialPoints(innerWidth, innerHeight, random, old(draws) + 7 * |stars|)
      ensures draws == old(draws) + 7 * |stars| + 12
    {
      width, height := innerWidth, innerHeight;
      InitStars();
      InitAuroraPoints();
      InitialStarsInBand(width, height, random, old(draws));
      InitialPointsShape(width, height, random, old(draws) + 7 * |stars|);
    }

    /** Replaces the star list by floor(width * height / 8000) freshly drawn stars. */
    method InitStars()
      modifies this`stars, this`draws
      ensures stars == InitialStars(width, height, random, old(draws))
      ensures draws == old(draws) + 7 * |stars|
    {
      var created := DrawStars(StarCount(width, height));
      stars := created;
    }

    /** The creation loop of initStars: n stars, drawn one after another. */
    method DrawStars(n: nat) returns (created: seq<Star>)
      modifies this`draws
      ensures created == DrawnStars(width, height, random, old(draws), n)
      ensures draws == old(draws) + 7 * n
    {
      ghost var seed := draws;
      created := [];
      var i := 0;
      while i < n
        invariant 0 <= i <= n
        invariant draws == seed + 7 * i
        invariant created == DrawnStars(width, height, random, seed, i)
      {
        created := DrawNextStar(seed, created, i);
        i := i + 1;
      }
    }

    /** One round of the creation loop: star i is drawn and appended to the i stars before it. */
    method DrawNextStar(ghost seed: nat, done: seq<Star>, i: nat) returns (created: seq<Star>)
      requires draws == seed + 7 * i && done == DrawnStars(width, height, random, seed, i)
      modifies this`draws
      ensures created == DrawnStars(width, height, random, seed, i + 1)
      ensures draws == seed + 7 * (i + 1)
    {
      var star := DrawStar();
      DrawnStarsSnoc(width, height, random, seed, i);
      created := done + [star];
    }

    /** One star literal of initStars: seven draws, taken in field order. */
    method DrawStar() returns (s: Star)
      modifies this`draws
      ensures s == NewStar(width, height, random, old(draws))
      ensures draws == old(draws) + 7
    {
      var rx := NextRandom();
      var ry := NextRandom();
      var rSize := NextRandom();
      var rSpeed := NextRandom();
      var rOpacity := NextRandom();
      var rTwinkleSpeed := NextRandom();
      var rTwinklePhase := NextRandom();
      s := StarOf(width, height, rx, ry, rSize, rSpeed, rOpacity, rTwinkleSpeed, rTwinklePhase);
    }

    /** Replaces the control-point list by six evenly spaced points at 40% of the height. */
    method InitAuroraPoints()
      modifies this`points, this`draws
      ensures points == InitialPoints(width, height, random, old(draws))
      ensures draws == old(draws) + 12
    {
      ghost var seed := draws;
      var w, h := width, height;
      var created := [];
      var i := 0;
      while i < PointCount
        invariant 0 <= i <= PointCount
        invariant draws == seed + 2 * i
        invariant |created| == i
        invariant forall j :: 0 <= j < i ==> created[j] == NewPoint(w, h, random, j, seed + 2 * j)
      {
        var rAmplitude := NextRandom();
        var rSpeed := NextRandom();
        created := created + [AuroraPoint(
          x := (w as real / 5.0) * i as real,
          y := h as real * 0.4,
          baseY := h as real * 0.4,
          phase := (i as real / 6.0) * Pi * 2.0,
          amplitude := 50.0 + rAmplitude * 30.0,
          speed := 0.01 + rSpeed * 0.01)];
        i := i + 1;
      }
      points := created;
    }

    /** The pointer-move handler: caches the latest client position. */
    method MouseMove(clientX: real, clientY: real)
      requires Valid()
      modifies this`mouse
      ensures Valid()
      ensures mouse == Pointer(clientX, clientY)
    {
      mouse := Pointer(clientX, clientY);
    }

    /** The state update at the start of drawing the aurora: every control point steps once. */
    method UpdateAurora()
      requires Valid()
      modifies this`points
      ensures Valid()
      ensures points == AuroraAfterFrame(old(points), mouse, sin, sqrt)
    {
      ghost var before := points;
      var i := 0;
      while i < |points|
        invariant 0 <= i <= |points| == |before|
        invariant forall k :: 0 <= k < i ==> points[k] == StepPoint(before[k], mouse, sin, sqrt)
        invariant forall k :: i <= k < |points| ==> points[k] == before[k]
      {
        var point := StepAuroraPoint(points[i]);
        points := points[i := point];
        i := i + 1;
      }
      forall k | 0 <= k < |points|
        ensures PointShape(points[k], width, height, k)
      {
        StepPointKeepsShape(before[k], mouse, sin, sqrt, width, height, k);
      }
    }

    /** One control point's frame: advance the phase, add the pointer's push to the wave, ease 5% toward it. */
    method StepAuroraPoint(point: AuroraPoint) returns (q: AuroraPoint)
      requires Lawful() && 0.0 <= point.amplitude
      ensures q == StepPoint(point, mouse, sin, sqrt)
    {
      var phase := point.phase + point.speed;
      var targetY := point.baseY + sin(phase) * point.amplitude;
      var dist := Distance(sqrt, mouse, point.x, point.y);
      if dist < PushRadius {
        var force := (1.0 - dist / PushRadius) * MaxForce;
        targetY := targetY + if mouse.y < point.y then -force else force * 0.5;
      }
      q := point.(phase := phase, y := point.y + (targetY - point.y) * Easing);
    }

    /** One star's drift: move left by its speed; past the margin, re-enter on the right at a random height. */
    method MoveStar(star: Star) returns (t: Star)
      modifies this`draws
      ensures t == StepStar(star, width, height, random(old(draws)))
      ensures draws == old(draws) + (if Wraps(star) then 1 else 0)
    {
      var x := star.x - star.speed;
      var y := star.y;
      if x < -WrapMargin {
        x := width as real + WrapMargin;
        var r := NextRandom();
        y := r * height as real;
      }
      t := star.(x := x, y := y, twinklePhase := star.twinklePhase + star.twinkleSpeed);
    }

    /** The opacity one star is painted with: its twinkling base plus the pointer glow, capped at 1. */
    method StarOpacity(star: Star) returns (o: real)
      requires SineLaw(sin) && SqrtLaw(sqrt)
      ensures o == DrawnOpacity(star, mouse, sin, sqrt)
    {
      var twinkle := sin(star.twinklePhase) * 0.5 + 0.5;
      var currentOpacity := star.opacity * (0.5 + twinkle * 0.5);
      var dist := Distance(sqrt, mouse, star.x, star.y);
      var mouseInfluence := if dist < GlowRadius then (1.0 - dist / GlowRadius) * MaxBoost else 0.0;
      o := Min(currentOpacity + mouseInfluence, 1.0);
    }

    /**
     * The state update of drawing the stars: every star drifts, wraps if it left the
     * screen, and advances its twinkle; returns the opacity each star is painted with.
     */
    method UpdateStars() returns (opacities: seq<real>)
      requires Valid()
      modifies this`stars, this`draws
      ensures Valid()
      ensures stars == StarsAfterFrame(old(stars), width, height, random, old(draws))
      ensures draws == old(draws) + WrapCount(old(stars))
      ensures opacities == PaintedOpacities(stars, mouse, sin, sqrt)
      ensures forall i :: 0 <= i < |opacities| ==> 0.0 <= opacities[i] <= 1.0
    {
      ghost var before := stars;
      opacities := StepStars();
      StarsAfterFrameInBand(before, width, height, random, old(draws));
      forall i | 0 <= i < |opacities|
        ensures 0.0 <= opacities[i] <= 1.0
      {
        PaintedOpacitiesAt(stars, mouse, sin, sqrt, i);
        DrawnOpacityBounds(stars[i], mouse, sin, sqrt);
      }
    }

    /** The loop of UpdateStars: one drift step and one painted opacity per star, in list order. */
    method StepStars() returns (opacities: seq<real>)
      requires SineLaw(sin) && SqrtLaw(sqrt)
      modifies this`stars, this`draws
      ensures stars == StarsAfterFrame(old(stars), width, height, random, old(draws))
      ensures draws == old(draws) + WrapCount(old(stars))
      ensures opacities == PaintedOpacities(stars, mouse, sin, sqrt)
    {
      ghost var before, seed := stars, draws;
      opacities := [];
      var i := 0;
      while i < |stars|
        invariant 0 <= i <= |before| == |stars|
        invariant draws == seed + WrapCount(before[..i])
        invariant stars == StarsAfterFrame(before[..i], width, height, random, seed) + before[i..]
        invariant opacities == PaintedOpacities(StarsAfterFrame(before[..i], width, height, random, seed), mouse, sin, sqrt)
      {
        ghost var done := StarsAfterFrame(before[..i], width, height, random, seed);
        var opacity := StepStarAt(i, before, seed);
        PaintedOpacitiesSnoc(done, stars[i], mouse, sin, sqrt);
        opacities := opacities + [opacity];
        i := i + 1;
      }
      assert before[..|before|] == before;
      assert stars == StarsAfterFrame(before, width, height, random, seed) + [];
    }

    /** One iteration of the star loop: star i drifts in place and its painted opacity is returned. */
    method StepStarAt(i: nat, ghost before: seq<Star>, ghost seed: nat) returns (opacity: real)
      requires SineLaw(sin) && SqrtLaw(sqrt)
      requires i < |before|
      requires draws == seed + WrapCount(before[..i])
      requires stars == StarsAfterFrame(before[..i], width, height, random, seed) + before[i..]
      modifies this`stars, this`draws
      ensures draws == seed + WrapCount(before[..i + 1])
      ensures stars == StarsAfterFrame(before[..i + 1], width, height, random, seed) + before[i + 1..]
      ensures StarsAfterFrame(before[..i + 1], width, height, random, seed)
           == StarsAfterFrame(before[..i], width, height, random, seed) + [stars[i]]
      ensures opacity == DrawnOpacity(stars[i], mouse, sin, sqrt)
    {
      ghost var done := StarsAfterFrame(before[..i], width, height, random, seed);
      StarsAfterFramePrefix(before, width, height, random, seed, i);
      assert stars[i] == before[i];
      var star := MoveStar(stars[i]);
      assert star == StepStar(before[i], width, height, random(seed + WrapCount(before[..i])));
      ghost var next := done + [star];
      assert next == StarsAfterFrame(before[..i + 1], width, height, random, seed);
      opacity := StarOpacity(star);
      SpliceStep(done, before[i..], star);
      assert before[i..][1..] == before[i + 1..];
      stars := stars[i := star];
      assert stars == next + before[i + 1..];
    }

    /** One animation frame: the aurora points step, then the stars; returns the stars' painted opacities. */
    method Animate() returns (opacities: seq<real>)
      requires Valid()
      modifies this`points, this`stars, this`draws
      ensures Valid()
      ensures points == AuroraAfterFrame(old(points), mouse, sin, sqrt)
      ensures stars == StarsAfterFrame(old(stars), width, height, random, old(draws))
      ensures draws == old(draws) + WrapCount(old(stars))
      ensures opacities == PaintedOpacities(stars, mouse, sin, sqrt)
      ensures forall i :: 0 <= i < |opacities| ==> 0.0 <= opacities[i] <= 1.0
    {
      UpdateAurora();
      opacities := UpdateStars();
    }
  }
}
