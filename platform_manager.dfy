/**
 * PlatformManager.java: the endless world generator. It owns the platform and coin lists and a
 * vertical frontier, appends one platform per step until the frontier passes a target, and removes
 * what has fallen below a threshold.
 *
 * The random source is an oracle `choose`: the k-th platform spawned by one call takes its x and
 * its coin draw from choose(k).
 */
module Platforms {
  import opened Shapes
  import opened Coins
  import opened GameConfig

  /** One draw of the random source: the platform's x and whether it carries a coin. */
  datatype Choice = Choice(x: real, withCoin: bool)

  /** The range MathUtils.random(20, WORLD_WIDTH - PLATFORM_WIDTH - 20) draws x from. */
  const SpawnMinX: real := 20.0
  const SpawnMaxX: real := WorldWidth - PlatformWidth - 20.0

  /** The frontier that init starts from, and the ground platform it places. */
  const InitialFrontier: real := 140.0
  const Ground: Rect := Rect(0.0, 80.0, WorldWidth, 20.0)
  /** How many platforms init's cushion loop spawns (140, 260, ..., 1580 below 2 * 800). */
  const CushionPlatforms: nat := 13

  /** Coins sit 26 above the platform's top, centred, with radius 10. */
  const CoinLift: real := 26.0
  const CoinRadius: real := 10.0

  /** The oracle only yields x values the source's random call can produce. */
  ghost predicate ValidOracle(choose: nat -> Choice)
  {
    forall k: nat :: SpawnMinX <= choose(k).x <= SpawnMaxX
  }

  /** The platform spawned at height y with draw c. */
  function Spawned(y: real, c: Choice): Rect
  {
    Rect(c.x, y, PlatformWidth, PlatformHeight)
  }

  /** The coin placed over platform p. */
  function CoinOver(p: Rect): Circle
  {
    Circle(p.x + p.width / 2.0, p.y + p.height + CoinLift, CoinRadius)
  }

  /** A platform of the shape and horizontal range that spawning produces. */
  predicate Spawnable(p: Rect)
  {
    p.width == PlatformWidth && p.height == PlatformHeight && SpawnMinX <= p.x <= SpawnMaxX
  }

  /** Platform tops listed bottom to top, no two at the same height. */
  predicate AscendingTops(ps: seq<Rect>)
  {
    forall i, j :: 0 <= i < j < |ps| ==> ps[i].Top() < ps[j].Top()
  }

  /** Platforms listed bottom to top, no two at the same height. */
  predicate AscendingY(ps: seq<Rect>)
  {
    forall i, j :: 0 <= i < j < |ps| ==> ps[i].y < ps[j].y
  }

  /** Coin circles listed bottom to top, no two at the same height. */
  predicate AscendingCircles(cs: seq<Circle>)
  {
    forall i, j :: 0 <= i < j < |cs| ==> cs[i].y < cs[j].y
  }

  /** The height reached from origin after `steps` additions of the platform step. */
  function Frontier(origin: real, steps: nat): real
  {
    if steps == 0 then origin else Frontier(origin, steps - 1) + PlatformStepY
  }

  /** The closed form: origin plus steps times the platform step. */
  lemma {:induction false} FrontierClosedForm(origin: real, steps: nat)
    ensures Frontier(origin, steps) == origin + PlatformStepY * steps as real
  {
    if steps > 0 {
      FrontierClosedForm(origin, steps - 1);
    }
  }

  /** Taking a steps and then b steps is taking a + b steps. */
  lemma {:induction false} FrontierAdd(origin: real, a: nat, b: nat)
    ensures Frontier(Frontier(origin, a), b) == Frontier(origin, a + b)
  {
    if b > 0 {
      FrontierAdd(origin, a, b - 1);
    }
  }

  /** Starting one step higher is the same as taking one step more. */
  lemma FrontierShift(origin: real, k: nat)
    ensures Frontier(origin + PlatformStepY, k) == Frontier(origin, k + 1)
  {
    FrontierAdd(origin, 1, k);
    assert Frontier(origin, 1) == origin + PlatformStepY;
  }

  /** How many loop iterations `while (frontier < target) frontier += STEP` performs. */
  function StepsTo(frontier: real, target: real): (n: nat)
    ensures n == 0 <==> frontier >= target
    ensures Frontier(frontier, n) >= target
    ensures n > 0 ==> Frontier(frontier, n - 1) < target
    decreases (target - frontier).Floor
  {
    if frontier >= target then 0
    else
      var m := StepsTo(frontier + PlatformStepY, target);
      FrontierShift(frontier, m);
      if m > 0 then FrontierShift(frontier, m - 1); 1 + m else 1 + m
  }

  /** Once generation has reached a target, generating up to it again takes no step. */
  lemma GenerateUpToIdempotent(frontier: real, target: real)
    ensures StepsTo(Frontier(frontier, StepsTo(frontier, target)), target) == 0
  {
  }

  /** Frontier never goes below origin. */
  lemma {:induction false} FrontierAbove(origin: real, steps: nat)
    ensures Frontier(origin, steps) >= origin
  {
    if steps > 0 {
      FrontierAbove(origin, steps - 1);
    }
  }

  /** The k-th step from frontier is still below target exactly when the loop runs more than k times. */
  lemma {:induction false} BelowTarget(frontier: real, target: real, k: nat)
    ensures Frontier(frontier, k) < target <==> k < StepsTo(frontier, target)
    decreases k
  {
    FrontierAbove(frontier, k);
    if frontier < target && k > 0 {
      FrontierShift(frontier, k - 1);
      BelowTarget(frontier + PlatformStepY, target, k - 1);
    }
  }

  /** StepsTo is pinned down by its two bounds. */
  lemma {:induction false} StepsToExact(frontier: real, target: real, n: nat)
    requires n > 0
    requires Frontier(frontier, n - 1) < target <= Frontier(frontier, n)
    ensures StepsTo(frontier, target) == n
    decreases n
  {
    FrontierClosedForm(frontier, n - 1);
    FrontierShift(frontier, n - 1);
    if n > 1 {
      FrontierShift(frontier, n - 2);
      StepsToExact(frontier + PlatformStepY, target, n - 1);
    }
  }

  /** The n platforms spawned from frontier y0 with the draws of choose, bottom to top. */
  function Row(y0: real, n: nat, choose: nat -> Choice): (ps: seq<Rect>)
    ensures |ps| == n
  {
    if n == 0 then []
    else Row(y0, n - 1, choose) + [Spawned(Frontier(y0, n - 1), choose(n - 1))]
  }

  /** The k-th platform of a row is the k-th draw placed k steps above y0. */
  lemma {:induction false} RowAt(y0: real, n: nat, choose: nat -> Choice)
    ensures forall k :: 0 <= k < n ==> Row(y0, n, choose)[k] == Spawned(Frontier(y0, k), choose(k))
  {
    if n > 0 {
      RowAt(y0, n - 1, choose);
      assert forall k :: 0 <= k < n - 1 ==> Row(y0, n, choose)[k] == Row(y0, n - 1, choose)[k];
    }
  }

  /** The coins placed over that row: one over each platform whose draw says so. */
  function CoinRow(y0: real, n: nat, choose: nat -> Choice): (cs: seq<Circle>)
    ensures |cs| <= n
  {
    if n == 0 then []
    else
      var p := Spawned(Frontier(y0, n - 1), choose(n - 1));
      CoinRow(y0, n - 1, choose) + (if choose(n - 1).withCoin then [CoinOver(p)] else [])
  }

  /** Coin c is the coin of the k-th draw from frontier y0: over that platform, radius 10. */
  predicate CoinOfDraw(c: Circle, y0: real, choose: nat -> Choice, k: nat)
  {
    var p := Spawned(Frontier(y0, k), choose(k));
    && choose(k).withCoin
    && c == Circle(p.x + 60.0, p.y + 44.0, 10.0)
  }

  /** Coin c is the coin of one of the first n draws from frontier y0. */
  ghost predicate OfSomeDraw(c: Circle, y0: real, n: nat, choose: nat -> Choice)
  {
    exists k: nat :: k < n && CoinOfDraw(c, y0, choose, k)
  }

  /** Every coin of a row sits over a platform of the row whose draw asked for a coin. */
  lemma {:induction false} CoinRowOverRow(y0: real, n: nat, choose: nat -> Choice)
    ensures forall i :: 0 <= i < |CoinRow(y0, n, choose)| ==> OfSomeDraw(CoinRow(y0, n, choose)[i], y0, n, choose)
  {
    if n > 0 {
      CoinRowOverRow(y0, n - 1, choose);
      var cs, cs' := CoinRow(y0, n, choose), CoinRow(y0, n - 1, choose);
      forall i | 0 <= i < |cs|
        ensures OfSomeDraw(cs[i], y0, n, choose)
      {
        if i < |cs'| {
          var k: nat :| k < n - 1 && CoinOfDraw(cs'[i], y0, choose, k);
          assert cs[i] == cs'[i];
          assert CoinOfDraw(cs[i], y0, choose, k);
        } else {
          assert CoinOfDraw(cs[i], y0, choose, n - 1);
        }
      }
    }
  }

  /** Every draw of a row that asks for a coin puts one over its platform. */
  lemma {:induction false} CoinRowComplete(y0: real, n: nat, choose: nat -> Choice, k: nat)
    requires k < n && choose(k).withCoin
    ensures CoinOver(Spawned(Frontier(y0, k), choose(k))) in CoinRow(y0, n, choose)
  {
    if k < n - 1 {
      CoinRowComplete(y0, n - 1, choose, k);
    }
  }

  /** The coins of a row go bottom to top, all below the frontier, so no platform carries two. */
  lemma {:induction false} CoinRowAscending(y0: real, n: nat, choose: nat -> Choice)
    ensures forall c :: c in CoinRow(y0, n, choose) ==> c.y < Frontier(y0, n)
    ensures AscendingCircles(CoinRow(y0, n, choose))
  {
    if n > 0 {
      CoinRowAscending(y0, n - 1, choose);
    }
  }

  /** The platforms cleanupBelow keeps: those whose top is not below the threshold, in order. */
  function KeepPlatforms(ps: seq<Rect>, removeBelowY: real): seq<Rect>
  {
    if ps == [] then []
    else (if ps[0].Top() < removeBelowY then [] else [ps[0]]) + KeepPlatforms(ps[1..], removeBelowY)
  }

  /** Whether cleanupBelow drops a coin with this circle: collected, or its top below the threshold. */
  predicate Dropped(c: Circle, removeBelowY: real)
  {
    CollectedCircle(c) || c.y + c.radius < removeBelowY
  }

  /** The coins of cs whose circles (circles[k] is that of cs[k]) are not dropped, in order. */
  function KeepByCircle(cs: seq<Coin>, circles: seq<Circle>, removeBelowY: real): seq<Coin>
    requires |cs| == |circles|
  {
    if cs == [] then []
    else
      (if Dropped(circles[0], removeBelowY) then [] else [cs[0]])
        + KeepByCircle(cs[1..], circles[1..], removeBelowY)
  }

  /** One step of the filter, taken at index i. */
  lemma KeepByCircleAt(cs: seq<Coin>, circles: seq<Circle>, i: nat, removeBelowY: real)
    requires |cs| == |circles| && i < |cs|
    ensures KeepByCircle(cs[i..], circles[i..], removeBelowY)
         == (if Dropped(circles[i], removeBelowY) then [] else [cs[i]])
            + KeepByCircle(cs[i + 1..], circles[i + 1..], removeBelowY)
  {
    assert cs[i..][1..] == cs[i + 1..] && circles[i..][1..] == circles[i + 1..];
  }

  /** The coins cleanupBelow keeps: not collected and top not below the threshold, in order. */
  function KeepCoins(cs: seq<Coin>, removeBelowY: real): seq<Coin>
    reads cs
  {
    KeepByCircle(cs, Circles(cs), removeBelowY)
  }

  lemma {:induction false} KeepPlatformsExactly(ps: seq<Rect>, removeBelowY: real)
    ensures forall p :: p in KeepPlatforms(ps, removeBelowY) <==> p in ps && p.Top() >= removeBelowY
  {
    if ps != [] {
      KeepPlatformsExactly(ps[1..], removeBelowY);
      assert ps == [ps[0]] + ps[1..];
    }
  }

  /** Filtering distributes over concatenation, so relative order is kept. */
  lemma {:induction false} KeepPlatformsAppend(a: seq<Rect>, b: seq<Rect>, removeBelowY: real)
    ensures KeepPlatforms(a + b, removeBelowY)
         == KeepPlatforms(a, removeBelowY) + KeepPlatforms(b, removeBelowY)
  {
    if a != [] {
      assert (a + b)[1..] == a[1..] + b;
      KeepPlatformsAppend(a[1..], b, removeBelowY);
    } else {
      assert a + b == b;
    }
  }

  lemma {:induction false} KeepPlatformsIdempotent(ps: seq<Rect>, removeBelowY: real)
    ensures KeepPlatforms(KeepPlatforms(ps, removeBelowY), removeBelowY)
         == KeepPlatforms(ps, removeBelowY)
  {
    if ps != [] {
      KeepPlatformsIdempotent(ps[1..], removeBelowY);
      var head := if ps[0].Top() < removeBelowY then [] else [ps[0]];
      KeepPlatformsAppend(head, KeepPlatforms(ps[1..], removeBelowY), removeBelowY);
    }
  }

  lemma {:induction false} KeepPlatformsAscending(ps: seq<Rect>, removeBelowY: real)
    requires AscendingY(ps)
    ensures AscendingY(KeepPlatforms(ps, removeBelowY))
  {
    if ps != [] {
      assert AscendingY(ps[1..]);
      KeepPlatformsAscending(ps[1..], removeBelowY);
      KeepPlatformsExactly(ps[1..], removeBelowY);
      var rest := KeepPlatforms(ps[1..], removeBelowY);
      forall j | 0 <= j < |rest| ensures ps[0].y < rest[j].y {
        assert rest[j] in ps[1..];
      }
    }
  }

  lemma {:induction false} KeepByCircleExactly(cs: seq<Coin>, circles: seq<Circle>, removeBelowY: real)
    requires |cs| == |circles|
    requires forall k :: 0 <= k < |cs| ==> circles[k] == cs[k].circle
    ensures forall c :: c in KeepByCircle(cs, circles, removeBelowY) <==>
      c in cs && !Dropped(c.circle, removeBelowY)
  {
    if cs != [] {
      KeepByCircleExactly(cs[1..], circles[1..], removeBelowY);
      assert cs == [cs[0]] + cs[1..];
    }
  }

  /** Exactly the coins that are not collected and whose top is not below the threshold survive. */
  lemma KeepCoinsExactly(cs: seq<Coin>, removeBelowY: real)
    ensures forall c :: c in KeepCoins(cs, removeBelowY) <==>
      c in cs && !c.IsCollected() && c.circle.y + c.circle.radius >= removeBelowY
  {
    KeepByCircleExactly(cs, Circles(cs), removeBelowY);
  }

  lemma {:induction false} KeepByCircleAppend(a: seq<Coin>, ca: seq<Circle>, b: seq<Coin>, cb: seq<Circle>,
                                              removeBelowY: real)
    requires |a| == |ca| && |b| == |cb|
    ensures KeepByCircle(a + b, ca + cb, removeBelowY)
         == KeepByCircle(a, ca, removeBelowY) + KeepByCircle(b, cb, removeBelowY)
  {
    if a != [] {
      assert (a + b)[1..] == a[1..] + b;
      assert (ca + cb)[1..] == ca[1..] + cb;
      KeepByCircleAppend(a[1..], ca[1..], b, cb, removeBelowY);
    } else {
      assert a + b == b && ca + cb == cb;
    }
  }

  /** The coins kept by one pass, with their circles: what a second pass sees. */
  lemma {:induction false} KeepByCircleIdempotent(cs: seq<Coin>, circles: seq<Circle>, removeBelowY: real)
    requires |cs| == |circles|
    requires forall k :: 0 <= k < |cs| ==> circles[k] == cs[k].circle
    ensures var kept := KeepByCircle(cs, circles, removeBelowY);
      KeepByCircle(kept, Circles(kept), removeBelowY) == kept
  {
    if cs != [] {
      KeepByCircleIdempotent(cs[1..], circles[1..], removeBelowY);
      var rest := KeepByCircle(cs[1..], circles[1..], removeBelowY);
      if Dropped(circles[0], removeBelowY) {
        assert KeepByCircle(cs, circles, removeBelowY) == [] + rest == rest;
      } else {
        var kept := [cs[0]] + rest;
        assert kept[1..] == rest;
        assert Circles(kept)[1..] == Circles(rest);
      }
    }
  }

  lemma KeepCoinsIdempotent(cs: seq<Coin>, removeBelowY: real)
    ensures KeepCoins(KeepCoins(cs, removeBelowY), removeBelowY) == KeepCoins(cs, removeBelowY)
  {
    KeepByCircleIdempotent(cs, Circles(cs), removeBelowY);
  }

  /**
   * The world the generator keeps: origin is 0 (before init) or 140; the platforms go bottom to
   * top, all below the frontier reached after `steps` steps. The ground may only come first, and
   * only once init has run; every other platform is a spawned one, and the spawned platforms sit
   * on consecutive steps ending just below the frontier: with d platforms from index i to the
   * end, platform i was spawned at step steps - d. While the ground is kept, so is every step
   * from the first one on.
   */
  ghost predicate WorldInvariant(ps: seq<Rect>, origin: real, steps: nat)
  {
    && (origin == 0.0 || origin == InitialFrontier)
    && AscendingY(ps)
    && (|ps| > 0 && ps[0] == Ground ==> |ps| == steps + 1)
    && forall i :: 0 <= i < |ps| ==> Placed(ps, i, origin, steps)
  }

  /** Platform i of ps is where the world invariant wants it. */
  ghost predicate Placed(ps: seq<Rect>, i: nat, origin: real, steps: nat)
    requires i < |ps|
  {
    && ps[i].y < Frontier(origin, steps)
    && (ps[i] == Ground ==> i == 0 && origin == InitialFrontier)
    && (ps[i] != Ground ==>
          && Spawnable(ps[i]) && |ps| - i <= steps
          && ps[i].y == Frontier(origin, steps - (|ps| - i)))
  }

  /**
   * What the invariant says about neighbours: two consecutive spawned platforms are one step
   * apart, and the topmost, if spawned, sits one step below the frontier.
   */
  lemma WorldLayout(ps: seq<Rect>, origin: real, steps: nat)
    requires WorldInvariant(ps, origin, steps)
    ensures forall i :: 0 <= i < |ps| - 1 && ps[i] != Ground ==> ps[i + 1].y == ps[i].y + PlatformStepY
    ensures |ps| > 0 && ps[|ps| - 1] != Ground ==>
      steps > 0 && ps[|ps| - 1].y == Frontier(origin, steps - 1)
  {
    forall i | 0 <= i < |ps| - 1 && ps[i] != Ground
      ensures ps[i + 1].y == ps[i].y + PlatformStepY
    {
      assert Placed(ps, i, origin, steps) && Placed(ps, i + 1, origin, steps);
      assert steps - (|ps| - (i + 1)) == steps - (|ps| - i) + 1;
    }
    if |ps| > 0 {
      assert Placed(ps, |ps| - 1, origin, steps);
    }
  }

  /** A run with a missing step is no world the generator produces. */
  lemma GapIsNoWorld()
    ensures !WorldInvariant([Rect(20.0, 140.0, 120.0, 18.0), Rect(20.0, 380.0, 120.0, 18.0)], InitialFrontier, 3)
  {
    var ps := [Rect(20.0, 140.0, 120.0, 18.0), Rect(20.0, 380.0, 120.0, 18.0)];
    assert Frontier(InitialFrontier, 1) == 260.0;
    assert !Placed(ps, 0, InitialFrontier, 3);
  }

  /** In a world, the tops ascend too: the ground's top is below every spawned platform. */
  lemma WorldTopsAscend(ps: seq<Rect>, origin: real, steps: nat)
    requires WorldInvariant(ps, origin, steps)
    ensures AscendingTops(ps)
  {
    forall i, j | 0 <= i < j < |ps|
      ensures ps[i].Top() < ps[j].Top()
    {
      assert Placed(ps, i, origin, steps) && Placed(ps, j, origin, steps);
      if ps[i] == Ground {
        FrontierAbove(origin, steps - (|ps| - j));
      }
    }
  }

  /** The world init starts from: the ground alone, no step taken. */
  lemma GroundIsWorld()
    ensures WorldInvariant([Ground], InitialFrontier, 0)
  {
    assert Placed([Ground], 0, InitialFrontier, 0);
  }

  /** The initial cushion: from 140, thirteen steps reach two world heights, ending at 1700. */
  lemma CushionSteps()
    ensures StepsTo(InitialFrontier, WorldHeight * 2.0) == CushionPlatforms
    ensures Frontier(InitialFrontier, CushionPlatforms) == 1700.0
  {
    FrontierClosedForm(InitialFrontier, CushionPlatforms - 1);
    FrontierClosedForm(InitialFrontier, CushionPlatforms);
    StepsToExact(InitialFrontier, WorldHeight * 2.0, CushionPlatforms);
  }

  /** Spawning at the frontier and advancing it by one step keeps the invariant. */
  lemma SpawnKeepsWorldInvariant(ps: seq<Rect>, origin: real, steps: nat, c: Choice)
    requires WorldInvariant(ps, origin, steps)
    requires SpawnMinX <= c.x <= SpawnMaxX
    ensures WorldInvariant(ps + [Spawned(Frontier(origin, steps), c)], origin, steps + 1)
  {
    var top := Spawned(Frontier(origin, steps), c);
    var ps', steps' := ps + [top], steps + 1;
    assert top != Ground;
    forall i | 0 <= i < |ps'|
      ensures Placed(ps', i, origin, steps')
    {
      if i < |ps| {
        assert Placed(ps, i, origin, steps);
        assert ps'[i] == ps[i];
        assert ps[i].y < Frontier(origin, steps) < Frontier(origin, steps');
        assert steps' - (|ps'| - i) == steps - (|ps| - i);
      }
    }
    forall i, j | 0 <= i < j < |ps'|
      ensures ps'[i].y < ps'[j].y
    {
      assert Placed(ps, i, origin, steps);
    }
  }

  /** Spawning a whole row of n platforms from the frontier keeps the invariant, n steps on. */
  lemma {:induction false} RowKeepsWorldInvariant(ps: seq<Rect>, origin: real, steps: nat, y: real, n: nat, choose: nat -> Choice)
    requires WorldInvariant(ps, origin, steps) && ValidOracle(choose)
    requires y == Frontier(origin, steps)
    ensures WorldInvariant(ps + Row(y, n, choose), origin, steps + n)
  {
    if n > 0 {
      RowKeepsWorldInvariant(ps, origin, steps, y, n - 1, choose);
      var prev, c := ps + Row(y, n - 1, choose), choose(n - 1);
      FrontierAdd(origin, steps, n - 1);
      var top := Spawned(Frontier(origin, steps + (n - 1)), c);
      assert Row(y, n, choose) == Row(y, n - 1, choose) + [top];
      assert ps + Row(y, n, choose) == prev + [top];
      SpawnKeepsWorldInvariant(prev, origin, steps + (n - 1), c);
    } else {
      assert ps + Row(y, 0, choose) == ps;
    }
  }

  /** The platforms kept by cleanup are all those from some index on: the tops ascend. */
  lemma {:induction false} KeepPlatformsSuffix(ps: seq<Rect>, removeBelowY: real) returns (d: nat)
    requires AscendingTops(ps)
    ensures d <= |ps| && KeepPlatforms(ps, removeBelowY) == ps[d..]
  {
    if ps == [] {
      d := 0;
    } else if ps[0].Top() < removeBelowY {
      assert AscendingTops(ps[1..]);
      var d' := KeepPlatformsSuffix(ps[1..], removeBelowY);
      d := d' + 1;
      assert ps[1..][d'..] == ps[d..];
    } else {
      KeepAllAbove(ps, removeBelowY);
      d := 0;
    }
  }

  /** A list whose tops are all at or above the threshold is kept whole. */
  lemma {:induction false} KeepAllAbove(ps: seq<Rect>, removeBelowY: real)
    requires forall i :: 0 <= i < |ps| ==> ps[i].Top() >= removeBelowY
    ensures KeepPlatforms(ps, removeBelowY) == ps
  {
    if ps != [] {
      KeepAllAbove(ps[1..], removeBelowY);
      assert ps == [ps[0]] + ps[1..];
    }
  }

  /** Cleaning up keeps the invariant, whatever the threshold: it only drops a bottom run. */
  lemma CleanupKeepsWorldInvariant(ps: seq<Rect>, origin: real, steps: nat, removeBelowY: real)
    requires WorldInvariant(ps, origin, steps)
    ensures WorldInvariant(KeepPlatforms(ps, removeBelowY), origin, steps)
  {
    WorldTopsAscend(ps, origin, steps);
    var d := KeepPlatformsSuffix(ps, removeBelowY);
    var kept := ps[d..];
    forall i | 0 <= i < |kept|
      ensures Placed(kept, i, origin, steps)
    {
      assert Placed(ps, d + i, origin, steps);
      assert kept[i] == ps[d + i] && |kept| - i == |ps| - (d + i);
    }
    assert AscendingY(kept);
    if |kept| > 0 && kept[0] == Ground {
      assert Placed(ps, d, origin, steps);
      assert kept == ps;
    }
  }

  /** Facts about removing index i of s[..i + 1] + tail, the step of a backwards removal loop. */
  lemma SplitAt<T>(s: seq<T>, i: nat, tail: seq<T>)
    requires i < |s|
    ensures var whole := s[..i + 1] + tail;
      && whole[i] == s[i]
      && whole[..i] + whole[i + 1..] == s[..i] + tail
      && whole == s[..i] + ([s[i]] + tail)
    ensures s[i..][0] == s[i] && s[i..][1..] == s[i + 1..]
  {
    var whole := s[..i + 1] + tail;
    assert whole[..i] == s[..i];
    assert whole[i + 1..] == tail;
    assert s[..i + 1] == s[..i] + [s[i]];
  }

  class PlatformManager {
    var platforms: seq<Rect>
    var coins: seq<Coin>
    /** The height at which the next new platform will be placed. */
    var nextPlatformY: real

    /** The frontier the current run started from (0 before init, 140 after) and the steps since. */
    ghost var origin: real
    ghost var steps: nat

    /** The frontier is origin + 120·steps, and the platforms keep the world invariant. */
    ghost predicate Valid()
      reads this
    {
      nextPlatformY == Frontier(origin, steps) && WorldInvariant(platforms, origin, steps)
    }

    constructor ()
      ensures Valid()
      ensures platforms == [] && coins == [] && nextPlatformY == 0.0
    {
      platforms, coins, nextPlatformY := [], [], 0.0;
      origin, steps := 0.0, 0;
    }

    /**
     * Clears both lists, places the ground, and builds the initial cushion up to two world
     * heights: platforms at 140, 260, ..., 1580, leaving the frontier at 1700.
     */
    method Init(choose: nat -> Choice)
      requires ValidOracle(choose)
      modifies this
      ensures Valid() && origin == InitialFrontier
      ensures platforms == [Ground] + Row(InitialFrontier, CushionPlatforms, choose)
      ensures nextPlatformY == Frontier(InitialFrontier, CushionPlatforms) == 1700.0
      ensures |coins| == |CoinRow(InitialFrontier, CushionPlatforms, choose)|
      ensures forall i :: 0 <= i < |coins| ==> coins[i].circle == CoinRow(InitialFrontier, CushionPlatforms, choose)[i]
      ensures forall i :: 0 <= i < |coins| ==> fresh(coins[i])
    {
      PlaceGround();

      // the cushion loop is literally the loop of generateUpTo
      var targetFirstPlatformsY := WorldHeight * 2.0;
      CushionSteps();
      GenerateUpTo(targetFirstPlatformsY, choose);
    }

    /** The first part of init: both lists cleared, the frontier at 140, and the ground placed. */
    method PlaceGround()
      modifies this
      ensures Valid() && origin == InitialFrontier && steps == 0
      ensures platforms == [Ground] && coins == [] && nextPlatformY == InitialFrontier
    {
      platforms, coins, nextPlatformY := [], [], InitialFrontier;
      origin, steps := InitialFrontier, 0;

      platforms := platforms + [Ground];
      assert platforms == [Ground];
      GroundIsWorld();
    }

    /** Appends the platform for height y and, if the draw says so, a coin over it. */
    method CreatePlatformWithOptionalCoin(y: real, c: Choice)
      modifies this
      ensures platforms == old(platforms) + [Spawned(y, c)]
      ensures !c.withCoin ==> coins == old(coins)
      ensures c.withCoin ==>
        && |coins| == |old(coins)| + 1 && coins[..|old(coins)|] == old(coins)
        && coins[|old(coins)|].circle == CoinOver(Spawned(y, c))
      ensures forall i :: |old(coins)| <= i < |coins| ==> fresh(coins[i])
      ensures nextPlatformY == old(nextPlatformY) && origin == old(origin) && steps == old(steps)
    {
      var x := c.x;
      var p := Rect(x, y, PlatformWidth, PlatformHeight);
      platforms := platforms + [p];

      if c.withCoin {
        var cx := p.x + p.width / 2.0;
        var cy := p.y + p.height + CoinLift;
        var coin := new Coin(cx, cy, CoinRadius);
        coins := coins + [coin];
        assert coins[..|coins| - 1] == old(coins);
      }
    }

    /**
     * Spawns one platform per step at the frontier until the frontier reaches targetY. The old
     * lists are prefixes of the new ones; a target already covered changes nothing.
     */
    method GenerateUpTo(targetY: real, choose: nat -> Choice)
      requires Valid() && ValidOracle(choose)
      modifies this
      ensures Valid() && origin == old(origin)
      ensures var n := StepsTo(old(nextPlatformY), targetY);
        && nextPlatformY == Frontier(old(nextPlatformY), n)
        && steps == old(steps) + n
        && platforms == old(platforms) + Row(old(nextPlatformY), n, choose)
        && var row := CoinRow(old(nextPlatformY), n, choose);
        && |coins| == |old(coins)| + |row| && coins[..|old(coins)|] == old(coins)
        && forall i :: 0 <= i < |row| ==> coins[|old(coins)| + i].circle == row[i]
      ensures forall i :: |old(coins)| <= i < |coins| ==> fresh(coins[i])
    {
      ghost var ps0 := platforms;
      SpawnUpTo(targetY, choose);
      RowKeepsValid(ps0, old(steps), old(nextPlatformY), StepsTo(old(nextPlatformY), targetY), choose);
    }

    /** The loop of generateUpTo: what it appends, with the frontier and step count it leaves. */
    method SpawnUpTo(targetY: real, choose: nat -> Choice)
      requires nextPlatformY == Frontier(origin, steps)
      modifies this
      ensures origin == old(origin)
      ensures var n := StepsTo(old(nextPlatformY), targetY);
        && nextPlatformY == Frontier(old(nextPlatformY), n) == Frontier(origin, steps)
        && steps == old(steps) + n
        && platforms == old(platforms) + Row(old(nextPlatformY), n, choose)
        && var row := CoinRow(old(nextPlatformY), n, choose);
        && |coins| == |old(coins)| + |row| && coins[..|old(coins)|] == old(coins)
        && forall i :: 0 <= i < |row| ==> coins[|old(coins)| + i].circle == row[i]
      ensures forall i :: |old(coins)| <= i < |coins| ==> fresh(coins[i])
    {
      ghost var y0, ps0, coins0 := nextPlatformY, platforms, coins;
      ghost var n := StepsTo(y0, targetY);
      var k: nat := 0;  // how many draws this call has taken from the random source
      while nextPlatformY < targetY
        invariant origin == old(origin)
        invariant nextPlatformY == Frontier(y0, k) == Frontier(origin, steps)
        invariant steps == old(steps) + k && k <= n
        invariant platforms == ps0 + Row(y0, k, choose)
        invariant |coins| == |coins0| + |CoinRow(y0, k, choose)| && coins[..|coins0|] == coins0
        invariant forall i :: 0 <= i < |CoinRow(y0, k, choose)| ==> coins[|coins0| + i].circle == CoinRow(y0, k, choose)[i]
        invariant forall i :: |coins0| <= i < |coins| ==> fresh(coins[i])
        decreases n - k
      {
        BelowTarget(y0, targetY, k);
        CreatePlatformWithOptionalCoin(nextPlatformY, choose(k));
        nextPlatformY, steps, k := nextPlatformY + PlatformStepY, steps + 1, k + 1;
      }
      BelowTarget(y0, targetY, k);
    }

    /** The state a run of spawns leaves behind is valid again. */
    lemma RowKeepsValid(ps0: seq<Rect>, steps0: nat, y0: real, k: nat, choose: nat -> Choice)
      requires ValidOracle(choose) && WorldInvariant(ps0, origin, steps0) && y0 == Frontier(origin, steps0)
      requires platforms == ps0 + Row(y0, k, choose) && steps == steps0 + k
      requires nextPlatformY == Frontier(origin, steps)
      ensures Valid()
    {
      RowKeepsWorldInvariant(ps0, origin, steps0, y0, k, choose);
    }

    /**
     * Removes every platform whose top is below removeBelowY and every coin that is collected or
     * whose top is below it, walking each list backwards. The frontier is not touched.
     */
    method CleanupBelow(removeBelowY: real)
      requires Valid()
      modifies this
      ensures Valid()
      ensures platforms == KeepPlatforms(old(platforms), removeBelowY)
      ensures coins == old(KeepCoins(coins, removeBelowY))
      ensures nextPlatformY == old(nextPlatformY) && origin == old(origin) && steps == old(steps)
    {
      CleanupKeepsWorldInvariant(platforms, origin, steps, removeBelowY);
      RemovePlatformsBelow(removeBelowY);
      RemoveCoinsBelow(removeBelowY);
    }

    /** The first loop of cleanupBelow. */
    method RemovePlatformsBelow(removeBelowY: real)
      modifies this
      ensures platforms == KeepPlatforms(old(platforms), removeBelowY)
      ensures coins == old(coins)
      ensures nextPlatformY == old(nextPlatformY) && origin == old(origin) && steps == old(steps)
    {
      ghost var ps := platforms;
      var i := |platforms| - 1;
      while i >= 0
        invariant -1 <= i < |ps|
        invariant platforms == ps[..i + 1] + KeepPlatforms(ps[i + 1..], removeBelowY)
        invariant coins == old(coins)
        invariant nextPlatformY == old(nextPlatformY) && origin == old(origin) && steps == old(steps)
      {
        SplitAt(ps, i, KeepPlatforms(ps[i + 1..], removeBelowY));
        var p := platforms[i];
        if p.y + p.height < removeBelowY {
          platforms := platforms[..i] + platforms[i + 1..];
        }
        i := i - 1;
      }
      assert ps[0..] == ps;
    }

    /** The second loop of cleanupBelow. */
    method RemoveCoinsBelow(removeBelowY: real)
      modifies this
      ensures coins == old(KeepCoins(coins, removeBelowY))
      ensures platforms == old(platforms)
      ensures nextPlatformY == old(nextPlatformY) && origin == old(origin) && steps == old(steps)
    {
      ghost var cs, circles := coins, Circles(coins);
      var i := |coins| - 1;
      while i >= 0
        invariant -1 <= i < |cs|
        invariant coins == cs[..i + 1] + KeepByCircle(cs[i + 1..], circles[i + 1..], removeBelowY)
        invariant platforms == old(platforms)
        invariant nextPlatformY == old(nextPlatformY) && origin == old(origin) && steps == old(steps)
      {
        ghost var tail := KeepByCircle(cs[i + 1..], circles[i + 1..], removeBelowY);
        SplitAt(cs, i, tail);
        KeepByCircleAt(cs, circles, i, removeBelowY);
        var c := coins[i];
        assert c.circle == circles[i];
        if c.IsCollected() || c.circle.y + c.circle.radius < removeBelowY {
          coins := coins[..i] + coins[i + 1..];
          assert coins == cs[..i] + tail;
        } else {
          assert coins == cs[..i] + ([cs[i]] + tail);
        }
        i := i - 1;
      }
      assert cs[0..] == cs && circles[0..] == circles;
    }
  }
}
