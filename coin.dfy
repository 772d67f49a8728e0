/** Coin.java: a coin is a circle whose radius doubles as the "collected" flag. */
module Coins {
  import opened Shapes

  /** A radius of zero or less is the sentinel for "collected". */
  predicate CollectedCircle(c: Circle)
  {
    c.radius <= 0.0
  }

  /** The circle of a coin once collected: shrunk to radius 0 about the same centre. */
  function Collected(c: Circle): (r: Circle)
    ensures CollectedCircle(r)
    ensures r.x == c.x && r.y == c.y
    ensures r.radius == 0.0
  {
    c.(radius := 0.0)
  }

  /** Collecting twice is collecting once, and a circle collected with radius 0 is left as it is. */
  lemma CollectIdempotent(c: Circle)
    ensures Collected(Collected(c)) == Collected(c)
    ensures c.radius == 0.0 ==> Collected(c) == c
  {
  }

  class Coin {
    var circle: Circle

    constructor (x: real, y: real, radius: real)
      ensures circle == Circle(x, y, radius)
      ensures radius > 0.0 ==> !IsCollected()
      ensures radius <= 0.0 ==> IsCollected()
    {
      circle := Circle(x, y, radius);
    }

    predicate IsCollected()
      reads this
    {
      CollectedCircle(circle)
    }

    /** Marks the coin collected by shrinking it to radius 0; the centre stays. */
    method Collect()
      modifies this
      ensures IsCollected()
      ensures circle == Collected(old(circle))
    {
      circle := circle.(radius := 0.0);
    }
  }

  /** The circles of a list of coins, in list order. */
  function Circles(cs: seq<Coin>): (r: seq<Circle>)
    reads cs
    ensures |r| == |cs|
    ensures forall i :: 0 <= i < |cs| ==> r[i] == cs[i].circle
  {
    if cs == [] then [] else Circles(cs[..|cs| - 1]) + [cs[|cs| - 1].circle]
  }
}
