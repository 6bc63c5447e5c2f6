/** The clash test of the synthetic-data generator (generate.py:15-35): two centre-form
    boxes clash when their intersection exceeds 30% of the area of either box. */
module Overlap {
  import opened Boxes

  /** The fraction of either box's area the intersection must exceed (generate.py:30, 32). */
  const Threshold: real := 0.3

  /** np.clip(v, 0, None). */
  function ClipBelow(v: real): (r: real)
    ensures 0.0 <= r && (0.0 <= v ==> r == v) && (v <= 0.0 ==> r == 0.0)
  {
    if v < 0.0 then 0.0 else v
  }

  function Left(b: Box): real { b.x - b.w / 2.0 }
  function Right(b: Box): real { b.x + b.w / 2.0 }
  function Top(b: Box): real { b.y - b.h / 2.0 }
  function Bottom(b: Box): real { b.y + b.h / 2.0 }

  /** Width of the overlap of the two boxes' x ranges, clamped at 0 (generate.py:19-29). */
  function OverlapWidth(a: Box, b: Box): (r: real)
    ensures 0.0 <= r
  {
    ClipBelow(Min(Right(a), Right(b)) - Max(Left(a), Left(b)))
  }

  /** Height of the overlap of the two boxes' y ranges, clamped at 0. */
  function OverlapHeight(a: Box, b: Box): (r: real)
    ensures 0.0 <= r
  {
    ClipBelow(Min(Bottom(a), Bottom(b)) - Max(Top(a), Top(b)))
  }

  /** The intersection area of generate.py:29. */
  function Intersection(a: Box, b: Box): (r: real)
    ensures 0.0 <= r
  {
    OverlapWidth(a, b) * OverlapHeight(a, b)
  }

  /** numpy's `num / den > t`: for den = 0 the quotient is +inf when num > 0 (true)
      and nan or -inf otherwise (false). */
  predicate QuotientExceeds(num: real, den: real, t: real)
  {
    if den == 0.0 then num > 0.0 else num / den > t
  }

  /** overlaps(boxA, boxB) (generate.py:15-35). */
  predicate Overlaps(a: Box, b: Box)
  {
    var inter := Intersection(a, b);
    QuotientExceeds(inter, Area(a), Threshold) || QuotientExceeds(inter, Area(b), Threshold)
  }

  /** Both sides positive: a box with a positive area in the generator's sense. */
  predicate Proper(b: Box)
  {
    0.0 < b.w && 0.0 < b.h
  }

  /** The two boxes are apart along x or along y. */
  predicate Separated(a: Box, b: Box)
  {
    Right(a) <= Left(b) || Right(b) <= Left(a) || Bottom(a) <= Top(b) || Bottom(b) <= Top(a)
  }

  /** a lies inside b. */
  predicate Inside(a: Box, b: Box)
  {
    Left(b) <= Left(a) && Right(a) <= Right(b) && Top(b) <= Top(a) && Bottom(a) <= Bottom(b)
  }

  /** overlaps does not depend on the order of its arguments: the intersection is
      symmetric and it is tested against both areas. */
  lemma OverlapsSymmetric(a: Box, b: Box)
    ensures Overlaps(a, b) == Overlaps(b, a)
  {
    IntersectionSymmetric(a, b);
  }

  lemma IntersectionSymmetric(a: Box, b: Box)
    ensures Intersection(a, b) == Intersection(b, a)
  {
    assert Min(Right(a), Right(b)) == Min(Right(b), Right(a));
    assert Max(Left(a), Left(b)) == Max(Left(b), Left(a));
    assert Min(Bottom(a), Bottom(b)) == Min(Bottom(b), Bottom(a));
    assert Max(Top(a), Top(b)) == Max(Top(b), Top(a));
  }

  /** Boxes that are apart have no intersection and never clash. */
  lemma SeparatedNoOverlap(a: Box, b: Box)
    requires Proper(a) && Proper(b) && Separated(a, b)
    ensures Intersection(a, b) == 0.0
    ensures !Overlaps(a, b)
  {
    AreaPositive(a);
    AreaPositive(b);
    if Right(a) <= Left(b) || Right(b) <= Left(a) {
      assert OverlapWidth(a, b) == 0.0;
    } else {
      assert OverlapHeight(a, b) == 0.0;
    }
    ZeroQuotient(Area(a));
    ZeroQuotient(Area(b));
  }

  /** For proper boxes, overlaps holds exactly when the intersection exceeds 0.3 of
      the first box's area or 0.3 of the second's (strictly). */
  lemma OverlapsIff(a: Box, b: Box)
    requires Proper(a) && Proper(b)
    ensures Overlaps(a, b)
      <==> Intersection(a, b) > Threshold * Area(a) || Intersection(a, b) > Threshold * Area(b)
  {
    AreaPositive(a);
    AreaPositive(b);
    QuotientAbove(Intersection(a, b), Area(a), Threshold);
    QuotientAbove(Intersection(a, b), Area(b), Threshold);
  }

  /** A proper box clashes with itself. */
  lemma SelfOverlaps(a: Box)
    requires Proper(a)
    ensures Overlaps(a, a)
  {
    ContainedOverlaps(a, a);
  }

  /** A proper box inside another clashes with it, in either order: the intersection
      is the whole inner box, a ratio of 1 to its own area. */
  lemma ContainedOverlaps(a: Box, b: Box)
    requires Proper(a) && Inside(a, b)
    ensures Intersection(a, b) == Area(a)
    ensures Overlaps(a, b) && Overlaps(b, a)
  {
    assert OverlapWidth(a, b) == a.w;
    assert OverlapHeight(a, b) == a.h;
    AreaPositive(a);
    QuotientAbove(Area(a), Area(a), Threshold);
    OverlapsSymmetric(a, b);
  }

  lemma AreaPositive(b: Box)
    requires Proper(b)
    ensures 0.0 < Area(b)
  {
  }

  lemma ZeroQuotient(den: real)
    requires 0.0 < den
    ensures !QuotientExceeds(0.0, den, Threshold)
  {
  }

  /** Dividing by a positive denominator keeps the comparison. */
  lemma QuotientAbove(num: real, den: real, t: real)
    requires 0.0 < den
    ensures QuotientExceeds(num, den, t) <==> num > t * den
  {
    var q := num / den;
    assert num == q * den;
    if q > t {
      assert q * den > t * den;
    } else {
      assert q * den <= t * den;
    }
  }
}
