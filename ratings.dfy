/** Book.average_rating: the Bayesian ("smoothed") average rating of a book,
    computed from the integer ratings on the book's reviews.

    The reviews reach the computation as the sequence of their `rating`
    columns; the order of that sequence does not matter (see Permutation).
    Python's unbounded integers are Dafny's `int`; the float division is
    exact `real` division. */
module Ratings {

  /** Default confidence weight C: phantom prior-mean ratings added to every book. */
  const DefaultC: int := 5
  /** Default prior mean m. */
  const DefaultM: int := 3

  /** What average_rating hands back. */
  datatype AverageRating =
    | Degenerate(rates: int)   // the integer `rates` itself, returned when no rating is above 0
    | Smoothed(score: real)    // the float (C * m + stars) / (C + rates)
    | ZeroDivisionError        // the float division raised: C + rates == 0

  // ---------------------------------------------------------------------
  // The computation

  /** `stars`: the sum of every rating, zero and negative ones included, so
      its sign follows the ratings' signs. */
  function Stars(ratings: seq<int>): (s: int)
    ensures (forall i :: 0 <= i < |ratings| ==> ratings[i] >= 0) ==> s >= 0
    ensures (forall i :: 0 <= i < |ratings| ==> ratings[i] <= 0) ==> s <= 0
  {
    if ratings == [] then 0 else ratings[0] + Stars(ratings[1..])
  }

  /** The list built by the comprehension `if review.rating > 0`: the
      strictly positive ratings, in review order. */
  function Positives(ratings: seq<int>): (p: seq<int>)
    ensures |p| <= |ratings|
    ensures forall i :: 0 <= i < |p| ==> p[i] > 0
    ensures forall x :: x > 0 ==> multiset(p)[x] == multiset(ratings)[x]
  {
    if ratings == [] then []
    else
      assert ratings == [ratings[0]] + ratings[1..];
      if ratings[0] > 0 then [ratings[0]] + Positives(ratings[1..])
      else Positives(ratings[1..])
  }

  /** `rates`: how many reviews carry a rating strictly above 0. */
  function Rates(ratings: seq<int>): (n: nat)
    ensures n <= |ratings|
  {
    |Positives(ratings)|
  }

  /** The last two lines of average_rating, given `stars` and `rates`: the
      fallback when rates < 1, else the smoothed score, whose defining
      property is score * (C + rates) == C * m + stars. */
  function Smooth(stars: int, rates: int, C: int, m: int): (r: AverageRating)
    ensures r.Degenerate? <==> rates < 1
    ensures r.Degenerate? ==> r.rates == rates
    ensures r.ZeroDivisionError? <==> rates >= 1 && C + rates == 0
    ensures r.Smoothed? ==> r.score * (C as real + rates as real) == C as real * m as real + stars as real
  {
    if rates < 1 then Degenerate(rates)
    else if C + rates == 0 then ZeroDivisionError
    else
      var q, d := C as real * m as real + stars as real, C as real + rates as real;
      assert (q / d) * d == q;
      Smoothed(q / d)
  }

  /** average_rating(C, m) over the given ratings. */
  function AverageRatingOf(ratings: seq<int>, C: int, m: int): (r: AverageRating)
    ensures r.Degenerate? <==> forall i :: 0 <= i < |ratings| ==> ratings[i] <= 0
    ensures r.Degenerate? ==> r.rates == 0
    ensures r.ZeroDivisionError? ==> C < 0 && Rates(ratings) == -C
  {
    NoPositiveRatingIff(ratings);
    Smooth(Stars(ratings), Rates(ratings), C, m)
  }

  /** average_rating() with its default arguments C = 5 and m = 3: it never
      divides by zero. */
  function DefaultAverageRating(ratings: seq<int>): (r: AverageRating)
    ensures !r.ZeroDivisionError?
  {
    AverageRatingOf(ratings, DefaultC, DefaultM)
  }

  // ---------------------------------------------------------------------
  // `stars` and `rates`

  /** A book has no positively rated review exactly when `rates` is 0. */
  lemma {:induction false} NoPositiveRatingIff(ratings: seq<int>)
    ensures Rates(ratings) == 0 <==> forall i :: 0 <= i < |ratings| ==> ratings[i] <= 0
  {
    var p := Positives(ratings);
    if p != [] {
      assert multiset(p)[p[0]] > 0;
      assert p[0] in multiset(ratings);
    } else {
      forall i | 0 <= i < |ratings|
        ensures ratings[i] <= 0
      {
        assert ratings[i] in multiset(ratings);
      }
    }
  }

  /** When every rating is positive, `rates` counts every review. */
  lemma {:induction false} AllPositiveRatesAll(ratings: seq<int>)
    requires forall i :: 0 <= i < |ratings| ==> ratings[i] > 0
    ensures Positives(ratings) == ratings
    ensures Rates(ratings) == |ratings|
  {
    if ratings != [] {
      AllPositiveRatesAll(ratings[1..]);
    }
  }

  /** `stars` of a concatenation is the sum of the parts' `stars`. */
  lemma {:induction false} StarsAppend(a: seq<int>, b: seq<int>)
    ensures Stars(a + b) == Stars(a) + Stars(b)
  {
    if a == [] {
      assert a + b == b;
    } else {
      assert (a + b)[1..] == a[1..] + b;
      StarsAppend(a[1..], b);
    }
  }

  /** The comprehension filters each part of a concatenation separately. */
  lemma {:induction false} PositivesAppend(a: seq<int>, b: seq<int>)
    ensures Positives(a + b) == Positives(a) + Positives(b)
  {
    if a == [] {
      assert a + b == b;
    } else {
      assert (a + b)[1..] == a[1..] + b;
      PositivesAppend(a[1..], b);
    }
  }

  /** One more review adds its rating to `stars`, whatever its sign, but
      adds to `rates` only when it is strictly positive. */
  lemma AppendReview(ratings: seq<int>, x: int)
    ensures Stars(ratings + [x]) == Stars(ratings) + x
    ensures Rates(ratings + [x]) == Rates(ratings) + (if x > 0 then 1 else 0)
  {
    StarsAppend(ratings, [x]);
    assert Stars([x]) == x + Stars([]);
    PositivesAppend(ratings, [x]);
    assert Positives([x]) == (if x > 0 then [x] else []) + Positives([]);
  }

  /** Taking out the review at index i takes exactly its rating out of `stars`. */
  lemma StarsRemove(s: seq<int>, i: int)
    requires 0 <= i < |s|
    ensures Stars(s) == Stars(s[..i] + s[i + 1..]) + s[i]
  {
    var pre, post := s[..i], s[i + 1..];
    var mid := [s[i]] + post;
    assert s == pre + mid;
    StarsAppend(pre, mid);
    assert mid[0] == s[i] && mid[1..] == post;
    assert Stars(mid) == s[i] + Stars(post);
    StarsAppend(pre, post);
  }

  /** `stars` depends only on the multiset of ratings. */
  lemma {:induction false} StarsPermutation(a: seq<int>, b: seq<int>)
    requires multiset(a) == multiset(b)
    ensures Stars(a) == Stars(b)
  {
    if a != [] {
      assert a == [a[0]] + a[1..];
      assert a[0] in multiset(b);
      var i :| 0 <= i < |b| && b[i] == a[0];
      var rest := b[..i] + b[i + 1..];
      assert b == b[..i] + [b[i]] + b[i + 1..];
      assert multiset(rest) == multiset(b) - multiset{a[0]};
      StarsPermutation(a[1..], rest);
      StarsRemove(b, i);
    } else {
      assert |b| == |multiset(b)| == 0;
    }
  }

  /** `rates` depends only on the multiset of ratings. */
  lemma RatesPermutation(a: seq<int>, b: seq<int>)
    requires multiset(a) == multiset(b)
    ensures Rates(a) == Rates(b)
  {
    var pa, pb := Positives(a), Positives(b);
    forall x
      ensures multiset(pa)[x] == multiset(pb)[x]
    {
      if x <= 0 {
        assert x !in pa && x !in pb;
      }
    }
    assert multiset(pa) == multiset(pb);
    assert |pa| == |multiset(pa)| == |multiset(pb)| == |pb|;
  }

  /** `stars` of ratings that all lie in [lo, hi] lies in [|s| * lo, |s| * hi]. */
  lemma {:induction false} StarsBounds(ratings: seq<int>, lo: int, hi: int)
    requires forall i :: 0 <= i < |ratings| ==> lo <= ratings[i] <= hi
    ensures |ratings| * lo <= Stars(ratings) <= |ratings| * hi
  {
    if ratings != [] {
      StarsBounds(ratings[1..], lo, hi);
      MulSucc(|ratings| - 1, lo);
      MulSucc(|ratings| - 1, hi);
    }
  }

  /** (k + 1) * a == k * a + a. */
  lemma MulSucc(k: int, a: int)
    ensures (k + 1) * a == k * a + a
  {
  }

  // ---------------------------------------------------------------------
  // The rating

  /** Permuting the reviews leaves `stars`, `rates` and the rating unchanged. */
  lemma Permutation(a: seq<int>, b: seq<int>, C: int, m: int)
    requires multiset(a) == multiset(b)
    ensures Stars(a) == Stars(b) && Rates(a) == Rates(b)
    ensures AverageRatingOf(a, C, m) == AverageRatingOf(b, C, m)
  {
    StarsPermutation(a, b);
    RatesPermutation(a, b);
  }

  /** A book without reviews is rated 0. */
  lemma NoReviews(C: int, m: int)
    ensures AverageRatingOf([], C, m) == Degenerate(0)
  {
  }

  /** With no rating above 0 the result is the integer 0, however many
      reviews there are and whatever their ratings sum to. */
  lemma NothingRatedIsZero(ratings: seq<int>, C: int, m: int)
    requires forall i :: 0 <= i < |ratings| ==> ratings[i] <= 0
    ensures AverageRatingOf(ratings, C, m) == Degenerate(0)
  {
  }

  /** Once some rating is positive and C + rates is not 0, the result is
      exactly (C * m + stars) / (C + rates). */
  lemma SmoothedFormula(ratings: seq<int>, C: int, m: int)
    requires Rates(ratings) >= 1
    requires C + Rates(ratings) != 0
    ensures AverageRatingOf(ratings, C, m)
         == Smoothed((C as real * m as real + Stars(ratings) as real) / (C as real + Rates(ratings) as real))
  {
  }

  /** With no prior weight (C = 0) the smoothed rating is the raw
      `stars / rates`. */
  lemma NoPriorIsRawMean(ratings: seq<int>, m: int)
    requires Rates(ratings) >= 1
    ensures AverageRatingOf(ratings, 0, m)
         == Smoothed(Stars(ratings) as real / Rates(ratings) as real)
  {
  }

  /** When every rating is positive, `stars / rates` is the straight
      average of all the reviews. */
  lemma AllPositiveStraightAverage(ratings: seq<int>, m: int)
    requires ratings != []
    requires forall i :: 0 <= i < |ratings| ==> ratings[i] > 0
    ensures AverageRatingOf(ratings, 0, m)
         == Smoothed(Stars(ratings) as real / |ratings| as real)
  {
    AllPositiveRatesAll(ratings);
    NoPriorIsRawMean(ratings, m);
  }

  /** A review rated 0 changes nothing: it adds 0 to `stars` and nothing to `rates`. */
  lemma ZeroRatingIgnored(ratings: seq<int>, C: int, m: int)
    ensures AverageRatingOf(ratings + [0], C, m) == AverageRatingOf(ratings, C, m)
  {
    AppendReview(ratings, 0);
  }

  /** A negative rating lowers the numerator without adding to the
      denominator: the score moves by x / (C + rates), which is a drop of
      |x| / (C + rates) whenever C + rates > 0. */
  lemma NegativeRatingOnlyLowersNumerator(ratings: seq<int>, x: int, C: int, m: int)
    requires x < 0
    requires Rates(ratings) >= 1 && C + Rates(ratings) != 0
    ensures AverageRatingOf(ratings, C, m).Smoothed?
    ensures AverageRatingOf(ratings + [x], C, m).Smoothed?
    ensures AverageRatingOf(ratings + [x], C, m).score
         == AverageRatingOf(ratings, C, m).score + x as real / (C as real + Rates(ratings) as real)
    ensures C + Rates(ratings) > 0 ==>
              AverageRatingOf(ratings + [x], C, m).score < AverageRatingOf(ratings, C, m).score
  {
    AppendReview(ratings, x);
    SmoothExtraStars(Stars(ratings), Rates(ratings), x, C, m);
  }

  /** The smoothed rating is the average of the prior m (weight C) and the
      raw mean stars / rates (weight rates), so with C >= 0 it lies between
      the two. */
  lemma WeightedAverage(ratings: seq<int>, C: int, m: int)
    requires C >= 0 && Rates(ratings) >= 1
    ensures AverageRatingOf(ratings, C, m).Smoothed?
    ensures var v, mean := AverageRatingOf(ratings, C, m).score, Stars(ratings) as real / Rates(ratings) as real;
            && (m as real <= mean ==> m as real <= v <= mean)
            && (mean <= m as real ==> mean <= v <= m as real)
  {
    SmoothBetween(Stars(ratings), Rates(ratings), C, m);
  }

  /** On a rating scale [lo, hi] with lo > 0 and the prior m on that scale,
      the smoothed rating never leaves the scale; it stays strictly below hi
      while the prior is below hi and C > 0 (and symmetrically above lo). */
  lemma WithinRatingScale(ratings: seq<int>, lo: int, hi: int, C: int, m: int)
    requires 0 < lo && lo <= m <= hi && C >= 0
    requires ratings != []
    requires forall i :: 0 <= i < |ratings| ==> lo <= ratings[i] <= hi
    ensures AverageRatingOf(ratings, C, m).Smoothed?
    ensures lo as real <= AverageRatingOf(ratings, C, m).score <= hi as real
    ensures C > 0 && m < hi ==> AverageRatingOf(ratings, C, m).score < hi as real
    ensures C > 0 && lo < m ==> lo as real < AverageRatingOf(ratings, C, m).score
  {
    AllPositiveRatesAll(ratings);
    StarsBounds(ratings, lo, hi);
    SmoothOnScale(Stars(ratings), |ratings|, lo, hi, C, m);
  }

  /** Shrinkage: one more positive rating x moves the smoothed rating
      towards x, never past it. */
  lemma OneMoreRatingMovesToward(ratings: seq<int>, x: int, C: int, m: int)
    requires x > 0 && C + Rates(ratings) > 0 && Rates(ratings) >= 1
    ensures AverageRatingOf(ratings, C, m).Smoothed?
    ensures AverageRatingOf(ratings + [x], C, m).Smoothed?
    ensures var v, w := AverageRatingOf(ratings, C, m).score, AverageRatingOf(ratings + [x], C, m).score;
            && (v <= x as real ==> v <= w <= x as real)
            && (x as real <= v ==> x as real <= w <= v)
  {
    AppendReview(ratings, x);
    SmoothOneMore(Stars(ratings), Rates(ratings), x, C, m);
  }

  /** One 5-star review with the defaults: stars = 5, rates = 1, 20 / 6. */
  lemma OneFiveStarReview()
    ensures DefaultAverageRating([5]) == Smoothed(20.0 / 6.0)
  {
    assert Positives([5]) == [5];
  }

  /** Ratings 4 and 2 with the defaults: stars = 6, rates = 2, 21 / 7 = 3.0. */
  lemma FourAndTwo()
    ensures DefaultAverageRating([4, 2]) == Smoothed(3.0)
  {
    assert Positives([4, 2]) == [4, 2];
  }

  // ---------------------------------------------------------------------
  // The formula on `stars` and `rates`

  /** Extra stars x, with `rates` unchanged, move the score by x / (C + rates). */
  lemma SmoothExtraStars(stars: int, rates: int, x: int, C: int, m: int)
    requires rates >= 1 && C + rates != 0
    ensures Smooth(stars, rates, C, m).Smoothed? && Smooth(stars + x, rates, C, m).Smoothed?
    ensures Smooth(stars + x, rates, C, m).score
         == Smooth(stars, rates, C, m).score + x as real / (C as real + rates as real)
    ensures x < 0 && C + rates > 0 ==> Smooth(stars + x, rates, C, m).score < Smooth(stars, rates, C, m).score
  {
    var d := C as real + rates as real;
    var q := C as real * m as real + stars as real;
    assert (q + x as real) / d == q / d + x as real / d;
    if x < 0 && C + rates > 0 {
      assert x as real / d < 0.0;
    }
  }

  /** With C >= 0 the score lies between the prior m and stars / rates. */
  lemma SmoothBetween(stars: int, rates: int, C: int, m: int)
    requires C >= 0 && rates >= 1
    ensures Smooth(stars, rates, C, m).Smoothed?
    ensures var v, mean := Smooth(stars, rates, C, m).score, stars as real / rates as real;
            && (m as real <= mean ==> m as real <= v <= mean)
            && (mean <= m as real ==> mean <= v <= m as real)
  {
    var n, s := rates as real, stars as real;
    assert n * (s / n) == s;
    BetweenBounds(C as real, n, m as real, s / n, Smooth(stars, rates, C, m).score);
  }

  /** With stars within [rates * lo, rates * hi] and m within [lo, hi], the
      score lies within [lo, hi]. */
  lemma SmoothOnScale(stars: int, rates: int, lo: int, hi: int, C: int, m: int)
    requires C >= 0 && rates >= 1 && lo <= m <= hi
    requires rates * lo <= stars <= rates * hi
    ensures Smooth(stars, rates, C, m).Smoothed?
    ensures lo as real <= Smooth(stars, rates, C, m).score <= hi as real
    ensures C > 0 && m < hi ==> Smooth(stars, rates, C, m).score < hi as real
    ensures C > 0 && lo < m ==> lo as real < Smooth(stars, rates, C, m).score
  {
    var n := rates as real;
    assert (rates * lo) as real == n * lo as real && (rates * hi) as real == n * hi as real;
    ScaleBounds(C as real, m as real, n, stars as real, lo as real, hi as real,
                Smooth(stars, rates, C, m).score);
  }

  /** The arithmetic behind SmoothOnScale: v with v * (c + n) == c * mr + s,
      where mr and s / n lie in [lo, hi], lies in [lo, hi] too, strictly
      inside on the side where mr is and c > 0. */
  lemma ScaleBounds(c: real, mr: real, n: real, s: real, lo: real, hi: real, v: real)
    requires c >= 0.0 && n > 0.0
    requires lo <= mr <= hi && n * lo <= s <= n * hi
    requires v * (c + n) == c * mr + s
    ensures lo <= v <= hi
    ensures c > 0.0 && mr < hi ==> v < hi
    ensures c > 0.0 && lo < mr ==> lo < v
  {
    var d := c + n;
    var below, above := c * (mr - lo) + (s - n * lo), c * (hi - mr) + (n * hi - s);
    assert c * lo <= c * mr <= c * hi;
    assert (v - lo) * d == below;
    assert (hi - v) * d == above;
    if c > 0.0 && mr < hi {
      assert c * (hi - mr) > 0.0;
      assert above > 0.0;
    }
    if c > 0.0 && lo < mr {
      assert c * (mr - lo) > 0.0;
      assert below > 0.0;
    }
    SignOfProduct(v - lo, d);
    SignOfProduct(hi - v, d);
  }

  /** One more positive rating x: the new score lies between the old one and x. */
  lemma SmoothOneMore(stars: int, rates: int, x: int, C: int, m: int)
    requires C + rates > 0 && rates >= 1
    ensures Smooth(stars, rates, C, m).Smoothed? && Smooth(stars + x, rates + 1, C, m).Smoothed?
    ensures var v, w := Smooth(stars, rates, C, m).score, Smooth(stars + x, rates + 1, C, m).score;
            && (v <= x as real ==> v <= w <= x as real)
            && (x as real <= v ==> x as real <= w <= v)
  {
    var v, w := Smooth(stars, rates, C, m).score, Smooth(stars + x, rates + 1, C, m).score;
    var d := C as real + rates as real;
    assert w * (d + 1.0) == v * d + x as real;
    BetweenBounds(d, 1.0, v, x as real, w);
  }

  /** A weighted average of a (weight c >= 0) and b (weight n > 0) lies
      between them. */
  lemma BetweenBounds(c: real, n: real, a: real, b: real, v: real)
    requires c >= 0.0 && n > 0.0
    requires v * (c + n) == c * a + n * b
    ensures a <= b ==> a <= v <= b
    ensures b <= a ==> b <= v <= a
  {
    var d := c + n;
    assert (v - a) * d == n * (b - a);
    assert (b - v) * d == c * (b - a);
    if a <= b {
      assert n * (b - a) >= 0.0 && c * (b - a) >= 0.0;
    } else {
      assert n * (a - b) >= 0.0 && c * (a - b) >= 0.0;
    }
    SignOfProduct(v - a, d);
    SignOfProduct(b - v, d);
    SignOfProduct(a - v, d);
    SignOfProduct(v - b, d);
  }

  /** Multiplying by a positive d keeps the sign. */
  lemma SignOfProduct(x: real, d: real)
    requires d > 0.0
    ensures x * d >= 0.0 ==> x >= 0.0
    ensures x * d > 0.0 ==> x > 0.0
  {
  }
}
