/** The ratings part of the Mongoose `Product` document and its
    `calculateAverageRating` method. */
module ProductModel {
  import opened Common

  /** One entry of `ratings`; only `value` is required by the schema. */
  datatype Rating = Rating(userId: Option<UserId>, value: real, review: Option<string>)

  /** The `reduce` over the ratings: the running sum of the values, first to last. */
  function SumRatings(rs: seq<Rating>): real {
    if rs == [] then 0.0 else SumRatings(rs[..|rs| - 1]) + rs[|rs| - 1].value
  }

  lemma {:induction false} SumAppend(a: seq<Rating>, b: seq<Rating>)
    ensures SumRatings(a + b) == SumRatings(a) + SumRatings(b)
    decreases |b|
  {
    if b == [] {
      assert a + b == a;
    } else {
      var n := |b| - 1;
      assert (a + b)[..|a + b| - 1] == a + b[..n];
      assert (a + b)[|a + b| - 1] == b[n];
      SumAppend(a, b[..n]);
    }
  }

  /** The sum, and so the average, does not depend on the order of the ratings. */
  lemma {:induction false} SumPermutation(a: seq<Rating>, b: seq<Rating>)
    requires multiset(a) == multiset(b)
    ensures SumRatings(a) == SumRatings(b)
    decreases |a|
  {
    if a == [] {
      assert |b| == |multiset(b)| == 0;
    } else {
      var n := |a| - 1;
      var x := a[n];
      assert a == a[..n] + [x];
      assert x in multiset(b);
      var k :| 0 <= k < |b| && b[k] == x;
      var rest := b[..k] + b[k + 1..];
      assert b == b[..k] + [x] + b[k + 1..];
      MultisetRemoveMatching(a, b, k);
      SumPermutation(a[..n], rest);
      SumAppend(a[..n], [x]);
      SumAppend(b[..k] + [x], b[k + 1..]);
      SumAppend(b[..k], [x]);
      SumAppend(b[..k], b[k + 1..]);
      assert [x][..0] == [];
    }
  }

  /** Values all between `lo` and `hi` sum to between `lo` and `hi` times their number. */
  lemma {:induction false} SumBounds(rs: seq<Rating>, lo: real, hi: real)
    requires forall i :: 0 <= i < |rs| ==> lo <= rs[i].value <= hi
    ensures lo * |rs| as real <= SumRatings(rs) <= hi * |rs| as real
  {
    if rs != [] {
      var n := |rs| - 1;
      SumBounds(rs[..n], lo, hi);
      assert lo <= rs[n].value <= hi;
      ScaleStep(lo, n);
      ScaleStep(hi, n);
    }
  }

  /** The average of values all between `lo` and `hi` is between them as well. */
  lemma AverageBounds(rs: seq<Rating>, lo: real, hi: real)
    requires rs != []
    requires forall i :: 0 <= i < |rs| ==> lo <= rs[i].value <= hi
    ensures lo <= SumRatings(rs) / |rs| as real <= hi
  {
    SumBounds(rs, lo, hi);
    QuotientBounds(SumRatings(rs), |rs| as real, lo, hi);
  }

  lemma ScaleStep(c: real, n: nat)
    ensures c * (n + 1) as real == c * n as real + c
  {
  }

  /** A total between `lo` and `hi` times a positive count has its quotient between `lo` and `hi`. */
  lemma QuotientBounds(total: real, n: real, lo: real, hi: real)
    requires n > 0.0 && lo * n <= total <= hi * n
    ensures lo <= total / n <= hi
  {
    assert lo * n / n == lo && hi * n / n == hi;
  }

  /** The rating fields of a product document. */
  class ProductDoc {
    var ratings: seq<Rating>
    var averageRating: real

    /** A new document: `averageRating` takes its default, 0. */
    constructor (ratings: seq<Rating>)
      ensures this.ratings == ratings && averageRating == 0.0
    {
      this.ratings := ratings;
      averageRating := 0.0;
    }

    /** `calculateAverageRating`: with ratings present, the average of their
        values; with none, the previous average stays. */
    method CalculateAverageRating()
      modifies this
      ensures ratings == old(ratings)
      ensures old(ratings) != [] ==> averageRating == SumRatings(ratings) / |ratings| as real
      ensures old(ratings) == [] ==> averageRating == old(averageRating)
    {
      if |ratings| > 0 {
        var total := SumRatings(ratings);
        averageRating := total / |ratings| as real;
      }
    }
  }

  /** The average `calculateAverageRating` stores does not depend on the order of the ratings. */
  lemma AverageOrderIndependent(a: seq<Rating>, b: seq<Rating>)
    requires a != [] && multiset(a) == multiset(b)
    ensures SumRatings(a) / |a| as real == SumRatings(b) / |b| as real
  {
    SumPermutation(a, b);
    assert |a| == |multiset(a)| == |multiset(b)| == |b|;
  }
}
