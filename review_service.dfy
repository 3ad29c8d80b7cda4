/** The review table: at most one review per (user, product, product type), edited
    and deleted only by its author, listed per product newest first. */
module ReviewService {
  import opened Common

  datatype Review = Review(
    id: Id,
    user: UserId,
    product: ProductId,
    productType: string,
    rating: real,
    comment: Option<string>)

  predicate RatingInRange(r: real) {
    1.0 <= r <= 5.0
  }

  /** The review schema: type "tire" or "wheel", rating from 1 to 5. */
  predicate ReviewValid(r: Review) {
    (r.productType == "tire" || r.productType == "wheel") && RatingInRange(r.rating)
  }

  predicate SameSubject(a: Review, user: UserId, product: ProductId, productType: string) {
    a.user == user && a.product == product && a.productType == productType
  }

  /** Creation order: ids strictly increase along the table. */
  predicate IdsIncreasing(rs: seq<Review>) {
    forall i, j :: 0 <= i < j < |rs| ==> rs[i].id < rs[j].id
  }

  predicate IdsDecreasing(rs: seq<Review>) {
    forall i, j :: 0 <= i < j < |rs| ==> rs[i].id > rs[j].id
  }

  predicate SubjectsUnique(rs: seq<Review>) {
    forall i, j :: 0 <= i < j < |rs| ==> !SameSubject(rs[j], rs[i].user, rs[i].product, rs[i].productType)
  }

  /** `Review.findOne({user, product, productType})` finds something. */
  predicate Reviewed(rs: seq<Review>, user: UserId, product: ProductId, productType: string) {
    exists i :: 0 <= i < |rs| && SameSubject(rs[i], user, product, productType)
  }

  /** `Review.findById(id)`: the position of the review with that id, if any. */
  function IndexOf(rs: seq<Review>, id: Id): (k: int)
    ensures -1 <= k < |rs|
    ensures k >= 0 ==> rs[k].id == id
    ensures k == -1 <==> forall i :: 0 <= i < |rs| ==> rs[i].id != id
  {
    if rs == [] then -1
    else if rs[|rs| - 1].id == id then |rs| - 1
    else IndexOf(rs[..|rs| - 1], id)
  }

  /** `Review.find({product, productType}).sort({createdAt: -1})`: the matching
      reviews, latest created first. */
  function NewestFirst(rs: seq<Review>, product: ProductId, productType: string): (r: seq<Review>)
    ensures forall x :: x in r <==> x in rs && x.product == product && x.productType == productType
    ensures |r| <= |rs|
  {
    if rs == [] then []
    else
      var last := rs[|rs| - 1];
      var older := NewestFirst(rs[..|rs| - 1], product, productType);
      if last.product == product && last.productType == productType then [last] + older else older
  }

  /** In a table kept in creation order, the listing is strictly newest first. */
  lemma {:induction false} NewestFirstDecreasing(rs: seq<Review>, product: ProductId, productType: string)
    requires IdsIncreasing(rs)
    ensures IdsDecreasing(NewestFirst(rs, product, productType))
  {
    if rs != [] {
      var n := |rs| - 1;
      var prefix, last := rs[..n], rs[n];
      PrefixBelowLast(rs, n);
      NewestFirstDecreasing(prefix, product, productType);
      if last.product == product && last.productType == productType {
        var older := NewestFirst(prefix, product, productType);
        NewestFirstBelow(prefix, product, productType, last.id);
        PrependDecreasing(last, older);
      }
    }
  }

  /** Dropping the newest review keeps creation order, and every review before it is older. */
  lemma PrefixBelowLast(rs: seq<Review>, n: nat)
    requires n == |rs| - 1 && IdsIncreasing(rs)
    ensures IdsIncreasing(rs[..n])
    ensures forall i :: 0 <= i < n ==> rs[..n][i].id < rs[n].id
  {
  }

  /** A bound on every id of the table bounds every id of a listing. */
  lemma NewestFirstBelow(rs: seq<Review>, product: ProductId, productType: string, bound: Id)
    requires forall i :: 0 <= i < |rs| ==> rs[i].id < bound
    ensures forall x :: x in NewestFirst(rs, product, productType) ==> x.id < bound
  {
    forall x | x in NewestFirst(rs, product, productType) ensures x.id < bound {
      var k :| 0 <= k < |rs| && rs[k] == x;
    }
  }

  /** A review newer than all of a newest-first listing can go in front of it. */
  lemma PrependDecreasing(x: Review, s: seq<Review>)
    requires IdsDecreasing(s)
    requires forall y :: y in s ==> y.id < x.id
    ensures IdsDecreasing([x] + s)
  {
    var r := [x] + s;
    forall i, j | 0 <= i < j < |r| ensures r[i].id > r[j].id {
      assert r[j] == s[j - 1];
      if i > 0 {
        assert r[i] == s[i - 1];
      } else {
        assert s[j - 1] in s;
      }
    }
  }

  /** `findByIdAndDelete` on the review at position `k`: the others keep their
      order, so ids still increase and subjects stay unique, and exactly the
      review with that id is gone. */
  lemma DeleteAtPreserves(rs: seq<Review>, k: nat)
    requires k < |rs| && IdsIncreasing(rs) && SubjectsUnique(rs)
    ensures |rs[..k] + rs[k + 1..]| == |rs| - 1
    ensures IdsIncreasing(rs[..k] + rs[k + 1..]) && SubjectsUnique(rs[..k] + rs[k + 1..])
    ensures forall x :: x in rs[..k] + rs[k + 1..] <==> x in rs && x.id != rs[k].id
  {
    DeleteAtKeepsOrder(rs, k);
    DeleteAtKeepsOthers(rs, k);
    DeleteAtRemovesId(rs, k);
  }

  lemma DeleteAtKeepsOrder(rs: seq<Review>, k: nat)
    requires k < |rs| && IdsIncreasing(rs) && SubjectsUnique(rs)
    ensures IdsIncreasing(rs[..k] + rs[k + 1..]) && SubjectsUnique(rs[..k] + rs[k + 1..])
  {
    var r := rs[..k] + rs[k + 1..];
    forall i, j | 0 <= i < j < |r|
      ensures r[i].id < r[j].id
      ensures !SameSubject(r[j], r[i].user, r[i].product, r[i].productType)
    {
      var a, b := Skip(i, k), Skip(j, k);
      assert r[i] == rs[a] && r[j] == rs[b];
    }
  }

  lemma DeleteAtKeepsOthers(rs: seq<Review>, k: nat)
    requires k < |rs|
    ensures forall x :: x in rs && x.id != rs[k].id ==> x in rs[..k] + rs[k + 1..]
  {
    var r := rs[..k] + rs[k + 1..];
    forall x | x in rs && x.id != rs[k].id ensures x in r {
      var m :| 0 <= m < |rs| && rs[m] == x;
      assert r[if m < k then m else m - 1] == x;
    }
  }

  lemma DeleteAtRemovesId(rs: seq<Review>, k: nat)
    requires k < |rs| && IdsIncreasing(rs)
    ensures forall x :: x in rs[..k] + rs[k + 1..] ==> x in rs && x.id != rs[k].id
  {
    var r := rs[..k] + rs[k + 1..];
    forall x | x in r ensures x in rs && x.id != rs[k].id {
      var m :| 0 <= m < |r| && r[m] == x;
      assert r[m] == rs[Skip(m, k)];
    }
  }

  /** The position in the whole table of position `i` once position `k` is left out. */
  function Skip(i: nat, k: nat): (m: nat)
    ensures m != k && (m < k <==> i < k)
  {
    if i < k then i else i + 1
  }

  /** The fields `updateReview` may change. */
  datatype ReviewPatch = ReviewPatch(rating: Option<real>, comment: Option<string>)

  function Patched(r: Review, p: ReviewPatch): (q: Review)
    ensures q.id == r.id && q.user == r.user && q.product == r.product && q.productType == r.productType
    ensures q.rating == (if p.rating.Some? then p.rating.value else r.rating)
    ensures q.comment == (if p.comment.Some? then p.comment else r.comment)
  {
    r.(rating := if p.rating.Some? then p.rating.value else r.rating,
       comment := if p.comment.Some? then p.comment else r.comment)
  }

  /** The Mongoose `Review` model, kept in creation order. */
  class ReviewTable {
    var reviews: seq<Review>
    var nextId: Id

    ghost predicate Valid()
      reads this
    {
      && IdsIncreasing(reviews)
      && SubjectsUnique(reviews)
      && (forall i :: 0 <= i < |reviews| ==> reviews[i].id < nextId)
      && (forall i :: 0 <= i < |reviews| ==> reviews[i].productType == "tire" || reviews[i].productType == "wheel")
    }

    constructor ()
      ensures Valid() && reviews == [] && nextId == 0
    {
      reviews := [];
      nextId := 0;
    }
  }

  /** Every stored rating is between 1 and 5. Writes through `findOneAndUpdate`
      skip the validators, so this holds only while every patch was validated. */
  predicate RatingsInRange(rs: seq<Review>) {
    forall i :: 0 <= i < |rs| ==> RatingInRange(rs[i].rating)
  }

  /** The body of `createReview`. */
  datatype ReviewData = ReviewData(
    user: UserId, product: ProductId, productType: string, rating: real, comment: Option<string>)

  /** `createReview`: refuses a second review of the same subject by the same user,
      then stores the review if the schema accepts it. */
  method CreateReview(t: ReviewTable, data: ReviewData) returns (r: Result<Review>)
    requires t.Valid()
    modifies t
    ensures t.Valid()
    ensures Reviewed(old(t.reviews), data.user, data.product, data.productType) ==>
      r == Err(AlreadyReviewed) && t.reviews == old(t.reviews)
    ensures !Reviewed(old(t.reviews), data.user, data.product, data.productType) ==>
      var created := Review(old(t.nextId), data.user, data.product, data.productType, data.rating, data.comment);
      if ReviewValid(created) then
        r == Ok(created) && t.reviews == old(t.reviews) + [created]
      else
        r == Err(SchemaViolation) && t.reviews == old(t.reviews)
    ensures RatingsInRange(old(t.reviews)) ==> RatingsInRange(t.reviews)
  {
    if exists i :: 0 <= i < |t.reviews| && SameSubject(t.reviews[i], data.user, data.product, data.productType) {
      return Err(AlreadyReviewed);
    }
    var created := Review(t.nextId, data.user, data.product, data.productType, data.rating, data.comment);
    if !ReviewValid(created) {
      return Err(SchemaViolation);
    }
    t.reviews := t.reviews + [created];
    t.nextId := t.nextId + 1;
    r := Ok(created);
  }

  /** `updateReview`: "Review not found", or FORBIDDEN for anyone but the author;
      otherwise only the patched fields change. */
  method UpdateReview(t: ReviewTable, id: Id, patch: ReviewPatch, userId: UserId) returns (r: Result<Review>)
    requires t.Valid()
    modifies t
    ensures t.Valid()
    ensures IndexOf(old(t.reviews), id) == -1 ==> r == Err(ReviewNotFound) && t.reviews == old(t.reviews)
    ensures IndexOf(old(t.reviews), id) >= 0 ==>
      var k := IndexOf(old(t.reviews), id);
      if old(t.reviews)[k].user != userId then
        r == Err(NotReviewOwner) && t.reviews == old(t.reviews)
      else
        r == Ok(Patched(old(t.reviews)[k], patch)) && t.reviews == old(t.reviews)[k := r.value]
    ensures RatingsInRange(old(t.reviews)) && (patch.rating.Some? ==> RatingInRange(patch.rating.value)) ==>
      RatingsInRange(t.reviews)
  {
    var k := IndexOf(t.reviews, id);
    if k == -1 {
      return Err(ReviewNotFound);
    }
    if t.reviews[k].user != userId {
      return Err(NotReviewOwner);
    }
    var updated := Patched(t.reviews[k], patch);
    t.reviews := t.reviews[k := updated];
    r := Ok(updated);
  }

  /** `deleteReview`: the same guards, then exactly that review is removed. */
  method DeleteReview(t: ReviewTable, id: Id, userId: UserId) returns (r: Result<Review>)
    requires t.Valid()
    modifies t
    ensures t.Valid()
    ensures IndexOf(old(t.reviews), id) == -1 ==> r == Err(ReviewNotFound) && t.reviews == old(t.reviews)
    ensures IndexOf(old(t.reviews), id) >= 0 ==>
      var k := IndexOf(old(t.reviews), id);
      if old(t.reviews)[k].user != userId then
        r == Err(NotReviewOwner) && t.reviews == old(t.reviews)
      else
        && r == Ok(old(t.reviews)[k])
        && t.reviews == old(t.reviews)[..k] + old(t.reviews)[k + 1..]
        && (forall x :: x in t.reviews <==> x in old(t.reviews) && x.id != id)
    ensures RatingsInRange(old(t.reviews)) ==> RatingsInRange(t.reviews)
  {
    var k := IndexOf(t.reviews, id);
    if k == -1 {
      return Err(ReviewNotFound);
    }
    if t.reviews[k].user != userId {
      return Err(NotReviewOwner);
    }
    r := Ok(t.reviews[k]);
    DeleteAtPreserves(t.reviews, k);
    t.reviews := t.reviews[..k] + t.reviews[k + 1..];
  }

  /** `getReviewsByProduct`. */
  method GetReviewsByProduct(t: ReviewTable, product: ProductId, productType: string) returns (r: seq<Review>)
    requires t.Valid()
    ensures forall x :: x in r <==> x in t.reviews && x.product == product && x.productType == productType
    ensures IdsDecreasing(r)
  {
    NewestFirstDecreasing(t.reviews, product, productType);
    r := NewestFirst(t.reviews, product, productType);
  }
}
