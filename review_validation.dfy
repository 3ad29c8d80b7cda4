/** The request-body schemas of the review routes. The list of product types the
    create schema accepts is defined in a constants file that is not part of this
    model, so it is a parameter here. */
module ReviewValidation {
  import opened Common
  import opened ReviewService

  datatype CreateReviewBody = CreateReviewBody(
    user: Option<UserId>,
    product: Option<ProductId>,
    productType: Option<string>,
    rating: Option<real>,
    comment: Option<string>)

  datatype UpdateReviewBody = UpdateReviewBody(rating: Option<real>, comment: Option<string>)

  /** `createReviewZodSchema`: user, product, an allowed type and a rating from 1
      to 5 are required; the comment is optional. */
  predicate CreateReviewValid(b: CreateReviewBody, allowedTypes: set<string>) {
    && b.user.Some? && b.product.Some?
    && b.productType.Some? && b.productType.value in allowedTypes
    && b.rating.Some? && RatingInRange(b.rating.value)
  }

  /** `updateReviewZodSchema`: both fields optional; a rating that is present is from 1 to 5. */
  predicate UpdateReviewValid(b: UpdateReviewBody) {
    b.rating.Some? ==> RatingInRange(b.rating.value)
  }

  function ToReviewData(b: CreateReviewBody, allowedTypes: set<string>): (d: ReviewData)
    requires CreateReviewValid(b, allowedTypes)
    ensures d.user == b.user.value && d.product == b.product.value && d.productType == b.productType.value
    ensures d.rating == b.rating.value && d.comment == b.comment
  {
    ReviewData(b.user.value, b.product.value, b.productType.value, b.rating.value, b.comment)
  }

  function ToPatch(b: UpdateReviewBody): (p: ReviewPatch)
    ensures p.rating == b.rating && p.comment == b.comment
  {
    ReviewPatch(b.rating, b.comment)
  }

  /** The comment never decides validity, in either schema. */
  lemma CommentIrrelevant(b: CreateReviewBody, u: UpdateReviewBody, c: Option<string>, allowedTypes: set<string>)
    ensures CreateReviewValid(b, allowedTypes) == CreateReviewValid(b.(comment := c), allowedTypes)
    ensures UpdateReviewValid(u) == UpdateReviewValid(u.(comment := c))
  {
  }

  /** Rating and comment of a valid create body also form a valid update body. */
  lemma CreateImpliesUpdate(b: CreateReviewBody, allowedTypes: set<string>)
    requires CreateReviewValid(b, allowedTypes)
    ensures UpdateReviewValid(UpdateReviewBody(b.rating, b.comment))
  {
  }

  /** When the allowed types are among "tire" and "wheel", a body the schema
      accepts is a review the table stores (unless already reviewed); a type the
      schema allows beyond those two fails at save. */
  lemma CreateBodyStores(b: CreateReviewBody, allowedTypes: set<string>, id: Id)
    requires CreateReviewValid(b, allowedTypes)
    ensures var d := ToReviewData(b, allowedTypes);
      (ReviewValid(Review(id, d.user, d.product, d.productType, d.rating, d.comment))
       <==> (b.productType.value == "tire" || b.productType.value == "wheel"))
  {
  }

  /** A validated patch keeps every rating in range. */
  lemma PatchKeepsRating(r: Review, b: UpdateReviewBody)
    requires RatingInRange(r.rating)
    requires UpdateReviewValid(b)
    ensures RatingInRange(Patched(r, ToPatch(b)).rating)
  {
  }
}
