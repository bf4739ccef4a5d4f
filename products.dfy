/**
  The product rules of the product controller: the required-field check
  shared by `addProduct` and `updateProduct`, the product record those two
  handlers write, and the review handlers that keep a product's
  `numReviews` and `rating` in step with its list of reviews.
*/
module Products {
  import opened Catalog
  import opened Lists
  import Users

  // ---------------------------------------------------------------------
  // Required-field validation

  /** The fields of a product form, in the order the validation checks them. */
  datatype Field =
    | Name           // "Name is required"
    | Price          // "Price is required"
    | Quantity       // "Quantity is required"
    | Brand          // "Brand is required"
    | Description    // "Description is required"
    | CountInStock   // "Count In Stock is required"
    | Category       // "Category is required"

  /** Position of a field in the validation order. */
  function Rank(f: Field): (k: nat)
    ensures k < 7
  {
    match f
    case Name => 0
    case Price => 1
    case Quantity => 2
    case Brand => 3
    case Description => 4
    case CountInStock => 5
    case Category => 6
  }

  /**
    The body of an add or update request. Both routes parse a multipart
    form before the handler runs, so every field arrives as text: a text
    field that is absent or empty is the empty string, and a number field is
    `None` when it is absent or empty and otherwise the number its text
    denotes. Any non-empty text passes the `!field` test, so a `"0"` counts
    as given.
  */
  datatype ProductForm = ProductForm(
    name: string,
    description: string,
    brand: string,
    category: CategoryId,
    price: Option<nat>,
    quantity: Option<nat>,
    countInStock: Option<nat>)

  /** Whether a field passes the `!field` test. */
  predicate Given(form: ProductForm, f: Field) {
    match f
    case Name => form.name != ""
    case Price => form.price.Some?
    case Quantity => form.quantity.Some?
    case Brand => form.brand != ""
    case Description => form.description != ""
    case CountInStock => form.countInStock.Some?
    case Category => form.category != ""
  }

  /** The `switch (true)` of `addProduct` and `updateProduct`: the first field, in order, that is missing. */
  function FirstMissing(form: ProductForm): (r: Option<Field>)
    ensures r.None? ==> forall f: Field :: Given(form, f)
    ensures r.Some? ==> !Given(form, r.value)
    ensures r.Some? ==> forall f: Field :: Rank(f) < Rank(r.value) ==> Given(form, f)
  {
    if form.name == "" then Some(Name)
    else if form.price.None? then Some(Price)
    else if form.quantity.None? then Some(Quantity)
    else if form.brand == "" then Some(Brand)
    else if form.description == "" then Some(Description)
    else if form.countInStock.None? then Some(CountInStock)
    else if form.category == "" then Some(Category)
    else None
  }

  /** Two missing fields: the reply names the earlier one. */
  lemma FirstMissingIsEarliest(form: ProductForm, f: Field, g: Field)
    requires !Given(form, f) && !Given(form, g) && Rank(f) < Rank(g)
    ensures FirstMissing(form) != Some(g)
  {
  }

  // ---------------------------------------------------------------------
  // Products written by add and update

  /** `reviews.reduce((acc, item) => item.rating + acc, 0)`: the ratings summed from the left. */
  function RatingSum(reviews: seq<Review>): int
    decreases |reviews|
  {
    if reviews == [] then 0
    else RatingSum(reviews[..|reviews| - 1]) + reviews[|reviews| - 1].rating
  }

  /** The mean rating, and 0 for a product without reviews. */
  function Mean(reviews: seq<Review>): real {
    if |reviews| == 0 then 0.0 else RatingSum(reviews) as real / |reviews| as real
  }

  /** `numReviews` is the number of reviews and `rating` their mean. */
  predicate Consistent(p: Product) {
    p.numReviews == |p.reviews| && p.rating == Mean(p.reviews)
  }

  /**
    The record `addProduct` saves (controllers/productController.js:7-58).
    A new product starts with no reviews, a review count of 0 and a rating
    of 0; the product schema is not part of this model, and these are the
    values it is taken to default to.
  */
  function NewProduct(form: ProductForm): (r: Result<Product, Field>)
    ensures r.Failure? <==> FirstMissing(form).Some?
    ensures r.Failure? ==> r.error == FirstMissing(form).value
    ensures r.Success? ==> Consistent(r.value) && r.value.reviews == []
    ensures r.Success? ==>
              && r.value.name == form.name && r.value.description == form.description
              && r.value.brand == form.brand && r.value.category == form.category
              && Some(r.value.price) == form.price && Some(r.value.quantity) == form.quantity
              && Some(r.value.countInStock) == form.countInStock
  {
    match FirstMissing(form)
    case Some(f) => Failure(f)
    case None =>
      Success(Product(form.name, form.description, form.brand, form.category,
                      form.price.value, form.quantity.value, form.countInStock.value, [], 0, 0.0))
  }

  /** A product that is out of stock, or free, is accepted: a `"0"` is given text. */
  lemma ZeroNumbersAccepted(form: ProductForm)
    requires form.name != "" && form.brand != "" && form.description != "" && form.category != ""
    requires form.price == Some(0) && form.quantity == Some(0) && form.countInStock == Some(0)
    ensures NewProduct(form).Success?
    ensures var p := NewProduct(form).value; p.price == 0 && p.quantity == 0 && p.countInStock == 0
  {
  }

  datatype UpdateError = ProductMissing | FieldMissing(field: Field)

  /**
    `updateProduct` (controllers/productController.js:95-155): the product
    must exist, then the form must be complete; the seven form fields
    replace the stored ones, and the reviews, their count and the rating
    are kept.
  */
  function UpdateStep(cat: Catalogue, id: ProductId, form: ProductForm): (r: Result<Catalogue, UpdateError>)
    ensures r == Failure(ProductMissing) <==> id !in cat
    ensures r.Failure? && r.error.FieldMissing? <==> id in cat && FirstMissing(form).Some?
    ensures r.Failure? && r.error.FieldMissing? ==> Some(r.error.field) == FirstMissing(form)
    ensures r.Success? ==>
              && r.value.Keys == cat.Keys
              && (forall k :: k in cat && k != id ==> r.value[k] == cat[k])
              && r.value[id].reviews == cat[id].reviews
              && r.value[id].numReviews == cat[id].numReviews
              && r.value[id].rating == cat[id].rating
              && (forall f: Field :: Given(form, f))
    ensures r.Success? ==>
              && NewProduct(form).Success?
              && r.value[id] == NewProduct(form).value.(reviews := cat[id].reviews,
                                                        numReviews := cat[id].numReviews,
                                                        rating := cat[id].rating)
  {
    if id !in cat then Failure(ProductMissing)
    else match FirstMissing(form)
      case Some(f) => Failure(FieldMissing(f))
      case None =>
        var p := cat[id];
        Success(cat[id := p.(name := form.name, description := form.description, brand := form.brand,
                             category := form.category, price := form.price.value, quantity := form.quantity.value,
                             countInStock := form.countInStock.value)])
  }

  /** An update keeps a product's review figures consistent when they were. */
  lemma UpdateKeepsConsistent(cat: Catalogue, id: ProductId, form: ProductForm)
    requires id in cat && Consistent(cat[id])
    requires UpdateStep(cat, id, form).Success?
    ensures Consistent(UpdateStep(cat, id, form).value[id])
  {
  }

  // ---------------------------------------------------------------------
  // Reviews

  datatype ReviewError =
    | ProductNotFound   // "Product is not found"
    | AlreadyReviewed   // "Product Already reviewed"
    | RatingRequired    // "Rating is required"
    | CommentRequired   // "Comment is required"
    | NotReviewed       // "Product already not reviewed"

  predicate HasReviewBy(reviews: seq<Review>, user: UserId) {
    exists r :: r in reviews && r.user == user
  }

  /** The number of reviews written by `user`. */
  function CountBy(reviews: seq<Review>, user: UserId): nat
    decreases |reviews|
  {
    if reviews == [] then 0
    else (if reviews[0].user == user then 1 else 0) + CountBy(reviews[1..], user)
  }

  /** `reviews.filter(r => r.user != user)`. */
  function WithoutUser(reviews: seq<Review>, user: UserId): seq<Review>
    decreases |reviews|
  {
    if reviews == [] then []
    else (if reviews[0].user == user then [] else [reviews[0]]) + WithoutUser(reviews[1..], user)
  }

  /** The review part of `addProductReview` (controllers/productController.js:183-234), on one product. */
  function AddReviewStep(p: Product, user: UserId, username: string, rating: int, comment: string): (r: Result<Product, ReviewError>)
    ensures r == Failure(AlreadyReviewed) <==> HasReviewBy(p.reviews, user)
    ensures r == Failure(RatingRequired) <==> !HasReviewBy(p.reviews, user) && rating == 0
    ensures r == Failure(CommentRequired) <==> !HasReviewBy(p.reviews, user) && rating != 0 && comment == ""
    ensures r.Success? <==> !HasReviewBy(p.reviews, user) && rating != 0 && comment != ""
    ensures r.Failure? ==> r.error != ProductNotFound && r.error != NotReviewed
    ensures r.Success? ==>
              && r.value.reviews == p.reviews + [Review(username, user, rating, comment)]
              && Consistent(r.value)
              && r.value.(reviews := p.reviews, numReviews := p.numReviews, rating := p.rating) == p
  {
    if exists rv :: rv in p.reviews && rv.user == user then Failure(AlreadyReviewed)
    else if rating == 0 then Failure(RatingRequired)
    else if comment == "" then Failure(CommentRequired)
    else
      var reviews := p.reviews + [Review(username, user, rating, comment)];
      Success(p.(reviews := reviews, numReviews := |reviews|,
                 rating := RatingSum(reviews) as real / |reviews| as real))
  }

  /**
    The review part of `deleteProductReview` (controllers/productController.js:236-280):
    the product must be on the user's reviewed list; then every review by
    the user is dropped, the review count goes down by one, the rating is
    the remaining sum over that count (0 when the count is not positive),
    and one occurrence of the product leaves the reviewed list.
  */
  function DeleteReviewStep(p: Product, pid: ProductId, user: UserId, reviewed: seq<ProductId>): (r: Result<(Product, seq<ProductId>), ReviewError>)
    ensures r == Failure(NotReviewed) <==> pid !in reviewed
    ensures r.Success? <==> pid in reviewed
    ensures r.Success? ==>
              var (q, rest) := r.value;
              && q.reviews == WithoutUser(p.reviews, user)
              && q.numReviews == p.numReviews - 1
              && q.rating == (if q.numReviews > 0 then RatingSum(q.reviews) as real / q.numReviews as real else 0.0)
              && q.(reviews := p.reviews, numReviews := p.numReviews, rating := p.rating) == p
              && rest == RemoveFirst(reviewed, pid)
              && |rest| == |reviewed| - 1
              && multiset(rest) + multiset{pid} == multiset(reviewed)
  {
    if pid !in reviewed then Failure(NotReviewed)
    else
      var reviews := WithoutUser(p.reviews, user);
      var count := p.numReviews - 1;
      var q := p.(reviews := reviews, numReviews := count,
                  rating := if count > 0 then RatingSum(reviews) as real / count as real else 0.0);
      Success((q, RemoveFirst(reviewed, pid)))
  }

  lemma {:induction false} WithoutUserMembers(reviews: seq<Review>, user: UserId)
    ensures forall r :: r in WithoutUser(reviews, user) <==> r in reviews && r.user != user
    ensures |WithoutUser(reviews, user)| == |reviews| - CountBy(reviews, user)
    decreases |reviews|
  {
    if reviews != [] {
      WithoutUserMembers(reviews[1..], user);
      assert reviews == [reviews[0]] + reviews[1..];
    }
  }

  /** A user has written no review exactly when the count of their reviews is 0. */
  lemma {:induction false} CountByOfHasReview(reviews: seq<Review>, user: UserId)
    ensures CountBy(reviews, user) == 0 <==> !HasReviewBy(reviews, user)
    decreases |reviews|
  {
    if reviews != [] {
      CountByOfHasReview(reviews[1..], user);
      assert reviews == [reviews[0]] + reviews[1..];
      assert forall r :: r in reviews <==> r == reviews[0] || r in reviews[1..];
    }
  }

  /**
    Deleting the one review a user wrote keeps the product consistent: the
    count is the number of reviews left and the rating their mean.
  */
  lemma DeleteKeepsConsistent(p: Product, pid: ProductId, user: UserId, reviewed: seq<ProductId>)
    requires Consistent(p) && CountBy(p.reviews, user) == 1 && pid in reviewed
    ensures Consistent(DeleteReviewStep(p, pid, user, reviewed).value.0)
    ensures !HasReviewBy(DeleteReviewStep(p, pid, user, reviewed).value.0.reviews, user)
  {
    WithoutUserMembers(p.reviews, user);
  }

  /**
    A delete for a product on the reviewed list but without a review by the
    user still lowers the count, so the count falls one below the number of
    reviews.
  */
  lemma DeleteWithoutReviewMiscounts(p: Product, pid: ProductId, user: UserId, reviewed: seq<ProductId>)
    requires Consistent(p) && !HasReviewBy(p.reviews, user) && pid in reviewed
    ensures var q := DeleteReviewStep(p, pid, user, reviewed).value.0;
            q.reviews == p.reviews && q.numReviews == |q.reviews| - 1
  {
    CountByOfHasReview(p.reviews, user);
    WithoutUserMembers(p.reviews, user);
    WithoutUserOfAbsent(p.reviews, user);
  }

  lemma {:induction false} WithoutUserOfAbsent(reviews: seq<Review>, user: UserId)
    requires !HasReviewBy(reviews, user)
    ensures WithoutUser(reviews, user) == reviews
    decreases |reviews|
  {
    if reviews != [] {
      assert reviews[0] in reviews;
      assert forall r :: r in reviews[1..] ==> r in reviews;
      WithoutUserOfAbsent(reviews[1..], user);
      assert [reviews[0]] + reviews[1..] == reviews;
    }
  }

  /** Reviews added one by one leave at most one review per user. */
  predicate OneReviewPerUser(reviews: seq<Review>) {
    forall i, j :: 0 <= i < j < |reviews| ==> reviews[i].user != reviews[j].user
  }

  lemma AddKeepsOneReviewPerUser(p: Product, user: UserId, username: string, rating: int, comment: string)
    requires OneReviewPerUser(p.reviews)
    requires AddReviewStep(p, user, username, rating, comment).Success?
    ensures OneReviewPerUser(AddReviewStep(p, user, username, rating, comment).value.reviews)
  {
    var rs := AddReviewStep(p, user, username, rating, comment).value.reviews;
    forall i, j | 0 <= i < j < |rs| ensures rs[i].user != rs[j].user {
      if j == |p.reviews| {
        assert rs[i] == p.reviews[i];
        assert rs[i] in p.reviews;
      } else {
        assert rs[i] == p.reviews[i] && rs[j] == p.reviews[j];
      }
    }
  }

  /** With one review per user, a user with a review has exactly one. */
  lemma {:induction false} OneReviewPerUserCount(reviews: seq<Review>, user: UserId)
    requires OneReviewPerUser(reviews) && HasReviewBy(reviews, user)
    ensures CountBy(reviews, user) == 1
    decreases |reviews|
  {
    assert reviews == [reviews[0]] + reviews[1..];
    var rest := reviews[1..];
    assert OneReviewPerUser(rest) by {
      forall i, j | 0 <= i < j < |rest| ensures rest[i].user != rest[j].user {
        assert rest[i] == reviews[i + 1] && rest[j] == reviews[j + 1];
      }
    }
    if reviews[0].user == user {
      assert !HasReviewBy(rest, user) by {
        forall r | r in rest ensures r.user != user {
          var k :| 0 <= k < |rest| && rest[k] == r;
          assert r == reviews[k + 1];
        }
      }
      CountByOfHasReview(rest, user);
    } else {
      var r :| r in reviews && r.user == user;
      assert r in rest;
      OneReviewPerUserCount(rest, user);
    }
  }

  /**
    The user's reviewed list agrees with one product's reviews: the product
    is on the list exactly when the user has a review on it, and it is on
    the list at most once.
  */
  predicate ReviewedAgrees(p: Product, pid: ProductId, user: UserId, reviewed: seq<ProductId>) {
    && (pid in reviewed <==> HasReviewBy(p.reviews, user))
    && multiset(reviewed)[pid] <= 1
  }

  /** A successful review, with the product pushed onto the reviewed list, keeps the two in agreement. */
  lemma AddKeepsReviewedAgrees(p: Product, pid: ProductId, user: UserId, username: string, rating: int,
                               comment: string, reviewed: seq<ProductId>)
    requires ReviewedAgrees(p, pid, user, reviewed)
    requires AddReviewStep(p, user, username, rating, comment).Success?
    ensures ReviewedAgrees(AddReviewStep(p, user, username, rating, comment).value, pid, user, reviewed + [pid])
  {
    var q := AddReviewStep(p, user, username, rating, comment).value;
    var rv := Review(username, user, rating, comment);
    assert rv == q.reviews[|p.reviews|];
    assert rv in q.reviews;
    assert multiset(reviewed)[pid] == 0;
    assert multiset(reviewed + [pid]) == multiset(reviewed) + multiset{pid};
  }

  /**
    Starting from agreement, one review per user and consistent figures, a
    delete leaves the product consistent, without a review by the user,
    off the reviewed list, and with the two still in agreement.
  */
  lemma DeleteKeepsReviewedAgrees(p: Product, pid: ProductId, user: UserId, reviewed: seq<ProductId>)
    requires ReviewedAgrees(p, pid, user, reviewed) && OneReviewPerUser(p.reviews) && Consistent(p)
    requires DeleteReviewStep(p, pid, user, reviewed).Success?
    ensures var (q, rest) := DeleteReviewStep(p, pid, user, reviewed).value;
            && Consistent(q)
            && OneReviewPerUser(q.reviews)
            && !HasReviewBy(q.reviews, user)
            && pid !in rest
            && ReviewedAgrees(q, pid, user, rest)
  {
    var (q, rest) := DeleteReviewStep(p, pid, user, reviewed).value;
    OneReviewPerUserCount(p.reviews, user);
    DeleteKeepsConsistent(p, pid, user, reviewed);
    WithoutUserKeepsOneReviewPerUser(p.reviews, user);
    assert multiset(rest)[pid] == 0;
  }

  /** Dropping a user's reviews keeps one review per user. */
  lemma {:induction false} WithoutUserKeepsOneReviewPerUser(reviews: seq<Review>, user: UserId)
    requires OneReviewPerUser(reviews)
    ensures OneReviewPerUser(WithoutUser(reviews, user))
    decreases |reviews|
  {
    if reviews != [] {
      var rest := reviews[1..];
      assert OneReviewPerUser(rest) by {
        forall i, j | 0 <= i < j < |rest| ensures rest[i].user != rest[j].user {
          assert rest[i] == reviews[i + 1] && rest[j] == reviews[j + 1];
        }
      }
      WithoutUserKeepsOneReviewPerUser(rest, user);
      WithoutUserMembers(rest, user);
      var tail := WithoutUser(rest, user);
      if reviews[0].user != user {
        var w := [reviews[0]] + tail;
        assert WithoutUser(reviews, user) == w;
        forall i, j | 0 <= i < j < |w| ensures w[i].user != w[j].user {
          if i == 0 {
            assert w[j] == tail[j - 1];
            assert w[j] in rest;
            var k :| 0 <= k < |rest| && rest[k] == w[j];
            assert rest[k] == reviews[k + 1];
          } else {
            assert w[i] == tail[i - 1] && w[j] == tail[j - 1];
          }
        }
      } else {
        assert WithoutUser(reviews, user) == tail;
      }
    }
  }

  lemma RatingSumAppend(reviews: seq<Review>, r: Review)
    ensures RatingSum(reviews + [r]) == RatingSum(reviews) + r.rating
  {
    assert (reviews + [r])[..|reviews|] == reviews;
  }

  lemma MulSucc(a: int, n: nat)
    ensures a * (n + 1) == a * n + a
  {
  }

  /** When every rating lies within `lo..hi`, so does the sum scaled by the count. */
  lemma {:induction false} RatingSumBounds(reviews: seq<Review>, lo: int, hi: int)
    requires forall r :: r in reviews ==> lo <= r.rating <= hi
    ensures lo * |reviews| <= RatingSum(reviews) <= hi * |reviews|
    decreases |reviews|
  {
    if reviews != [] {
      var n := |reviews| - 1;
      var init := reviews[..n];
      assert reviews[n] in reviews;
      assert forall r :: r in init ==> r in reviews;
      RatingSumBounds(init, lo, hi);
      var s0 := RatingSum(init);
      var x := reviews[n].rating;
      assert RatingSum(reviews) == s0 + x;
      MulSucc(lo, n);
      MulSucc(hi, n);
    }
  }

  /** The stored mean of ratings that all lie within `lo..hi` lies within `lo..hi` too. */
  lemma MeanBounds(reviews: seq<Review>, lo: int, hi: int)
    requires reviews != []
    requires forall r :: r in reviews ==> lo <= r.rating <= hi
    ensures lo as real <= Mean(reviews) <= hi as real
  {
    RatingSumBounds(reviews, lo, hi);
    var n := |reviews| as real;
    var s := RatingSum(reviews) as real;
    assert lo as real * n <= s <= hi as real * n;
    QuotientBounds(lo as real, hi as real, s, n);
  }

  lemma QuotientBounds(a: real, b: real, s: real, n: real)
    requires n > 0.0 && a * n <= s <= b * n
    ensures a <= s / n <= b
  {
    var m := s / n;
    assert m * n == s;
    assert (m - a) * n == s - a * n;
    assert (b - m) * n == b * n - s;
  }

  // ---------------------------------------------------------------------
  // The product collection, updated in place

  class ProductStore {
    var products: Catalogue

    constructor (products: Catalogue)
      ensures this.products == products
    {
      this.products := products;
    }

    /** `addProduct`: the store assigns the new product the fresh id `id`. */
    method AddProduct(id: ProductId, form: ProductForm) returns (err: Option<Field>)
      requires id !in products
      modifies this
      ensures err == FirstMissing(form)
      ensures err.Some? ==> products == old(products)
      ensures err.None? ==> products == old(products)[id := NewProduct(form).value]
    {
      var r := NewProduct(form);
      if r.Failure? {
        return Some(r.error);
      }
      products := products[id := r.value];
      err := None;
    }

    method UpdateProduct(id: ProductId, form: ProductForm) returns (err: Option<UpdateError>)
      modifies this
      ensures var r := UpdateStep(old(products), id, form);
              && (r.Failure? ==> err == Some(r.error) && products == old(products))
              && (r.Success? ==> err.None? && products == r.value)
    {
      var r := UpdateStep(products, id, form);
      if r.Failure? {
        return Some(r.error);
      }
      products := r.value;
      err := None;
    }

    /** `addProductReview`: the product's review figures, and the user's reviewed list. */
    method AddProductReview(pid: ProductId, user: Users.Account, rating: int, comment: string)
      returns (err: Option<ReviewError>)
      modifies this, user
      ensures pid !in old(products) ==>
                err == Some(ProductNotFound) && products == old(products) &&
                user.reviewedProducts == old(user.reviewedProducts)
      ensures pid in old(products) ==>
                var r := AddReviewStep(old(products)[pid], user.id, user.username, rating, comment);
                && (r.Failure? ==> err == Some(r.error) && products == old(products) &&
                                   user.reviewedProducts == old(user.reviewedProducts))
                && (r.Success? ==> err.None? && products == old(products)[pid := r.value] &&
                                   user.reviewedProducts == old(user.reviewedProducts) + [pid])
      ensures user.favouriteProducts == old(user.favouriteProducts)
    {
      if pid !in products {
        return Some(ProductNotFound);
      }
      var p := products[pid];
      if exists rv :: rv in p.reviews && rv.user == user.id {
        return Some(AlreadyReviewed);
      }
      if rating == 0 {
        return Some(RatingRequired);
      }
      if comment == "" {
        return Some(CommentRequired);
      }
      user.reviewedProducts := user.reviewedProducts + [pid];
      var reviews := p.reviews + [Review(user.username, user.id, rating, comment)];
      p := p.(reviews := reviews);
      p := p.(numReviews := |reviews|);
      p := p.(rating := RatingSum(reviews) as real / |reviews| as real);
      products := products[pid := p];
      err := None;
    }

    /** `deleteProductReview`: the product's review figures, and the user's reviewed list. */
    method DeleteProductReview(pid: ProductId, user: Users.Account) returns (err: Option<ReviewError>)
      modifies this, user
      ensures pid !in old(products) ==>
                err == Some(ProductNotFound) && products == old(products) &&
                user.reviewedProducts == old(user.reviewedProducts)
      ensures pid in old(products) ==>
                var r := DeleteReviewStep(old(products)[pid], pid, user.id, old(user.reviewedProducts));
                && (r.Failure? ==> err == Some(r.error) && products == old(products) &&
                                   user.reviewedProducts == old(user.reviewedProducts))
                && (r.Success? ==> err.None? && products == old(products)[pid := r.value.0] &&
                                   user.reviewedProducts == r.value.1)
      ensures user.favouriteProducts == old(user.favouriteProducts)
    {
      if pid !in products {
        return Some(ProductNotFound);
      }
      if pid !in user.reviewedProducts {
        return Some(NotReviewed);
      }
      var p := products[pid];
      var reviews := WithoutUser(p.reviews, user.id);
      p := p.(reviews := reviews, numReviews := p.numReviews - 1);
      if p.numReviews > 0 {
        p := p.(rating := RatingSum(reviews) as real / p.numReviews as real);
      } else {
        p := p.(rating := 0.0);
      }
      products := products[pid := p];
      var k := IndexOf(user.reviewedProducts, pid);
      user.reviewedProducts := user.reviewedProducts[..k] + user.reviewedProducts[k + 1..];
      err := None;
    }
  }
}
