/**
  The entities every controller reads: product and user identifiers, the
  product record with its reviews, and the catalogue that stands for the
  product collection of the document store (`Product.findById` becomes a
  map lookup).

  Money is held in integer cents. Stock is a count, so it is a `nat`.
*/
module Catalog {

  datatype Option<T> = None | Some(value: T)

  datatype Result<T, E> = Success(value: T) | Failure(error: E)

  /** Document ids (MongoDB ObjectIds) are opaque; only equality matters. */
  type ProductId = nat
  type UserId = nat
  type OrderId = nat

  /** A category reference as the request carries it: the id's text. */
  type CategoryId = string

  /** One review embedded in a product document. */
  datatype Review = Review(name: string, user: UserId, rating: int, comment: string)

  /**
    A product document. `quantity` is the stock figure the cart handlers
    check against; `countInStock` is a second stock figure the validation
    requires but no cart rule reads.
  */
  datatype Product = Product(
    name: string,
    description: string,
    brand: string,
    category: CategoryId,
    price: nat,
    quantity: nat,
    countInStock: nat,
    reviews: seq<Review>,
    numReviews: int,
    rating: real)

  type Catalogue = map<ProductId, Product>
}
