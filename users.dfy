/**
  The parts of a user document that the handlers change in place: the
  favourites list and the list of reviewed products, and the two
  favourites handlers of the user controller.

  Both lists are declared with `unique: true` in the user schema; the
  handlers keep the favourites duplicate-free by checking before they push.
*/
module Users {
  import opened Catalog
  import opened Lists

  datatype FavouriteError =
    | ProductNotFound    // "Product is not found"
    | AlreadyFavourite   // "Product already is favourite"
    | NotFavourite       // "Product already is not favourite"

  /** What a favourites handler replies (`None` is success) and the list it leaves. */
  datatype FavouriteStep = FavouriteStep(error: Option<FavouriteError>, favourites: seq<ProductId>)

  /** `addFavourite` (controllers/userController.js:244-299), on the list value. */
  function AddFavouriteStep(cat: Catalogue, favs: seq<ProductId>, id: ProductId): (s: FavouriteStep)
    ensures s.error == Some(ProductNotFound) <==> id !in cat
    ensures s.error == Some(AlreadyFavourite) <==> id in cat && id in favs
    ensures s.error.None? <==> id in cat && id !in favs
    ensures s.error.Some? ==> s.favourites == favs
    ensures s.error.None? ==> s.favourites == favs + [id]
    ensures NoDuplicates(favs) ==> NoDuplicates(s.favourites)
  {
    if id !in cat then FavouriteStep(Some(ProductNotFound), favs)
    else if id in favs then FavouriteStep(Some(AlreadyFavourite), favs)
    else
      assert forall i :: 0 <= i < |favs| ==> (favs + [id])[i] == favs[i];
      FavouriteStep(None, favs + [id])
  }

  /** `removeFavourite` (controllers/userController.js:301-347), on the list value. */
  function RemoveFavouriteStep(cat: Catalogue, favs: seq<ProductId>, id: ProductId): (s: FavouriteStep)
    ensures s.error == Some(ProductNotFound) <==> id !in cat
    ensures s.error == Some(NotFavourite) <==> id in cat && id !in favs
    ensures s.error.None? <==> id in cat && id in favs
    ensures s.error.Some? ==> s.favourites == favs
    ensures s.error.None? ==>
              && s.favourites == RemoveFirst(favs, id)
              && |s.favourites| == |favs| - 1 && multiset(s.favourites) + multiset{id} == multiset(favs)
    ensures NoDuplicates(favs) ==> NoDuplicates(s.favourites)
    ensures NoDuplicates(favs) ==> forall y :: y in s.favourites <==> y in favs && (s.error.None? ==> y != id)
  {
    if id !in cat then FavouriteStep(Some(ProductNotFound), favs)
    else if favs == [] then FavouriteStep(Some(NotFavourite), favs)
    else if id !in favs then FavouriteStep(Some(NotFavourite), favs)
    else
      if NoDuplicates(favs) then
        RemoveFirstOfDistinct(favs, id);
        FavouriteStep(None, RemoveFirst(favs, id))
      else FavouriteStep(None, RemoveFirst(favs, id))
  }

  /** Favouring a product and then removing it gives the list back. */
  lemma RemoveUndoesAdd(cat: Catalogue, favs: seq<ProductId>, id: ProductId)
    requires AddFavouriteStep(cat, favs, id).error.None?
    ensures RemoveFavouriteStep(cat, AddFavouriteStep(cat, favs, id).favourites, id) == FavouriteStep(None, favs)
  {
    RemoveFirstAfterAppend(favs, id);
  }

  /** Favouring a product twice fails the second time and leaves the list of the first. */
  lemma AddFavouriteTwice(cat: Catalogue, favs: seq<ProductId>, id: ProductId)
    requires id in cat
    ensures var once := AddFavouriteStep(cat, favs, id).favourites;
            AddFavouriteStep(cat, once, id) == FavouriteStep(Some(AlreadyFavourite), once)
  {
    var once := AddFavouriteStep(cat, favs, id).favourites;
    assert id in once by {
      if id !in favs {
        assert once[|favs|] == id;
      }
    }
  }

  /** Removing a favourite removes one occurrence of it: every other product's count is unchanged. */
  lemma RemoveFavouriteCounts(cat: Catalogue, favs: seq<ProductId>, id: ProductId, y: ProductId)
    requires RemoveFavouriteStep(cat, favs, id).error.None?
    ensures multiset(RemoveFavouriteStep(cat, favs, id).favourites)[y] ==
              if y == id then multiset(favs)[y] - 1 else multiset(favs)[y]
  {
    var r := RemoveFavouriteStep(cat, favs, id).favourites;
    assert multiset(r) + multiset{id} == multiset(favs);
  }

  /** A user document, with the two product-id lists the handlers update. */
  class Account {
    const id: UserId
    const username: string
    var favouriteProducts: seq<ProductId>
    var reviewedProducts: seq<ProductId>

    ghost predicate Valid()
      reads this
    {
      NoDuplicates(favouriteProducts)
    }

    constructor (id: UserId, username: string)
      ensures Valid()
      ensures this.id == id && this.username == username
      ensures favouriteProducts == [] && reviewedProducts == []
    {
      this.id := id;
      this.username := username;
      favouriteProducts := [];
      reviewedProducts := [];
    }

    method AddFavourite(cat: Catalogue, product: ProductId) returns (err: Option<FavouriteError>)
      requires Valid()
      modifies this
      ensures FavouriteStep(err, favouriteProducts) == AddFavouriteStep(cat, old(favouriteProducts), product)
      ensures reviewedProducts == old(reviewedProducts)
      ensures Valid()
    {
      if product !in cat {
        return Some(ProductNotFound);
      }
      if product in favouriteProducts {
        return Some(AlreadyFavourite);
      }
      favouriteProducts := favouriteProducts + [product];
      err := None;
    }

    method RemoveFavourite(cat: Catalogue, product: ProductId) returns (err: Option<FavouriteError>)
      requires Valid()
      modifies this
      ensures FavouriteStep(err, favouriteProducts) == RemoveFavouriteStep(cat, old(favouriteProducts), product)
      ensures reviewedProducts == old(reviewedProducts)
      ensures Valid()
    {
      if product !in cat {
        return Some(ProductNotFound);
      }
      if favouriteProducts == [] || product !in favouriteProducts {
        return Some(NotFavourite);
      }
      var k := IndexOf(favouriteProducts, product);
      favouriteProducts := favouriteProducts[..k] + favouriteProducts[k + 1..];
      err := None;
    }
  }
}
