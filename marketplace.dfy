/**
 * The marketplace page's product fetch: the reply is accepted as a bare
 * array or as an object with a truthy `products` list, and anything else
 * shows the fixed error.
 */
module Marketplace {
  import opened Basics

  datatype Product = Product(id: int, name: string)

  const LoadFailed: string := "⚠️ Could not load products. Please try again later."

  /**
   * What the products request comes back with. `Listing(None)` is an object
   * whose `products` field is absent or falsy; any array, even an empty one,
   * is truthy.
   */
  datatype ProductsReply = RequestFailed | NullBody | Array(items: seq<Product>) | Listing(products: Option<seq<Product>>)

  /** The list a reply yields, if its shape is accepted. */
  function Normalised(reply: ProductsReply): (r: Option<seq<Product>>)
    ensures reply.Array? ==> r == Some(reply.items)
    ensures reply.Listing? ==> r == reply.products
    ensures r.None? <==> reply.RequestFailed? || reply.NullBody? || (reply.Listing? && reply.products.None?)
  {
    match reply
    case Array(items) => Some(items)
    case Listing(products) => products
    case _ => None
  }

  class MarketplacePage {
    var products: seq<Product>
    var loading: bool
    var error: string

    constructor()
      ensures products == [] && loading && error == ""
    {
      products, loading, error := [], true, "";
    }

    /** fetchProducts */
    method FetchProducts(reply: ProductsReply)
      modifies this
      ensures !loading
      ensures Normalised(reply).Some? ==> products == Normalised(reply).value && error == ""
      ensures Normalised(reply).None? ==> products == old(products) && error == LoadFailed
    {
      loading := true;
      error := "";
      match reply {
        case Array(items) =>
          products := items;
        case Listing(Some(ps)) =>
          products := ps;
        case _ =>
          error := LoadFailed;
      }
      loading := false;
    }
  }

  /** An empty list under `products` is accepted, and leaves no products and no error. */
  lemma EmptyListingAccepted()
    ensures Normalised(Listing(Some([]))) == Some([])
  {
  }
}
