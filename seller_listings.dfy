/** The seller page: the products listed by the simulated logged-in seller. */
module SellerListings {
  import opened Wrappers
  import opened Seqs
  import opened Catalog

  const MockedUserEmail := "seller1@marketmate.com"

  /** The products whose seller is the simulated logged-in seller, in catalogue order. */
  function UserProducts(products: seq<Product>): seq<Product> {
    Filter(products, (p: Product) => p.sellerEmail == Some(MockedUserEmail))
  }

  /** Only the seller's products make it, all of them do, and in catalogue order; a
      product without a seller is never shown. */
  lemma UserProductsSpec(products: seq<Product>)
    ensures var r := UserProducts(products);
      && IsSubsequence(r, products)
      && (forall p :: p in r <==> p in products && p.sellerEmail == Some(MockedUserEmail))
      && (forall i :: 0 <= i < |r| ==> r[i].sellerEmail.Some?)
  {
    var r := UserProducts(products);
    forall i | 0 <= i < |r| ensures r[i].sellerEmail.Some? {
      assert r[i] in r;
    }
  }

  /** On the shipped catalogue the page lists the jacket (id `1`) and nothing else. */
  lemma UserProductsOfMockData()
    ensures UserProducts(MockProducts) == [Jacket]
    ensures UserProducts(MockProducts)[0].id == "1"
  {
    var keep := (p: Product) => p.sellerEmail == Some(MockedUserEmail);
    FilterStep(Jacket, [Chair, ActionFigure, Guitar, Camera, Novels], keep);
    FilterStep(Chair, [ActionFigure, Guitar, Camera, Novels], keep);
    FilterStep(ActionFigure, [Guitar, Camera, Novels], keep);
    FilterStep(Guitar, [Camera, Novels], keep);
    FilterStep(Camera, [Novels], keep);
    FilterStep(Novels, [], keep);
  }
}
