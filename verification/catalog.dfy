/** The product catalog: an ordered sequence of products whose order is the
    display order. */
module Catalogs {
  import opened Products

  datatype Catalog = Catalog(items: seq<Product>) {

    /** The products as loaded: same length, same product at every
        position. */
    function GetItems(): (r: seq<Product>)
      ensures r == items
    {
      items
    }
  }

  /** A catalog loaded with A, B, C in that order lists A, B, C, even when
      two of them carry identical fields. */
  lemma InsertionOrderKept(a: Product, b: Product, c: Product)
    ensures Catalog([a, b, c]).GetItems() == [a, b, c]
  {
  }
}
