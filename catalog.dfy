/** The product record as the backend returns it to the catalogue pages. */
module Catalog {
  import opened Common

  /** A product. `inStock` and `stockQuantity` are `None` when the backend
      left the field out (`undefined` in the page). */
  datatype Product = Product(
    id: string,
    productName: string,
    category: string,
    inStock: Option<int>,
    stockQuantity: Option<int>,
    image: string,
    sizes: seq<string>,
    colors: seq<string>)

  /** The category of every product, in list order (`products.map(p => p.category)`). */
  function CategoryColumn(products: seq<Product>): (r: seq<string>)
    ensures |r| == |products|
    ensures forall i :: 0 <= i < |products| ==> r[i] == products[i].category
  {
    seq(|products|, i requires 0 <= i < |products| => products[i].category)
  }

  /** `value || 0` for a numeric field. */
  function OrZero(v: Option<int>): (n: int)
    ensures v.None? ==> n == 0
    ensures v.Some? ==> n == v.value
  {
    if v.Some? then v.value else 0
  }

  /** The `action` query parameter of a stock request ('in' or 'out'); it is
      also the stock page's mode. */
  datatype StockAction = In | Out

  /** `Stock ${action === 'in' ? 'increased' : 'decreased'}`. */
  function StockMessage(action: StockAction): (m: string)
    ensures action == In ==> m == "Stock increased"
    ensures action == Out ==> m == "Stock decreased"
  {
    if action == In then "Stock increased" else "Stock decreased"
  }
}
