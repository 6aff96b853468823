/** The product edit page: the selections made when a product loads, the
    stock-in loop that repeats one request `quantity` times before a single
    refetch, the update payload, the stock figures it shows and the delete. */
module EditProduct {
  import opened Common
  import opened Catalog
  import Dashboard

  /** `list?.[0] || ""`: the first listed value, or "" when there is none. */
  function FirstOrEmpty(values: seq<string>): (v: string)
    ensures values == [] ==> v == ""
    ensures values != [] ==> v == values[0]
  {
    if values == [] then "" else values[0]
  }

  /** The quantity menu: `[...Array(10)].map((_, i) => i + 1)`. */
  function QuantityOptions(): (r: seq<int>)
    ensures |r| == 10
    ensures forall i :: 0 <= i < 10 ==> r[i] == i + 1
    ensures forall q :: q in r <==> 1 <= q <= 10
  {
    var r := seq(10, i => i + 1);
    assert forall q :: q in r <==> 1 <= q <= 10 by {
      forall q | 1 <= q <= 10 ensures q in r {
        assert r[q - 1] == q;
      }
    }
    r
  }

  /** "Sale Stocks": `stockQuantity - inStock` (NaN when either is missing). */
  function SaleStocks(p: Product): (n: Option<int>)
    ensures n.Some? <==> p.inStock.Some? && p.stockQuantity.Some?
    ensures n.Some? ==> n.value == p.stockQuantity.value - p.inStock.value
  {
    Dashboard.Sub(p.stockQuantity, p.inStock)
  }

  /** "Remain Stock": the product's `inStock`. */
  function RemainStock(p: Product): (n: Option<int>)
    ensures n == p.inStock
  {
    p.inStock
  }

  /** The page's "Sale Stocks" has the opposite sign of the dashboard's
      "Sold" for the same product; the two agree only when the product's
      `inStock` equals its `stockQuantity`. */
  lemma SaleStocksIsMinusDashboardSold(p: Product)
    ensures Dashboard.TotalSold([p]) == Dashboard.Sub(Some(0), SaleStocks(p))
    ensures Dashboard.TotalSold([p]) == SaleStocks(p) <==> p.inStock.None? || p.stockQuantity.None? || p.inStock == p.stockQuantity
  {
    assert [p][..0] == [];
  }

  /** `AllPatchesSucceed(n, ok)`: the first `n` stock requests all succeed. */
  predicate AllPatchesSucceed(n: int, patchOk: nat -> bool) {
    forall i: nat :: i < n ==> patchOk(i)
  }

  /** The `for (let i = 0; i < quantity; i++) await axios.patch(...)` loop.
      `patchOk(i)` is the outcome of the i-th request; an exception leaves the
      loop at once. Returns how many requests were sent and whether all of them
      succeeded (which is when the refetch follows). */
  method RunStockIn(quantity: int, patchOk: nat -> bool) returns (sent: nat, allOk: bool)
    ensures allOk <==> AllPatchesSucceed(quantity, patchOk)
    ensures allOk ==> sent == (if quantity > 0 then quantity else 0)
    ensures !allOk ==> 1 <= sent <= quantity && !patchOk(sent - 1) && AllPatchesSucceed(sent - 1, patchOk)
  {
    sent := 0;
    while sent < quantity
      invariant quantity > 0 ==> sent <= quantity
      invariant quantity <= 0 ==> sent == 0
      invariant AllPatchesSucceed(sent, patchOk)
    {
      var ok := patchOk(sent);
      sent := sent + 1;
      if !ok {
        return sent, false;
      }
    }
    allOk := true;
  }

  /** The body of the update request: `{ productName, image }` and nothing else. */
  datatype UpdatePayload = UpdatePayload(productName: string, image: string)

  class EditProductPage {
    const id: string
    var product: Option<Product>
    var selectedSize: string
    var selectedColor: string
    var quantity: int
    var productName: string
    var image: string
    var snackbar: Snackbar

    constructor (id: string)
      ensures this.id == id && product == None && !Rendered()
      ensures selectedSize == "" && selectedColor == "" && quantity == 1
      ensures productName == "" && image == "" && !snackbar.open
    {
      this.id := id;
      product := None;
      selectedSize, selectedColor := "", "";
      quantity := 1;
      productName, image := "", "";
      snackbar := ClosedSnackbar(Success);
    }

    /** `if (!product) return null`: nothing is shown before a product loads. */
    predicate Rendered()
      reads this
    {
      product.Some?
    }

    /** The fetch on mount: the product, its name and image, and the first
        size and colour as the selections. A failure records the notice, but
        before a first successful load the page renders nothing, so the
        notice is not seen. */
    method Load(outcome: Response<Product>)
      modifies this
      ensures outcome.Ok? ==> product == Some(outcome.data) && Rendered()
                              && productName == outcome.data.productName && image == outcome.data.image
                              && selectedSize == FirstOrEmpty(outcome.data.sizes)
                              && selectedColor == FirstOrEmpty(outcome.data.colors)
                              && snackbar == old(snackbar)
      ensures outcome.Failed? ==> product == old(product) && productName == old(productName) && image == old(image)
                                  && selectedSize == old(selectedSize) && selectedColor == old(selectedColor)
                                  && snackbar == Show("Failed to fetch product", Error)
      ensures outcome.Failed? && old(product).None? ==> !Rendered()
      ensures quantity == old(quantity)
    {
      match outcome
      case Ok(p) =>
        product := Some(p);
        productName := p.productName;
        image := p.image;
        selectedSize := FirstOrEmpty(p.sizes);
        selectedColor := FirstOrEmpty(p.colors);
      case Failed(_) =>
        snackbar := Show("Failed to fetch product", Error);
    }

    method SetQuantity(q: int)
      modifies this
      ensures quantity == q
      ensures product == old(product) && selectedSize == old(selectedSize) && selectedColor == old(selectedColor)
      ensures productName == old(productName) && image == old(image) && snackbar == old(snackbar)
    {
      quantity := q;
    }

    /** The product-name field's `onChange`: only the edited name changes. */
    method SetProductName(name: string)
      modifies this
      ensures productName == name
      ensures product == old(product) && selectedSize == old(selectedSize) && selectedColor == old(selectedColor)
      ensures quantity == old(quantity) && image == old(image) && snackbar == old(snackbar)
    {
      productName := name;
    }

    /** The image-URL field's `onChange`: only the edited image changes. */
    method SetImage(url: string)
      modifies this
      ensures image == url
      ensures product == old(product) && selectedSize == old(selectedSize) && selectedColor == old(selectedColor)
      ensures quantity == old(quantity) && productName == old(productName) && snackbar == old(snackbar)
    {
      image := url;
    }

    /** `handleStockUpdate`: `quantity` sequential stock-in requests, then one
        refetch of the product. Any failure, of a request or of the refetch,
        leaves `product` as it was and shows the failure notice. */
    method HandleStockUpdate(patchOk: nat -> bool, refetch: Response<Product>) returns (sent: nat, refetched: bool)
      modifies this
      ensures refetched <==> AllPatchesSucceed(quantity, patchOk)
      ensures AllPatchesSucceed(quantity, patchOk) ==> sent == (if quantity > 0 then quantity else 0)
      ensures !AllPatchesSucceed(quantity, patchOk) ==> 1 <= sent <= quantity && !patchOk(sent - 1)
      ensures AllPatchesSucceed(quantity, patchOk) && refetch.Ok? ==>
                product == Some(refetch.data) && snackbar == Show("Stock updated successfully", Success)
      ensures !(AllPatchesSucceed(quantity, patchOk) && refetch.Ok?) ==>
                product == old(product) && snackbar == Show("Failed to update stock", Error)
      ensures quantity == old(quantity) && selectedSize == old(selectedSize) && selectedColor == old(selectedColor)
      ensures productName == old(productName) && image == old(image)
    {
      sent, refetched := RunStockIn(quantity, patchOk);
      if refetched && refetch.Ok? {
        product := Some(refetch.data);
        snackbar := Show("Stock updated successfully", Success);
      } else {
        snackbar := Show("Failed to update stock", Error);
      }
    }

    /** `handleUpdate`: sends the edited name and image only; the selections,
        the quantity and the loaded product are not part of the request. */
    method HandleUpdate(outcome: Response<()>) returns (payload: UpdatePayload)
      modifies this
      ensures payload == UpdatePayload(productName, image)
      ensures outcome.Ok? ==> snackbar == Show("Product updated successfully", Success)
      ensures outcome.Failed? ==> snackbar == Show("Failed to update product", Error)
      ensures product == old(product) && productName == old(productName) && image == old(image)
      ensures selectedSize == old(selectedSize) && selectedColor == old(selectedColor) && quantity == old(quantity)
    {
      payload := UpdatePayload(productName, image);
      if outcome.Ok? {
        snackbar := Show("Product updated successfully", Success);
      } else {
        snackbar := Show("Failed to update product", Error);
      }
    }

    /** `handleDelete`: on success the page navigates to "/"; on failure it
        stays and shows a notice. */
    method HandleDelete(outcome: Response<()>) returns (navigateTo: Option<string>)
      modifies this
      ensures outcome.Ok? ==> navigateTo == Some("/") && snackbar == old(snackbar)
      ensures outcome.Failed? ==> navigateTo == None && snackbar == Show("Failed to delete product", Error)
      ensures product == old(product) && productName == old(productName) && image == old(image)
      ensures selectedSize == old(selectedSize) && selectedColor == old(selectedColor) && quantity == old(quantity)
    {
      if outcome.Ok? {
        navigateTo := Some("/");
      } else {
        navigateTo := None;
        snackbar := Show("Failed to delete product", Error);
      }
    }
  }
}
