/** The stock management page: the category dropdown, the per-id stock patch
    applied after a successful request, the in/out mode filter and the footer
    totals. The per-product quantity selection handler is modelled as written,
    but no control on the page calls it: every other operation keeps the
    selections empty, so the units-to-add total on screen is always 0. */
module StockManagement {
  import opened Common
  import opened Seqs
  import opened Entries
  import opened Catalog

  const All := "All"

  /** `['All', ...new Set(products.map(p => p.category).filter(Boolean))]`. */
  function Categories(products: seq<Product>): (r: seq<string>)
    ensures |r| >= 1 && r[0] == All
    ensures forall c :: c in r[1..] <==> c != "" && c in CategoryColumn(products)
    ensures NoDuplicates(r[1..])
    ensures InFirstOccurrenceOrder(r[1..], Filter(CategoryColumn(products), (c: string) => c != ""))
  {
    var named := Filter(CategoryColumn(products), (c: string) => c != "");
    DedupFirstOccurrenceOrder(named);
    var r := [All] + Dedup(named);
    assert r[1..] == Dedup(named);
    r
  }

  /** The fields of the patch response that the page copies. */
  datatype StockPatch = StockPatch(inStock: Option<int>, stockQuantity: Option<int>)

  /** `b` is `a` with at most its two stock fields replaced. */
  predicate SameExceptStock(a: Product, b: Product) {
    a.(inStock := b.inStock, stockQuantity := b.stockQuantity) == b
  }

  /** `prev.map(p => p._id === productId ? { ...p, inStock, stockQuantity } : p)`. */
  function PatchStock(products: seq<Product>, productId: string, patch: StockPatch): (r: seq<Product>)
    ensures |r| == |products|
    ensures forall i :: 0 <= i < |r| && products[i].id != productId ==> r[i] == products[i]
    ensures forall i :: 0 <= i < |r| && products[i].id == productId ==>
              SameExceptStock(products[i], r[i]) && r[i].inStock == patch.inStock && r[i].stockQuantity == patch.stockQuantity
  {
    if products == [] then []
    else
      var p := products[0];
      var head := if p.id == productId then p.(inStock := patch.inStock, stockQuantity := patch.stockQuantity) else p;
      [head] + PatchStock(products[1..], productId, patch)
  }

  /** Patching keeps every product's id, so the list keys are stable. */
  lemma PatchStockKeepsIds(products: seq<Product>, productId: string, patch: StockPatch)
    ensures forall i :: 0 <= i < |products| ==> PatchStock(products, productId, patch)[i].id == products[i].id
  {
  }

  /** Applying the same response twice is applying it once. */
  lemma PatchStockIdempotent(products: seq<Product>, productId: string, patch: StockPatch)
    ensures PatchStock(PatchStock(products, productId, patch), productId, patch) == PatchStock(products, productId, patch)
  {
    var once := PatchStock(products, productId, patch);
    var twice := PatchStock(once, productId, patch);
    assert forall i :: 0 <= i < |twice| ==> twice[i] == once[i];
  }

  /** A response for an id that no listed product has changes nothing. */
  lemma PatchStockUnknownId(products: seq<Product>, productId: string, patch: StockPatch)
    requires forall i :: 0 <= i < |products| ==> products[i].id != productId
    ensures PatchStock(products, productId, patch) == products
  {
  }

  /** The mode filter: 'in' lists products with stock above zero, 'out' those
      whose stock is exactly zero (`inStock === 0`). */
  predicate InMode(p: Product, mode: StockAction) {
    match mode
    case In => p.inStock.Some? && p.inStock.value > 0
    case Out => p.inStock == Some(0)
  }

  /** A product with a non-negative stock figure is listed in exactly one
      mode; one with a missing or negative figure in neither. */
  lemma ModesPartition(p: Product)
    ensures p.inStock.Some? && p.inStock.value >= 0 ==> InMode(p, In) != InMode(p, Out)
    ensures p.inStock.None? || p.inStock.value < 0 ==> !InMode(p, In) && !InMode(p, Out)
  {
  }

  predicate InCategory(p: Product, category: string) {
    category == All || p.category == category
  }

  /** `filteredProducts`: the mode filter, then the category filter. */
  function FilteredProducts(products: seq<Product>, mode: StockAction, category: string): (r: seq<Product>)
    ensures IsSubsequence(r, products)
    ensures forall p :: p in r <==> p in products && InMode(p, mode) && InCategory(p, category)
  {
    var byMode := Filter(products, (p: Product) => InMode(p, mode));
    var r := Filter(byMode, (p: Product) => InCategory(p, category));
    FilterIsSubsequence(products, (p: Product) => InMode(p, mode));
    FilterIsSubsequence(byMode, (p: Product) => InCategory(p, category));
    IsSubsequenceTransitive(r, byMode, products);
    r
  }

  /** The category 'All' keeps every product of the mode. */
  lemma AllKeepsMode(products: seq<Product>, mode: StockAction)
    ensures FilteredProducts(products, mode, All) == Filter(products, (p: Product) => InMode(p, mode))
  {
    var byMode := Filter(products, (p: Product) => InMode(p, mode));
    FilterKeepsAll(byMode, (p: Product) => InCategory(p, All));
  }

  /** `filteredProducts.reduce((sum, p) => sum + (p.inStock || 0), 0)`. */
  function TotalCurrentStock(products: seq<Product>): (total: int)
    ensures (forall i :: 0 <= i < |products| ==> OrZero(products[i].inStock) >= 0) ==> total >= 0
    decreases |products|
  {
    if products == [] then 0
    else TotalCurrentStock(products[..|products| - 1]) + OrZero(products[|products| - 1].inStock)
  }

  lemma {:induction false} TotalCurrentStockZero(products: seq<Product>)
    requires forall p :: p in products ==> OrZero(p.inStock) == 0
    ensures TotalCurrentStock(products) == 0
    decreases |products|
  {
    if products != [] {
      TotalCurrentStockZero(products[..|products| - 1]);
    }
  }

  lemma {:induction false} TotalCurrentStockAtLeastCount(products: seq<Product>)
    requires forall p :: p in products ==> OrZero(p.inStock) >= 1
    ensures TotalCurrentStock(products) >= |products|
    decreases |products|
  {
    if products != [] {
      TotalCurrentStockAtLeastCount(products[..|products| - 1]);
    }
  }

  /** In 'out' mode the footer's current stock is always 0. */
  lemma OutModeTotalIsZero(products: seq<Product>, category: string)
    ensures TotalCurrentStock(FilteredProducts(products, Out, category)) == 0
  {
    TotalCurrentStockZero(FilteredProducts(products, Out, category));
  }

  /** In 'in' mode every listed product adds at least one unit. */
  lemma InModeTotalAtLeastRows(products: seq<Product>, category: string)
    ensures TotalCurrentStock(FilteredProducts(products, In, category)) >= |FilteredProducts(products, In, category)|
  {
    TotalCurrentStockAtLeastCount(FilteredProducts(products, In, category));
  }

  /** `Object.values(selectedProducts).reduce((sum, qty) => sum + (qty || 0), 0)`. */
  function TotalUnitsToAdd(selected: Entries<Option<int>>): (total: int)
    ensures (forall i :: 0 <= i < |selected| ==> OrZero(selected[i].1) >= 0) ==> total >= 0
  {
    if selected == [] then 0 else OrZero(selected[0].1) + TotalUnitsToAdd(selected[1..])
  }

  function UnitsOf(selected: Entries<Option<int>>, productId: string): (n: int)
  {
    match Lookup(selected, productId)
    case None => 0
    case Some(q) => OrZero(q)
  }

  /** Selecting a quantity for one product moves the footer total by exactly
      the change of that product's entry. */
  lemma {:induction false} SelectChangesTotalBy(selected: Entries<Option<int>>, productId: string, qty: Option<int>)
    requires DistinctKeys(selected)
    ensures TotalUnitsToAdd(Put(selected, productId, qty)) == TotalUnitsToAdd(selected) - UnitsOf(selected, productId) + OrZero(qty)
  {
    if selected != [] && selected[0].0 != productId {
      SelectChangesTotalBy(selected[1..], productId, qty);
    } else if selected != [] {
      NoOtherEntry(selected[1..], productId);
    }
  }

  lemma {:induction false} NoOtherEntry(rest: Entries<Option<int>>, productId: string)
    requires forall i :: 0 <= i < |rest| ==> rest[i].0 != productId
    ensures UnitsOf(rest, productId) == 0
  {
  }

  /** The page's state. */
  class StockManagementPage {
    var products: seq<Product>
    var category: string
    var categories: seq<string>
    var mode: StockAction
    var selectedProducts: Entries<Option<int>>
    var snackbar: Snackbar

    ghost predicate Valid()
      reads this
    {
      DistinctKeys(selectedProducts)
    }

    /** `initialMode` defaults to 'in' in the source. */
    constructor (initialMode: StockAction)
      ensures Valid()
      ensures products == [] && category == All && categories == [All] && mode == initialMode
      ensures selectedProducts == [] && !snackbar.open
    {
      products, category, categories, mode := [], All, [All], initialMode;
      selectedProducts := [];
      snackbar := ClosedSnackbar(Success);
    }

    /** The fetch on mount: the list and the category dropdown come from the
        same response; a failure only shows a notice. */
    method ApplyFetch(outcome: Response<seq<Product>>)
      modifies this
      ensures outcome.Ok? ==> products == outcome.data && categories == Categories(outcome.data) && snackbar == old(snackbar)
      ensures outcome.Failed? ==> products == old(products) && categories == old(categories)
                                  && snackbar == Show("Failed to fetch products", Error)
      ensures category == old(category) && mode == old(mode) && selectedProducts == old(selectedProducts)
    {
      match outcome
      case Ok(data) =>
        products := data;
        categories := Categories(data);
      case Failed(_) =>
        snackbar := Show("Failed to fetch products", Error);
    }

    /** `handleStockUpdate(productId, action)`. */
    method HandleStockUpdate(productId: string, action: StockAction, outcome: Response<StockPatch>)
      modifies this
      ensures outcome.Ok? ==> products == PatchStock(old(products), productId, outcome.data)
                              && snackbar == Show(StockMessage(action), Success)
      ensures outcome.Failed? ==> products == old(products)
                                  && snackbar == Show(ErrorText(outcome.message, "Stock update failed"), Error)
      ensures category == old(category) && categories == old(categories) && mode == old(mode)
      ensures selectedProducts == old(selectedProducts)
    {
      match outcome
      case Ok(patch) =>
        products := PatchStock(products, productId, patch);
        snackbar := Show(StockMessage(action), Success);
      case Failed(message) =>
        snackbar := Show(ErrorText(message, "Stock update failed"), Error);
    }

    /** `handleProductSelect(productId, quantity)`, which no control calls. */
    method HandleProductSelect(productId: string, quantity: Option<int>)
      requires Valid()
      modifies this
      ensures Valid()
      ensures Lookup(selectedProducts, productId) == Some(quantity)
      ensures forall k :: k != productId ==> Lookup(selectedProducts, k) == Lookup(old(selectedProducts), k)
      ensures TotalUnitsToAdd(selectedProducts) == TotalUnitsToAdd(old(selectedProducts)) - UnitsOf(old(selectedProducts), productId) + OrZero(quantity)
      ensures products == old(products) && category == old(category) && categories == old(categories)
      ensures mode == old(mode) && snackbar == old(snackbar)
    {
      SelectChangesTotalBy(selectedProducts, productId, quantity);
      selectedProducts := Put(selectedProducts, productId, quantity);
    }

    method SetMode(m: StockAction)
      modifies this
      ensures mode == m
      ensures products == old(products) && category == old(category) && categories == old(categories)
      ensures selectedProducts == old(selectedProducts) && snackbar == old(snackbar)
    {
      mode := m;
    }

    method SetCategory(c: string)
      modifies this
      ensures category == c
      ensures products == old(products) && mode == old(mode) && categories == old(categories)
      ensures selectedProducts == old(selectedProducts) && snackbar == old(snackbar)
    {
      category := c;
    }

    /** The rows on screen. */
    function Rows(): (r: seq<Product>)
      reads this
      ensures forall p :: p in r <==> p in products && InMode(p, mode) && InCategory(p, category)
    {
      FilteredProducts(products, mode, category)
    }
  }
}
