/** The product list page: the search/category filter effect, the distinct
    categories of the dropdown, the per-product size and colour selections,
    the update payload, the stock buttons and the card image fallback. */
module ProductList {
  import opened Common
  import opened Seqs
  import opened Strings
  import opened Catalog

  const Placeholder := "https://via.placeholder.com/150"
  const DataImagePrefix := "data:image/"

  /** The search box matches a product when its lowered name or lowered
      category contains the lowered search text. */
  predicate MatchesSearch(p: Product, search: string) {
    Contains(Lower(p.productName), Lower(search)) || Contains(Lower(p.category), Lower(search))
  }

  /** What the filter effect keeps: a non-empty search must match and a
      non-empty selected category must equal the product's category. */
  predicate Listed(p: Product, search: string, selectedCategory: string) {
    (search != "" ==> MatchesSearch(p, search)) && (selectedCategory != "" ==> p.category == selectedCategory)
  }

  /** The effect on `[search, selectedCategory, products]`: filter by the search
      when it is non-empty, then by the category when one is selected. */
  function FilterProducts(products: seq<Product>, search: string, selectedCategory: string): (r: seq<Product>)
    ensures IsSubsequence(r, products)
    ensures forall p :: p in r <==> p in products && Listed(p, search, selectedCategory)
    ensures search == "" && selectedCategory == "" ==> r == products
  {
    var bySearch := if search != "" then Filter(products, (p: Product) => MatchesSearch(p, search)) else products;
    var byCategory := if selectedCategory != "" then Filter(bySearch, (p: Product) => p.category == selectedCategory) else bySearch;
    assert IsSubsequence(byCategory, products) by {
      if search != "" {
        FilterIsSubsequence(products, (p: Product) => MatchesSearch(p, search));
      } else {
        ReflexiveSubsequence(products);
      }
      if selectedCategory != "" {
        FilterIsSubsequence(bySearch, (p: Product) => p.category == selectedCategory);
        IsSubsequenceTransitive(byCategory, bySearch, products);
      }
    }
    byCategory
  }

  lemma {:induction false} ReflexiveSubsequence(s: seq<Product>)
    ensures IsSubsequence(s, s)
  {
    if s != [] {
      ReflexiveSubsequence(s[1..]);
    }
  }

  /** The search ignores letter case: searching for a text and for its
      lowered form lists the same products. */
  lemma SearchIgnoresCase(products: seq<Product>, search: string, selectedCategory: string)
    ensures FilterProducts(products, search, selectedCategory) == FilterProducts(products, Lower(search), selectedCategory)
  {
    LowerIdempotent(search);
    assert forall p :: MatchesSearch(p, search) == MatchesSearch(p, Lower(search));
    FilterCongruent(products, p => MatchesSearch(p, search), p => MatchesSearch(p, Lower(search)));
  }

  /** `[...new Set(products.map(p => p.category))]`: every product category
      once, in the order of first occurrence. */
  function UniqueCategories(products: seq<Product>): (r: seq<string>)
    ensures forall c :: c in r <==> c in CategoryColumn(products)
    ensures NoDuplicates(r)
    ensures InFirstOccurrenceOrder(r, CategoryColumn(products))
  {
    DedupFirstOccurrenceOrder(CategoryColumn(products));
    Dedup(CategoryColumn(products))
  }

  /** The card shows the product image only when it is a data URL. */
  function CardImage(image: string): (src: string)
    ensures StartsWith(image, DataImagePrefix) ==> src == image
    ensures !StartsWith(image, DataImagePrefix) ==> src == Placeholder
    ensures StartsWith(src, DataImagePrefix) || src == Placeholder
  {
    if image != "" && StartsWith(image, DataImagePrefix) then image else Placeholder
  }

  /** The body of the update request: `{ sizes: selectedSize[id], colors: selectedColor[id] }`;
      a missing selection is `undefined` (None). */
  datatype UpdatePayload = UpdatePayload(sizes: Option<string>, colors: Option<string>)

  function Selection(m: map<string, string>, id: string): (v: Option<string>)
    ensures v.Some? <==> id in m
    ensures v.Some? ==> v.value == m[id]
  {
    if id in m then Some(m[id]) else None
  }

  function PayloadFor(selectedSize: map<string, string>, selectedColor: map<string, string>, productId: string): (r: UpdatePayload)
    ensures r.sizes == Selection(selectedSize, productId)
    ensures r.colors == Selection(selectedColor, productId)
  {
    UpdatePayload(Selection(selectedSize, productId), Selection(selectedColor, productId))
  }

  /** The payload for a product depends only on that product's entries:
      selecting a size for `id` puts it in `id`'s payload and leaves the
      payload of every other product as it was. */
  lemma SelectionIsPerProduct(sizes: map<string, string>, colors: map<string, string>, id: string, size: string, other: string)
    ensures PayloadFor(sizes[id := size], colors, id).sizes == Some(size)
    ensures PayloadFor(sizes[id := size], colors, id).colors == PayloadFor(sizes, colors, id).colors
    ensures other != id ==> PayloadFor(sizes[id := size], colors, other) == PayloadFor(sizes, colors, other)
  {
  }

  const SizeFallback := "XL"
  const ColorFallback := "black"

  /** The captions under a card, `selectedSize[id] || "XL"` and
      `selectedColor[id] || "black"`: the product's selection when it is
      present and non-empty, else the fallback. */
  function Caption(selection: map<string, string>, id: string, fallback: string): (c: string)
    ensures id in selection && selection[id] != "" ==> c == selection[id]
    ensures !(id in selection && selection[id] != "") ==> c == fallback
  {
    if id in selection && selection[id] != "" then selection[id] else fallback
  }

  /** The page's state. */
  class ProductListPage {
    var products: seq<Product>
    var filtered: seq<Product>
    var search: string
    var selectedCategory: string
    var selectedSize: map<string, string>
    var selectedColor: map<string, string>
    var snackbar: Snackbar

    /** Once the filter effect has run, `filtered` is the filter of the current inputs. */
    ghost predicate Valid()
      reads this
    {
      filtered == FilterProducts(products, search, selectedCategory)
    }

    constructor ()
      ensures Valid()
      ensures products == [] && filtered == [] && search == "" && selectedCategory == ""
      ensures selectedSize == map[] && selectedColor == map[] && !snackbar.open
    {
      products, filtered := [], [];
      search, selectedCategory := "", "";
      selectedSize, selectedColor := map[], map[];
      snackbar := ClosedSnackbar(Success);
    }

    /** `fetchProducts`: on success the list is replaced and the effect
        re-filters it; on failure only the snackbar changes. */
    method ApplyFetch(outcome: Response<seq<Product>>)
      requires Valid()
      modifies this
      ensures Valid()
      ensures search == old(search) && selectedCategory == old(selectedCategory)
      ensures selectedSize == old(selectedSize) && selectedColor == old(selectedColor)
      ensures outcome.Ok? ==> products == outcome.data && snackbar == old(snackbar)
      ensures outcome.Failed? ==> products == old(products) && snackbar == Show("Failed to fetch products", Error)
    {
      match outcome
      case Ok(data) =>
        products := data;
        filtered := FilterProducts(products, search, selectedCategory);
      case Failed(_) =>
        snackbar := Show("Failed to fetch products", Error);
    }

    method SetSearch(text: string)
      requires Valid()
      modifies this
      ensures Valid()
      ensures search == text
      ensures products == old(products) && selectedCategory == old(selectedCategory)
      ensures selectedSize == old(selectedSize) && selectedColor == old(selectedColor) && snackbar == old(snackbar)
    {
      search := text;
      filtered := FilterProducts(products, search, selectedCategory);
    }

    method SetCategory(category: string)
      requires Valid()
      modifies this
      ensures Valid()
      ensures selectedCategory == category
      ensures products == old(products) && search == old(search)
      ensures selectedSize == old(selectedSize) && selectedColor == old(selectedColor) && snackbar == old(snackbar)
    {
      selectedCategory := category;
      filtered := FilterProducts(products, search, selectedCategory);
    }

    /** `handleSizeSelect(id, size)`: only `id`'s entry changes. */
    method SelectSize(id: string, size: string)
      modifies this
      ensures selectedSize.Keys == old(selectedSize).Keys + {id}
      ensures selectedSize[id] == size
      ensures forall k :: k in old(selectedSize) && k != id ==> selectedSize[k] == old(selectedSize)[k]
      ensures products == old(products) && filtered == old(filtered) && search == old(search)
      ensures selectedCategory == old(selectedCategory) && selectedColor == old(selectedColor) && snackbar == old(snackbar)
    {
      selectedSize := selectedSize[id := size];
    }

    /** `handleColorSelect(id, color)`: only `id`'s entry changes. */
    method SelectColor(id: string, color: string)
      modifies this
      ensures selectedColor.Keys == old(selectedColor).Keys + {id}
      ensures selectedColor[id] == color
      ensures forall k :: k in old(selectedColor) && k != id ==> selectedColor[k] == old(selectedColor)[k]
      ensures products == old(products) && filtered == old(filtered) && search == old(search)
      ensures selectedCategory == old(selectedCategory) && selectedSize == old(selectedSize) && snackbar == old(snackbar)
    {
      selectedColor := selectedColor[id := color];
    }

    /** `handleSubmitUpdate(productId)`: sends that product's selections; on
        success announces it and refetches, on failure announces the failure. */
    method SubmitUpdate(productId: string, outcome: Response<()>, refetch: Response<seq<Product>>)
      returns (payload: UpdatePayload)
      requires Valid()
      modifies this
      ensures Valid()
      ensures payload == PayloadFor(old(selectedSize), old(selectedColor), productId)
      ensures selectedSize == old(selectedSize) && selectedColor == old(selectedColor)
      ensures search == old(search) && selectedCategory == old(selectedCategory)
      ensures outcome.Failed? ==> products == old(products) && snackbar == Show("Update failed", Error)
      ensures outcome.Ok? && refetch.Ok? ==> products == refetch.data && snackbar == Show("Product updated", Success)
      ensures outcome.Ok? && refetch.Failed? ==> products == old(products) && snackbar == Show("Failed to fetch products", Error)
    {
      payload := PayloadFor(selectedSize, selectedColor, productId);
      if outcome.Ok? {
        snackbar := Show("Product updated", Success);
        ApplyFetch(refetch);
      } else {
        snackbar := Show("Update failed", Error);
      }
    }

    /** `updateStock(id, action)`: the stock buttons of a card. On success the
        list is refetched and the change announced; the refetch's own failure
        notice replaces the announcement when it arrives. */
    method UpdateStock(id: string, action: StockAction, outcome: Response<()>, refetch: Response<seq<Product>>)
      requires Valid()
      modifies this
      ensures Valid()
      ensures selectedSize == old(selectedSize) && selectedColor == old(selectedColor)
      ensures search == old(search) && selectedCategory == old(selectedCategory)
      ensures outcome.Failed? ==> products == old(products) && snackbar == Show("Stock update failed", Error)
      ensures outcome.Ok? && refetch.Ok? ==> products == refetch.data && snackbar == Show(StockMessage(action), Success)
      ensures outcome.Ok? && refetch.Failed? ==> products == old(products) && snackbar == Show("Failed to fetch products", Error)
    {
      if outcome.Ok? {
        snackbar := Show(StockMessage(action), Success);
        ApplyFetch(refetch);
      } else {
        snackbar := Show("Stock update failed", Error);
      }
    }
  }
}
