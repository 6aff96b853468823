/** The dashboard's inventory chart: three sums over the product list and the
    pie chart built from them. JavaScript adds `undefined` as NaN, so a sum is
    `None` (NaN) as soon as one product lacks the field it adds. */
module Dashboard {
  import opened Common
  import opened Catalog
  import StockManagement

  const Colors := ["#ff0000", "#00c851", "#33b5e5"]

  /** `a + b` on numbers that may be NaN (None). */
  function Add(a: Option<int>, b: Option<int>): (r: Option<int>)
    ensures r.Some? <==> a.Some? && b.Some?
    ensures r.Some? ==> r.value == a.value + b.value
  {
    if a.Some? && b.Some? then Some(a.value + b.value) else None
  }

  /** `a - b` on numbers that may be NaN (None). */
  function Sub(a: Option<int>, b: Option<int>): (r: Option<int>)
    ensures r.Some? <==> a.Some? && b.Some?
    ensures r.Some? ==> r.value == a.value - b.value
  {
    if a.Some? && b.Some? then Some(a.value - b.value) else None
  }

  /** `data.reduce((acc, item) => acc + item.inStock, 0)`: a number exactly
      when every product has `inStock`, and then the same sum the stock page's
      footer computes with `|| 0`. */
  function TotalStockIn(data: seq<Product>): (total: Option<int>)
    ensures total.Some? <==> forall i :: 0 <= i < |data| ==> data[i].inStock.Some?
    ensures total.Some? ==> total.value == StockManagement.TotalCurrentStock(data)
    decreases |data|
  {
    if data == [] then Some(0) else Add(TotalStockIn(data[..|data| - 1]), data[|data| - 1].inStock)
  }

  /** `data.reduce((acc, item) => acc + item.stockQuantity, 0)`: a number
      exactly when every product has `stockQuantity`, and not negative when
      no figure is. */
  function TotalStockOut(data: seq<Product>): (total: Option<int>)
    ensures total.Some? <==> forall i :: 0 <= i < |data| ==> data[i].stockQuantity.Some?
    ensures (forall i :: 0 <= i < |data| ==> data[i].stockQuantity.Some? && data[i].stockQuantity.value >= 0) ==>
      total.Some? && total.value >= 0
    decreases |data|
  {
    if data == [] then Some(0) else Add(TotalStockOut(data[..|data| - 1]), data[|data| - 1].stockQuantity)
  }

  /** `data.reduce((acc, item) => acc + (item.inStock - item.stockQuantity), 0)`:
      a number exactly when every product has both figures, and not negative
      when every product has at least as much stock in as stock out. */
  function TotalSold(data: seq<Product>): (total: Option<int>)
    ensures total.Some? <==> forall i :: 0 <= i < |data| ==> data[i].inStock.Some? && data[i].stockQuantity.Some?
    ensures (forall i :: 0 <= i < |data| ==>
               data[i].inStock.Some? && data[i].stockQuantity.Some? && data[i].inStock.value >= data[i].stockQuantity.value) ==>
      total.Some? && total.value >= 0
    decreases |data|
  {
    if data == [] then Some(0)
    else Add(TotalSold(data[..|data| - 1]), Sub(data[|data| - 1].inStock, data[|data| - 1].stockQuantity))
  }

  /** Sold is Stock In minus Stock Out, NaN exactly when either of them is. */
  lemma {:induction false} SoldIsStockInMinusStockOut(data: seq<Product>)
    ensures TotalSold(data) == Sub(TotalStockIn(data), TotalStockOut(data))
    decreases |data|
  {
    if data != [] {
      SoldIsStockInMinusStockOut(data[..|data| - 1]);
    }
  }

  datatype ChartEntry = ChartEntry(name: string, value: Option<int>)

  /** The pie chart's data: Stock In, Stock Out, Sold, in that order. */
  function ChartData(data: seq<Product>): (r: seq<ChartEntry>)
    ensures |r| == 3
    ensures r[0] == ChartEntry("Stock In", TotalStockIn(data))
    ensures r[1] == ChartEntry("Stock Out", TotalStockOut(data))
    ensures r[2].name == "Sold" && r[2].value == Sub(r[0].value, r[1].value)
  {
    SoldIsStockInMinusStockOut(data);
    [ ChartEntry("Stock In", TotalStockIn(data)),
      ChartEntry("Stock Out", TotalStockOut(data)),
      ChartEntry("Sold", TotalSold(data)) ]
  }

  /** `stockData` after the fetch: the chart data on success; on failure the
      initial empty array stays. */
  function StockData(outcome: Response<seq<Product>>): (r: seq<ChartEntry>)
    ensures outcome.Failed? ==> r == []
    ensures outcome.Ok? ==> r == ChartData(outcome.data)
  {
    match outcome
    case Ok(data) => ChartData(data)
    case Failed(_) => []
  }

  /** `COLORS[index % COLORS.length]`: slice `i` takes the `i mod 3`-th colour. */
  function CellColor(index: nat): (c: string)
    ensures c == Colors[index % 3]
    ensures index < 3 ==> c == Colors[index]
  {
    Colors[index % |Colors|]
  }
}
