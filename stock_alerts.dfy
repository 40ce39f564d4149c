/** The Stock alerts page (src/pages/StockAlerts.jsx): its own copy of the status rule,
    the four counters computed when the products arrive, the local search filter and
    the page state that `fetchData` and the two inputs change. */
module StockAlerts {
  import opened Wrappers
  import opened Js
  import opened Entities
  import opened Formatters
  import opened ProductSearch

  /** `getStatus(product)`, written again in the page. */
  function GetStatus(p: Product): (st: StockStatus)
    ensures st == GetStockStatus(p.stock, p.stock_minimo, p.stock_maximo)
  {
    if p.stock <= p.stock_minimo then Bajo
    else if p.stock >= p.stock_maximo then Suficiente
    else Medio
  }

  /** The class of the Stock cell: red for bajo, yellow for medio, green otherwise. */
  function StockCellColor(p: Product): (color: string)
    ensures color == GetStockColor(p.stock, p.stock_minimo, p.stock_maximo)
  {
    if GetStatus(p) == Bajo then Red
    else if GetStatus(p) == Medio then Yellow
    else Green
  }

  /** `productsData.filter(p => p.stock <= p.stock_minimo).length`. */
  function CountLow(ps: seq<Product>): (n: nat)
    ensures n <= |ps|
  {
    if ps == [] then 0 else (if ps[0].stock <= ps[0].stock_minimo then 1 else 0) + CountLow(ps[1..])
  }

  /** `productsData.filter(p => p.stock >= p.stock_maximo).length`. */
  function CountHigh(ps: seq<Product>): (n: nat)
    ensures n <= |ps|
  {
    if ps == [] then 0 else (if ps[0].stock >= ps[0].stock_maximo then 1 else 0) + CountHigh(ps[1..])
  }

  /** The number of products whose status is `st`. */
  function CountStatus(ps: seq<Product>, st: StockStatus): (n: nat)
    ensures n <= |ps|
  {
    if ps == [] then 0 else (if GetStatus(ps[0]) == st then 1 else 0) + CountStatus(ps[1..], st)
  }

  /** The number of products that pass both tests: stock at or below the minimum and
      at or above the maximum, which needs `stock_minimo >= stock_maximo`. */
  function CountBoth(ps: seq<Product>): (n: nat)
    ensures n <= |ps|
  {
    if ps == [] then 0
    else
      var p := ps[0];
      (if p.stock <= p.stock_minimo && p.stock >= p.stock_maximo then 1 else 0) + CountBoth(ps[1..])
  }

  /** The `stats` state. */
  datatype Stats = Stats(bajo: int, medio: int, suficiente: int, total: int)

  /** The counters `fetchData` stores: bajo and suficiente are two independent filters
      and medio is what remains of the total. */
  function ComputeStats(ps: seq<Product>): (s: Stats)
    ensures s.total == |ps|
    ensures s.bajo + s.medio + s.suficiente == s.total
    ensures 0 <= s.bajo <= s.total && 0 <= s.suficiente <= s.total
  {
    var bajo := CountLow(ps);
    var suficiente := CountHigh(ps);
    Stats(bajo, |ps| - bajo - suficiente, suficiente, |ps|)
  }

  /** bajo is the number of bajo rows: the first test of `getStatus` is the same filter. */
  lemma {:induction false} LowIsBajo(ps: seq<Product>)
    ensures CountLow(ps) == CountStatus(ps, Bajo)
  {
    if ps != [] {
      LowIsBajo(ps[1..]);
    }
  }

  /** suficiente counts the suficiente rows plus the ones counted as bajo as well. */
  lemma {:induction false} HighIsSuficientePlusOverlap(ps: seq<Product>)
    ensures CountHigh(ps) == CountStatus(ps, Suficiente) + CountBoth(ps)
  {
    if ps != [] {
      HighIsSuficientePlusOverlap(ps[1..]);
    }
  }

  lemma {:induction false} StatusesPartition(ps: seq<Product>)
    ensures CountStatus(ps, Bajo) + CountStatus(ps, Medio) + CountStatus(ps, Suficiente) == |ps|
  {
    if ps != [] {
      StatusesPartition(ps[1..]);
    }
  }

  /** medio falls short of the number of medio rows by exactly the doubly counted ones. */
  lemma MedioMissesOverlap(ps: seq<Product>)
    ensures ComputeStats(ps).medio == CountStatus(ps, Medio) - CountBoth(ps)
  {
    LowIsBajo(ps);
    HighIsSuficientePlusOverlap(ps);
    StatusesPartition(ps);
  }

  lemma {:induction false} NoOverlapWhenOrdered(ps: seq<Product>)
    requires forall i | 0 <= i < |ps| :: ps[i].stock_minimo < ps[i].stock_maximo
    ensures CountBoth(ps) == 0
  {
    if ps != [] {
      NoOverlapWhenOrdered(ps[1..]);
    }
  }

  /** With every minimum below its maximum, each counter is the number of rows shown
      with that status, and medio is not negative. */
  lemma StatsMatchStatuses(ps: seq<Product>)
    requires forall i | 0 <= i < |ps| :: ps[i].stock_minimo < ps[i].stock_maximo
    ensures ComputeStats(ps).bajo == CountStatus(ps, Bajo)
    ensures ComputeStats(ps).medio == CountStatus(ps, Medio) >= 0
    ensures ComputeStats(ps).suficiente == CountStatus(ps, Suficiente)
  {
    NoOverlapWhenOrdered(ps);
    LowIsBajo(ps);
    HighIsSuficientePlusOverlap(ps);
    MedioMissesOverlap(ps);
  }

  /** A product with stock 5, minimum 10 and maximum 5 is counted as bajo and as
      suficiente, and the page shows medio = -1. */
  lemma NegativeMedio()
    ensures ComputeStats([Product(1, "A-1", "Caja", 1, None, 5, 10, 5)]).medio == -1
  {
    var ps := [Product(1, "A-1", "Caja", 1, None, 5, 10, 5)];
    assert ps[1..] == [];
  }

  /** The page's state. `stats` is whatever `fetchData` last stored. */
  class StockAlertsPage {
    var products: seq<Product>
    var warehouses: seq<Warehouse>
    var loading: bool
    var selectedWarehouse: string
    var searchTerm: string
    var stats: Stats

    constructor()
      ensures products == [] && warehouses == []
      ensures loading && selectedWarehouse == "" && searchTerm == ""
      ensures stats == Stats(0, 0, 0, 0)
    {
      products := [];
      warehouses := [];
      loading := true;
      selectedWarehouse := "";
      searchTerm := "";
      stats := Stats(0, 0, 0, 0);
    }

    /** `fetchData`: the request's parameters are returned; `response` is the result of
        the two requests, None when either fails. On success the lists are stored and the
        counters are computed from the whole list; on failure nothing but `loading`
        changes. `loading` is false afterwards either way. */
    method FetchData(response: Option<(seq<Product>, seq<Warehouse>)>)
      returns (params: map<string, string>)
      modifies this
      ensures "warehouse_id" in params <==> selectedWarehouse != ""
      ensures "warehouse_id" in params ==> params["warehouse_id"] == selectedWarehouse
      ensures params.Keys <= {"warehouse_id"}
      ensures response.Some? ==>
                products == response.value.0 && warehouses == response.value.1
                && stats == ComputeStats(response.value.0)
      ensures response.None? ==>
                products == old(products) && warehouses == old(warehouses) && stats == old(stats)
      ensures !loading
      ensures selectedWarehouse == old(selectedWarehouse) && searchTerm == old(searchTerm)
    {
      loading := true;
      params := BuildParams(selectedWarehouse);
      if response.Some? {
        var (productsData, warehousesData) := response.value;
        products := productsData;
        warehouses := warehousesData;
        stats := ComputeStats(productsData);
      }
      loading := false;
    }

    /** Typing in the search box: only the term changes; the counters stay those of the
        whole fetched list. */
    method SetSearchTerm(term: string)
      modifies this
      ensures searchTerm == term
      ensures products == old(products) && warehouses == old(warehouses)
      ensures stats == old(stats) && loading == old(loading)
      ensures selectedWarehouse == old(selectedWarehouse)
    {
      searchTerm := term;
    }

    /** Choosing a warehouse in the selector (the effect then calls FetchData). */
    method SelectWarehouse(id: string)
      modifies this
      ensures selectedWarehouse == id
      ensures products == old(products) && warehouses == old(warehouses)
      ensures stats == old(stats) && loading == old(loading) && searchTerm == old(searchTerm)
    {
      selectedWarehouse := id;
    }

    /** `filteredProducts`, the rows of the table. */
    function FilteredProducts(): (r: seq<Product>)
      reads this
      ensures IsSubsequence(r, products)
      ensures forall p :: p in r <==> p in products && MatchesSearch(p, searchTerm)
      ensures searchTerm == "" ==> r == products
    {
      FilterEmptyTerm(products);
      FilterBySearch(products, searchTerm)
    }

    /** The warehouse selector is rendered only with more than one warehouse. */
    predicate ShowWarehouseSelector()
      reads this
      ensures ShowWarehouseSelector() <==> |warehouses| > 1
    {
      |warehouses| > 1
    }
  }
}
