/** The Products page (src/pages/Products.jsx): the list request with its warehouse
    parameter, the search request, the local filter and which controls are offered. */
module ProductsPage {
  import opened Wrappers
  import opened Js
  import opened Entities
  import opened ProductSearch

  /** The product request a search sends: the plain list, or a server-side search. */
  datatype ProductRequest =
    | ListRequest(params: map<string, string>)
    | SearchRequest(params: map<string, string>)

  /** What the toolbar and table offer. */
  datatype Controls = Controls(warehouseSelector: bool, addButton: bool, editAction: bool, deleteAction: bool)

  const LoadError := "Error al cargar los datos"

  class ProductsPage {
    var products: seq<Product>
    var categories: seq<Category>
    var warehouses: seq<Warehouse>
    var loading: bool
    var searchTerm: string
    var selectedWarehouse: string
    /** `isAdmin` of the session, read through `useAuth`. */
    const isAdmin: bool

    constructor(isAdmin: bool)
      ensures products == [] && categories == [] && warehouses == []
      ensures loading && searchTerm == "" && selectedWarehouse == ""
      ensures this.isAdmin == isAdmin
    {
      products := [];
      categories := [];
      warehouses := [];
      loading := true;
      searchTerm := "";
      selectedWarehouse := "";
      this.isAdmin := isAdmin;
    }

    /** `fetchData`: `response` is the result of the three requests, None when one fails,
        and then the alert is returned and the lists are kept. */
    method FetchData(response: Option<(seq<Product>, seq<Category>, seq<Warehouse>)>)
      returns (params: map<string, string>, alert: Option<string>)
      modifies this
      ensures "warehouse_id" in params <==> selectedWarehouse != ""
      ensures "warehouse_id" in params ==> params["warehouse_id"] == selectedWarehouse
      ensures params.Keys <= {"warehouse_id"}
      ensures response.Some? ==>
                alert == None && products == response.value.0
                && categories == response.value.1 && warehouses == response.value.2
      ensures response.None? ==>
                alert == Some(LoadError) && products == old(products)
                && categories == old(categories) && warehouses == old(warehouses)
      ensures !loading
      ensures searchTerm == old(searchTerm) && selectedWarehouse == old(selectedWarehouse)
    {
      loading := true;
      params := BuildParams(selectedWarehouse);
      alert := None;
      if response.Some? {
        var (productsRes, categoriesRes, warehousesRes) := response.value;
        products := productsRes;
        categories := categoriesRes;
        warehouses := warehousesRes;
      } else {
        alert := Some(LoadError);
      }
      loading := false;
    }

    /** `handleSearch`, run on Enter. A term that is blank after trimming reloads the list
        exactly as FetchData does (`listResponse` is that reload's result, and its alert
        is returned); any other term sends only `search`, with the untrimmed term and no
        warehouse, and a failed search changes nothing and raises no alert. */
    method HandleSearch(listResponse: Option<(seq<Product>, seq<Category>, seq<Warehouse>)>,
                        searchResponse: Option<seq<Product>>)
      returns (request: ProductRequest, alert: Option<string>)
      modifies this
      ensures IsBlank(old(searchTerm)) ==>
                && request.ListRequest?
                && ("warehouse_id" in request.params <==> selectedWarehouse != "")
                && ("warehouse_id" in request.params ==> request.params["warehouse_id"] == selectedWarehouse)
                && request.params.Keys <= {"warehouse_id"}
                && !loading
      ensures IsBlank(old(searchTerm)) && listResponse.Some? ==>
                && alert == None && products == listResponse.value.0
                && categories == listResponse.value.1 && warehouses == listResponse.value.2
      ensures IsBlank(old(searchTerm)) && listResponse.None? ==>
                && alert == Some(LoadError) && products == old(products)
                && categories == old(categories) && warehouses == old(warehouses)
      ensures !IsBlank(old(searchTerm)) ==> request == SearchRequest(map["search" := old(searchTerm)])
      ensures !IsBlank(old(searchTerm)) ==> alert == None
      ensures !IsBlank(old(searchTerm)) && searchResponse.Some? ==> products == searchResponse.value
      ensures !IsBlank(old(searchTerm)) && searchResponse.None? ==> products == old(products)
      ensures !IsBlank(old(searchTerm)) ==>
                categories == old(categories) && warehouses == old(warehouses)
                && loading == old(loading)
      ensures searchTerm == old(searchTerm) && selectedWarehouse == old(selectedWarehouse)
    {
      if IsBlank(searchTerm) {
        var params;
        params, alert := FetchData(listResponse);
        request := ListRequest(params);
        return;
      }
      request := SearchRequest(map["search" := searchTerm]);
      alert := None;
      if searchResponse.Some? {
        products := searchResponse.value;
      }
    }

    method SetSearchTerm(term: string)
      modifies this
      ensures searchTerm == term
      ensures products == old(products) && categories == old(categories)
      ensures warehouses == old(warehouses) && loading == old(loading)
      ensures selectedWarehouse == old(selectedWarehouse)
    {
      searchTerm := term;
    }

    /** Choosing a warehouse in the selector (the effect then calls FetchData). */
    method SelectWarehouse(id: string)
      modifies this
      ensures selectedWarehouse == id
      ensures products == old(products) && categories == old(categories)
      ensures warehouses == old(warehouses) && loading == old(loading)
      ensures searchTerm == old(searchTerm)
    {
      selectedWarehouse := id;
    }

    /** `filteredProducts`, the rows of the table. */
    function FilteredProducts(): (r: seq<Product>)
      reads this
      ensures IsSubsequence(r, products)
      ensures forall p :: p in r <==> p in products && MatchesSearch(p, searchTerm)
      ensures searchTerm == "" ==> r == products
    {
      FilterEmptyTerm(products);
      FilterBySearch(products, searchTerm)
    }

    /** The selector needs two warehouses; adding, editing and deleting need an admin. */
    function Offered(): (c: Controls)
      reads this
      ensures c.warehouseSelector <==> |warehouses| > 1
      ensures c.addButton == c.editAction == c.deleteAction == isAdmin
    {
      Controls(|warehouses| > 1, isAdmin, isAdmin, isAdmin)
    }
  }
}
