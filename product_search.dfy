/** What the product lists of the Products and Stock alerts pages share: the local,
    case-insensitive search filter and the query parameters of the product request. */
module ProductSearch {
  import opened Js
  import opened Entities

  /** The filter's test: the lower-cased term occurs in the lower-cased nombre or sku. */
  predicate MatchesSearch(p: Product, term: string) {
    Includes(ToLower(p.nombre), ToLower(term)) || Includes(ToLower(p.sku), ToLower(term))
  }

  /** `products.filter(p => MatchesSearch(p, searchTerm))`. */
  function FilterBySearch(ps: seq<Product>, term: string): (r: seq<Product>)
    ensures IsSubsequence(r, ps)
    ensures forall p :: p in r <==> p in ps && MatchesSearch(p, term)
    ensures forall p | MatchesSearch(p, term) :: multiset(r)[p] == multiset(ps)[p]
    ensures |r| <= |ps|
  {
    if ps == [] then []
    else
      var rest := FilterBySearch(ps[1..], term);
      assert ps == [ps[0]] + ps[1..];
      if MatchesSearch(ps[0], term) then
        assert ([ps[0]] + rest)[1..] == rest;
        [ps[0]] + rest
      else
        rest
  }

  /** The empty term matches every product, so it keeps the whole list. */
  lemma {:induction false} FilterEmptyTerm(ps: seq<Product>)
    ensures FilterBySearch(ps, "") == ps
  {
    if ps != [] {
      IncludesEmpty(ToLower(ps[0].nombre));
      FilterEmptyTerm(ps[1..]);
      assert ps == [ps[0]] + ps[1..];
    }
  }

  lemma LowerOfUpper(s: string)
    ensures ToLower(ToUpper(s)) == ToLower(s)
  {
  }

  /** Typing the term in capitals finds the same products. */
  lemma SearchIgnoresCase(ps: seq<Product>, term: string)
    ensures FilterBySearch(ps, ToUpper(term)) == FilterBySearch(ps, term)
    decreases |ps|
  {
    LowerOfUpper(term);
    if ps != [] {
      SearchIgnoresCase(ps[1..], term);
    }
  }

  /** `const params = {}; if (selectedWarehouse) params.warehouse_id = selectedWarehouse;` */
  method BuildParams(selectedWarehouse: string) returns (params: map<string, string>)
    ensures params.Keys <= {"warehouse_id"}
    ensures "warehouse_id" in params <==> selectedWarehouse != ""
    ensures "warehouse_id" in params ==> params["warehouse_id"] == selectedWarehouse
  {
    params := map[];
    if selectedWarehouse != "" {
      params := params["warehouse_id" := selectedWarehouse];
    }
  }
}
