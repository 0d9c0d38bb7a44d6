/** The product listing: an optional category filter and free-text search. */
module Catalog {
  import opened Wrappers
  import opened Strings
  import opened Tables
  import opened Store

  /** A listed product: the columns the listing selects (no promotion price). */
  datatype ProductRow = ProductRow(
    id: nat, name: string, category: string, store: string,
    price: int, rating: real, image: Option<string>)

  /** The pseudo-category that means "all categories". */
  const AllCategories := "Semua"

  /** The query parameters as the handler uses them. */
  datatype Params = Params(cat: string, text: string)

  /**
   * `category` trimmed, `q` trimmed and lower-cased, an absent parameter
   * read as the empty string.
   */
  function ParamsOf(category: Option<string>, q: Option<string>): (ps: Params)
    ensures IsTrimmed(ps.cat) && IsTrimmed(ps.text)
    ensures ToLower(ps.text) == ps.text
    ensures category.None? ==> ps.cat == ""
    ensures q.None? ==> ps.text == ""
  {
    ToLowerKeepsTrimmed(Trim(OrEmpty(q)));
    ToLowerIdempotent(Trim(OrEmpty(q)));
    Params(Trim(OrEmpty(category)), ToLower(Trim(OrEmpty(q))))
  }

  /** A product that passes both filters. */
  predicate Matches(p: Product, ps: Params)
  {
    (ps.cat == "" || ps.cat == AllCategories || p.category == ps.cat) &&
    (ps.text == "" || Contains(ToLower(p.name), ps.text) || Contains(ToLower(p.store), ps.text))
  }

  /** One condition the handler pushes onto its `where` list. */
  datatype Clause = CategoryIs(cat: string) | NameOrStoreHas(text: string)

  /** `category = ?`, and `(LOWER(name) LIKE ? OR LOWER(store) LIKE ?)` with `%q%`. */
  predicate Holds(c: Clause, p: Product)
  {
    match c
    case CategoryIs(cat) => p.category == cat
    case NameOrStoreHas(text) => Contains(ToLower(p.name), text) || Contains(ToLower(p.store), text)
  }

  /**
   * The `where` list in the order it is pushed: the category test for a
   * non-empty category other than "Semua", then the text test for a
   * non-empty query.
   */
  function Where(ps: Params): (w: seq<Clause>)
    ensures |w| <= 2
  {
    (if ps.cat != "" && ps.cat != AllCategories then [CategoryIs(ps.cat)] else []) +
    (if ps.text != "" then [NameOrStoreHas(ps.text)] else [])
  }

  /** The clauses joined with `AND`; with none there is no WHERE and every product passes. */
  function Filter(ps: Params): Product -> bool
  {
    var w := Where(ps);
    (p: Product) => forall i :: 0 <= i < |w| ==> Holds(w[i], p)
  }

  /** The assembled clause holds exactly for the matching products. */
  lemma FilterIsMatches(ps: Params, p: Product)
    ensures Filter(ps)(p) == Matches(p, ps)
  {
    var w := Where(ps);
    var byCategory := ps.cat != "" && ps.cat != AllCategories;
    if byCategory {
      assert w[0] == CategoryIs(ps.cat);
    }
    if ps.text != "" {
      assert w[|w| - 1] == NameOrStoreHas(ps.text);
    }
  }

  function RowOf(id: nat, p: Product): ProductRow
  {
    ProductRow(id, p.name, p.category, p.store, p.price, p.rating, p.image)
  }

  /** `listProducts` on prepared parameters: the matching products, newest (highest id) first. */
  function ListProducts(products: Table<Product>, ps: Params): (rows: seq<ProductRow>)
    ensures forall i :: 0 <= i < |rows| ==>
              rows[i].id in products.rows && rows[i] == RowOf(rows[i].id, products.rows[rows[i].id])
    ensures forall i, j :: 0 <= i < j < |rows| ==> rows[i].id > rows[j].id
  {
    var ids := Select(products, Filter(ps));
    seq(|ids|, i requires 0 <= i < |ids| => RowOf(ids[i], products.rows[ids[i]]))
  }

  /** `listProducts` on the raw query parameters. */
  function ListProductsQuery(products: Table<Product>, category: Option<string>, q: Option<string>): seq<ProductRow>
  {
    ListProducts(products, ParamsOf(category, q))
  }

  /** `id` is among the listed rows. */
  predicate Listed(rows: seq<ProductRow>, id: nat)
  {
    exists i :: 0 <= i < |rows| && rows[i].id == id
  }

  /**
   * A product is listed exactly when the category is empty, "Semua" or equal
   * to its category, and the query is empty or occurs in its lower-cased name
   * or store.
   */
  lemma ListedIff(products: Table<Product>, ps: Params, id: nat)
    requires products.Valid()
    ensures Listed(ListProducts(products, ps), id) <==> id in products.rows && Matches(products.rows[id], ps)
  {
    var f := Filter(ps);
    var rows := ListProducts(products, ps);
    var ids := Select(products, f);
    SelectComplete(products, f);
    assert |rows| == |ids| && forall i :: 0 <= i < |rows| ==> rows[i].id == ids[i];
    if id in products.rows {
      FilterIsMatches(ps, products.rows[id]);
      if f(products.rows[id]) {
        var i :| 0 <= i < |ids| && ids[i] == id;
        assert rows[i].id == id;
      }
    }
  }

  /** Without a category or a query, every product is listed. */
  lemma NoFilterListsAll(products: Table<Product>, id: nat)
    requires products.Valid() && id in products.rows
    ensures Listed(ListProductsQuery(products, None, None), id)
  {
    ListedIff(products, ParamsOf(None, None), id);
  }

  /** The two filters combine with AND: listed under both exactly when listed under each alone. */
  lemma FiltersConjoin(products: Table<Product>, ps: Params, id: nat)
    requires products.Valid()
    ensures Listed(ListProducts(products, ps), id) <==>
            Listed(ListProducts(products, ps.(text := "")), id) && Listed(ListProducts(products, ps.(cat := "")), id)
  {
    ListedIff(products, ps, id);
    ListedIff(products, ps.(text := ""), id);
    ListedIff(products, ps.(cat := ""), id);
  }
}
