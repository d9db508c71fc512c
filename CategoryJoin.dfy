/** The category join of the product service: every product of the latest product
    list is rebuilt against the latest category list (`_rebuildProduct`, applied
    to the whole list by `ps.map`). */
module CategoryJoin {
  import opened Wrappers
  import opened Entities

  /** JavaScript truthiness of an optional price: `undefined` and `0` are falsy. */
  predicate Truthy(price: Option<real>) {
    price.Some? && price.value != 0.0
  }

  /** The price a rebuilt product carries: half as much again as the stored price,
      or 0 for a falsy one. */
  function RebuildPrice(price: Option<real>): (r: real)
    ensures r == 0.0 <==> !Truthy(price)
    ensures Truthy(price) ==> r == price.value * 1.5
    ensures price.Some? && price.value > 0.0 ==> r > price.value
  {
    if Truthy(price) then price.value * 1.5 else 0.0
  }

  /** Whether category `c` is the one a product with `categoryId` refers to
      (`p.categoryId === c.id`; an absent id matches nothing). */
  predicate Refers(categoryId: Option<int>, c: ProductCategory) {
    categoryId == Some(c.id)
  }

  /** The name of the first category that `categoryId` refers to, or none. */
  function CategoryName(cs: seq<ProductCategory>, categoryId: Option<int>): (r: Option<string>)
    ensures r.None? <==> forall j :: 0 <= j < |cs| ==> !Refers(categoryId, cs[j])
    ensures r.Some? ==>
      exists i :: IsFirstMatch(cs, c => Refers(categoryId, c), i) && r.value == cs[i].name
    ensures categoryId.None? || cs == [] ==> r.None?
  {
    match FirstIndex(cs, c => Refers(categoryId, c))
    case None => None
    case Some(i) =>
      assert IsFirstMatch(cs, c => Refers(categoryId, c), i);
      Some(cs[i].name)
  }

  /** `q` agrees with `p` on every field that the join does not derive. */
  predicate SameStoredFields(p: Product, q: Product) {
    p.id == q.id && p.productName == q.productName && p.productCode == q.productCode &&
    p.description == q.description && p.categoryId == q.categoryId &&
    p.quantityInStock == q.quantityInStock && p.supplierIds == q.supplierIds
  }

  /** `_rebuildProduct`: a copy of `p` with price, category name and search key derived. */
  function Rebuild(p: Product, cs: seq<ProductCategory>): (r: Product)
    ensures SameStoredFields(p, r)
    ensures r.price == Some(RebuildPrice(p.price))
    ensures r.category == CategoryName(cs, p.categoryId)
    ensures r.searchKey == Some([p.productName])
  {
    p.(price := Some(RebuildPrice(p.price)),
       category := CategoryName(cs, p.categoryId),
       searchKey := Some([p.productName]))
  }

  /** The joined list: each product rebuilt, in the same order (`ps.map(...)`). */
  function RebuildAll(ps: seq<Product>, cs: seq<ProductCategory>): (r: seq<Product>)
    ensures |r| == |ps|
    ensures forall i :: 0 <= i < |ps| ==> r[i] == Rebuild(ps[i], cs)
  {
    if ps == [] then [] else [Rebuild(ps[0], cs)] + RebuildAll(ps[1..], cs)
  }

  /** The stored `category` and `searchKey` are never authoritative: two products
      that differ only in those fields rebuild to the same product. */
  lemma RebuildIgnoresDerivedFields(p: Product, q: Product, cs: seq<ProductCategory>)
    requires SameStoredFields(p, q) && p.price == q.price
    ensures Rebuild(p, cs) == Rebuild(q, cs)
  {
  }

  /** The join distributes over concatenation of product lists. */
  lemma {:induction false} RebuildAllAppend(a: seq<Product>, b: seq<Product>, cs: seq<ProductCategory>)
    ensures RebuildAll(a + b, cs) == RebuildAll(a, cs) + RebuildAll(b, cs)
  {
    var l, r := RebuildAll(a + b, cs), RebuildAll(a, cs) + RebuildAll(b, cs);
    assert |l| == |r|;
    forall i | 0 <= i < |l| ensures l[i] == r[i] {
      if i < |a| { assert (a + b)[i] == a[i]; } else { assert (a + b)[i] == b[i - |a|]; }
    }
  }
}
