/** The entities the product service composes, and the first-match search that
    `Array.prototype.find` performs on them. */
module Entities {
  import opened Wrappers

  /** A product as delivered by the products endpoint. `category` and `searchKey`
      are derived fields that the category join recomputes. */
  datatype Product = Product(
    id: int,
    productName: string,
    productCode: string,
    description: string,
    price: Option<real>,
    categoryId: Option<int>,
    category: Option<string>,
    quantityInStock: Option<int>,
    supplierIds: Option<seq<int>>,
    searchKey: Option<seq<string>>)

  datatype ProductCategory = ProductCategory(id: int, name: string)

  /** A supplier; apart from its id its fields are opaque to the service. */
  datatype Supplier = Supplier(id: int, name: string)

  /** The index of the first element of `s` that satisfies `matches`, if any. */
  function FirstIndex<T>(s: seq<T>, matches: T -> bool): (r: Option<nat>)
    ensures r.Some? ==> r.value < |s| && matches(s[r.value])
    ensures r.Some? ==> forall j :: 0 <= j < r.value ==> !matches(s[j])
    ensures r.None? <==> forall j :: 0 <= j < |s| ==> !matches(s[j])
  {
    if s == [] then None
    else if matches(s[0]) then Some(0)
    else
      match FirstIndex(s[1..], matches)
      case None => None
      case Some(k) => Some(k + 1)
  }

  /** `i` is the position of the first element of `s` that satisfies `matches`. */
  ghost predicate IsFirstMatch<T>(s: seq<T>, matches: T -> bool, i: int) {
    0 <= i < |s| && matches(s[i]) && forall j :: 0 <= j < i ==> !matches(s[j])
  }
}
