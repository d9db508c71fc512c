/** The product list component: the category selection, the category filter of
    `products$`, and the catch-and-report policy that sends a failure's message to
    the error channel and ends the failed stream without a value. */
module ProductList {
  import opened Wrappers
  import opened Entities

  /** The filter predicate: with no category selected (0) every product is shown,
      otherwise only those of the selected category. */
  predicate Shown(p: Product, selectedCategoryId: int): (b: bool)
    ensures b <==> selectedCategoryId == 0 || p.categoryId == Some(selectedCategoryId)
    ensures p.categoryId.None? ==> (b <==> selectedCategoryId == 0)
  {
    if selectedCategoryId != 0 then p.categoryId == Some(selectedCategoryId) else true
  }

  /** `products.filter(...)` with the predicate above. */
  function Filter(products: seq<Product>, selectedCategoryId: int): (r: seq<Product>)
    ensures |r| <= |products|
    ensures forall k :: 0 <= k < |r| ==> Shown(r[k], selectedCategoryId)
  {
    if products == [] then []
    else
      (if Shown(products[0], selectedCategoryId) then [products[0]] else [])
        + Filter(products[1..], selectedCategoryId)
  }

  /** The positions from `from` on whose products the filter keeps, in increasing order. */
  function KeptPositions(products: seq<Product>, selectedCategoryId: int, from: nat): (idx: seq<nat>)
    requires from <= |products|
    ensures forall k :: 0 <= k < |idx| ==> from <= idx[k] < |products|
    decreases |products| - from
  {
    if from == |products| then []
    else
      (if Shown(products[from], selectedCategoryId) then [from] else [])
        + KeptPositions(products, selectedCategoryId, from + 1)
  }

  /** `Filter(products[from..], id)[k]` is the product at the `k`-th kept position. */
  lemma {:induction false} KeptPositionsSelect(products: seq<Product>, selectedCategoryId: int, from: nat)
    requires from <= |products|
    ensures var r, idx := Filter(products[from..], selectedCategoryId), KeptPositions(products, selectedCategoryId, from);
      |idx| == |r| && forall k :: 0 <= k < |r| ==> r[k] == products[idx[k]]
    decreases |products| - from
  {
    if from < |products| {
      assert products[from..][0] == products[from];
      assert products[from..][1..] == products[from + 1..];
      KeptPositionsSelect(products, selectedCategoryId, from + 1);
    }
  }

  /** The kept positions are strictly increasing. */
  lemma {:induction false} KeptPositionsIncrease(products: seq<Product>, selectedCategoryId: int, from: nat)
    requires from <= |products|
    ensures forall a, b :: 0 <= a < b < |KeptPositions(products, selectedCategoryId, from)| ==>
      KeptPositions(products, selectedCategoryId, from)[a] < KeptPositions(products, selectedCategoryId, from)[b]
    decreases |products| - from
  {
    if from < |products| {
      KeptPositionsIncrease(products, selectedCategoryId, from + 1);
      var rest := KeptPositions(products, selectedCategoryId, from + 1);
      if Shown(products[from], selectedCategoryId) {
        var idx := [from] + rest;
        assert KeptPositions(products, selectedCategoryId, from) == idx;
        forall a, b | 0 <= a < b < |idx| ensures idx[a] < idx[b] {
          assert idx[b] == rest[b - 1] && rest[b - 1] > from;
          if a > 0 { assert idx[a] == rest[a - 1] && rest[a - 1] < rest[b - 1]; }
        }
      }
    }
  }

  /** A position is kept exactly when its product is shown. */
  lemma {:induction false} KeptPositionsExact(products: seq<Product>, selectedCategoryId: int, from: nat)
    requires from <= |products|
    ensures var idx := KeptPositions(products, selectedCategoryId, from);
      forall i :: from <= i < |products| ==> (i in idx <==> Shown(products[i], selectedCategoryId))
    decreases |products| - from
  {
    if from < |products| {
      KeptPositionsExact(products, selectedCategoryId, from + 1);
    }
  }

  /** The filter keeps exactly the shown products, as an order-preserving
      subsequence: `Filter(ps, id)[k]` is `ps[idx[k]]` for strictly increasing
      positions `idx`, and a position is kept exactly when its product is shown. */
  lemma FilterIsExactSubsequence(products: seq<Product>, selectedCategoryId: int)
    ensures var r, idx := Filter(products, selectedCategoryId), KeptPositions(products, selectedCategoryId, 0);
      |idx| == |r| &&
      (forall k :: 0 <= k < |r| ==> r[k] == products[idx[k]]) &&
      (forall a, b :: 0 <= a < b < |idx| ==> idx[a] < idx[b]) &&
      (forall i :: 0 <= i < |products| ==> (i in idx <==> Shown(products[i], selectedCategoryId)))
  {
    assert products[0..] == products;
    KeptPositionsSelect(products, selectedCategoryId, 0);
    KeptPositionsIncrease(products, selectedCategoryId, 0);
    KeptPositionsExact(products, selectedCategoryId, 0);
  }

  /** With no category selected the list passes through unchanged. */
  lemma {:induction false} NoSelectionShowsAll(products: seq<Product>)
    ensures Filter(products, 0) == products
  {
    if products != [] {
      NoSelectionShowsAll(products[1..]);
    }
  }

  /** With a category selected a product is kept exactly when it has that category,
      and with the multiplicity it has in the input. */
  lemma {:induction false} SelectionKeepsItsCategory(products: seq<Product>, selectedCategoryId: int, p: Product)
    requires selectedCategoryId != 0
    ensures multiset(Filter(products, selectedCategoryId))[p] ==
      if p.categoryId == Some(selectedCategoryId) then multiset(products)[p] else 0
  {
    if products != [] {
      assert products == [products[0]] + products[1..];
      SelectionKeepsItsCategory(products[1..], selectedCategoryId, p);
    }
  }

  /** Filtering again with the same selection changes nothing. */
  lemma {:induction false} FilterIsIdempotent(products: seq<Product>, selectedCategoryId: int)
    ensures Filter(Filter(products, selectedCategoryId), selectedCategoryId) == Filter(products, selectedCategoryId)
  {
    if products != [] {
      var rest := Filter(products[1..], selectedCategoryId);
      FilterIsIdempotent(products[1..], selectedCategoryId);
      if Shown(products[0], selectedCategoryId) {
        var r := [products[0]] + rest;
        assert r[0] == products[0] && r[1..] == rest;
        assert Filter(r, selectedCategoryId) == [products[0]] + Filter(rest, selectedCategoryId);
      } else {
        assert Filter(products, selectedCategoryId) == rest;
      }
    }
  }

  /** The component's state: the category selection, the latest joined product list,
      the values `products$` and `categories$` have emitted, whether each has ended
      after a failure, and the messages sent to the error channel. */
  class ProductListComponent {
    var categorySelected: int
    var latestProducts: Option<seq<Product>>
    var productsEmitted: seq<seq<Product>>
    var productsEnded: bool
    var categoriesEmitted: seq<seq<ProductCategory>>
    var categoriesEnded: bool
    var errorMessages: seq<string>

    /** Whenever `products$` is live and has seen a product list, its latest value is
        that list filtered by the latest selection. */
    ghost predicate Valid()
      reads this
    {
      (latestProducts.None? ==> productsEmitted == []) &&
      (latestProducts.Some? && !productsEnded ==>
        productsEmitted != [] &&
        productsEmitted[|productsEmitted| - 1] == Filter(latestProducts.value, categorySelected))
    }

    constructor ()
      ensures Valid()
      ensures categorySelected == 0 && latestProducts.None?
      ensures productsEmitted == [] && !productsEnded
      ensures categoriesEmitted == [] && !categoriesEnded
      ensures errorMessages == []
    {
      categorySelected := 0;
      latestProducts := None;
      productsEmitted, productsEnded := [], false;
      categoriesEmitted, categoriesEnded := [], false;
      errorMessages := [];
    }

    /** `onSelected`: a new category selection; a live `products$` that has a list
        recomputes with it. */
    method OnSelected(categoryId: int)
      requires Valid()
      modifies this
      ensures Valid()
      ensures categorySelected == categoryId
      ensures latestProducts == old(latestProducts) && productsEnded == old(productsEnded)
      ensures productsEmitted ==
        if latestProducts.Some? && !productsEnded
        then old(productsEmitted) + [Filter(latestProducts.value, categoryId)]
        else old(productsEmitted)
      ensures categoriesEmitted == old(categoriesEmitted) && categoriesEnded == old(categoriesEnded)
      ensures errorMessages == old(errorMessages)
    {
      categorySelected := categoryId;
      if latestProducts.Some? && !productsEnded {
        productsEmitted := productsEmitted + [Filter(latestProducts.value, categoryId)];
      }
    }

    /** The joined product list emits; a live `products$` recomputes with the latest
        selection. */
    method OnProducts(ps: seq<Product>)
      requires Valid()
      modifies this
      ensures Valid()
      ensures categorySelected == old(categorySelected) && productsEnded == old(productsEnded)
      ensures old(productsEnded) ==>
        latestProducts == old(latestProducts) && productsEmitted == old(productsEmitted)
      ensures !old(productsEnded) ==>
        latestProducts == Some(ps) && productsEmitted == old(productsEmitted) + [Filter(ps, categorySelected)]
      ensures categoriesEmitted == old(categoriesEmitted) && categoriesEnded == old(categoriesEnded)
      ensures errorMessages == old(errorMessages)
    {
      if !productsEnded {
        latestProducts := Some(ps);
        productsEmitted := productsEmitted + [Filter(ps, categorySelected)];
      }
    }

    /** The joined product list fails: the message goes to the error channel and
        `products$` ends without emitting anything more. */
    method OnProductsError(message: string)
      requires Valid()
      modifies this
      ensures Valid()
      ensures productsEmitted == old(productsEmitted) && productsEnded
      ensures errorMessages == if old(productsEnded) then old(errorMessages) else old(errorMessages) + [message]
      ensures categorySelected == old(categorySelected) && latestProducts == old(latestProducts)
      ensures categoriesEmitted == old(categoriesEmitted) && categoriesEnded == old(categoriesEnded)
    {
      if !productsEnded {
        errorMessages := errorMessages + [message];
        productsEnded := true;
      }
    }

    /** The category list emits; a live `categories$` passes it on. */
    method OnCategories(cs: seq<ProductCategory>)
      requires Valid()
      modifies this
      ensures Valid()
      ensures categoriesEmitted == if categoriesEnded then old(categoriesEmitted) else old(categoriesEmitted) + [cs]
      ensures categoriesEnded == old(categoriesEnded)
      ensures categorySelected == old(categorySelected) && latestProducts == old(latestProducts)
      ensures productsEmitted == old(productsEmitted) && productsEnded == old(productsEnded)
      ensures errorMessages == old(errorMessages)
    {
      if !categoriesEnded {
        categoriesEmitted := categoriesEmitted + [cs];
      }
    }

    /** The category list fails: the message goes to the error channel and
        `categories$` ends without emitting anything more. */
    method OnCategoriesError(message: string)
      requires Valid()
      modifies this
      ensures Valid()
      ensures categoriesEmitted == old(categoriesEmitted) && categoriesEnded
      ensures errorMessages == if old(categoriesEnded) then old(errorMessages) else old(errorMessages) + [message]
      ensures categorySelected == old(categorySelected) && latestProducts == old(latestProducts)
      ensures productsEmitted == old(productsEmitted) && productsEnded == old(productsEnded)
    {
      if !categoriesEnded {
        errorMessages := errorMessages + [message];
        categoriesEnded := true;
      }
    }
  }
}
