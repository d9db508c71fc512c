/** The product service: the state behind its subjects and `combineLatest` inputs,
    the current-product view, the placeholder product and the outcome of the
    products request. */
module Service {
  import opened Wrappers
  import opened Entities
  import opened CategoryJoin
  import opened InsertionLog
  import opened ErrorHandling

  /** The current product: the first product whose id is the selected id, or none. */
  function SelectedProduct(ps: seq<Product>, selectedId: int): (r: Option<Product>)
    ensures r.None? <==> forall j :: 0 <= j < |ps| ==> ps[j].id != selectedId
    ensures r.Some? ==>
      exists i :: IsFirstMatch(ps, (p: Product) => p.id == selectedId, i) && r.value == ps[i]
  {
    match FirstIndex(ps, (p: Product) => p.id == selectedId)
    case None => None
    case Some(i) =>
      assert IsFirstMatch(ps, (p: Product) => p.id == selectedId, i);
      Some(ps[i])
  }

  /** The placeholder product `addProduct` inserts when it is given none. */
  function FakeProduct(): (p: Product)
    ensures p.id == 42 && p.productCode == "TBX-0042" && p.categoryId == Some(3)
  {
    Product(
      id := 42,
      productName := "Another One",
      productCode := "TBX-0042",
      description := "Our new product",
      price := Some(8.9),
      categoryId := Some(3),
      category := Some("Toolbox"),
      quantityInStock := Some(30),
      supplierIds := None,
      searchKey := None)
  }

  /** The product `addProduct(newProduct?)` sends on the inserted stream. */
  function ProductToAdd(newProduct: Option<Product>): (p: Product)
    ensures newProduct.Some? ==> p == newProduct.value
    ensures newProduct.None? ==> p == FakeProduct()
  {
    newProduct.GetOr(FakeProduct())
  }

  /** `products$`: the products request, with a failure turned into its message. */
  function ProductsRequest(response: Result<seq<Product>, HttpErrorResponse>): (r: Emission<seq<Product>, string>)
    ensures response.Success? ==> r == Value(response.value)
    ensures response.Failure? ==> r.Error? && r.error == ErrorMessage(response.error)
  {
    match response
    case Success(ps) => Value(ps)
    case Failure(err) => HandleError(err)
  }

  /** The service's state: the latest value of each `combineLatest` input, the
      product selection and the `productsWithAdd$` accumulator. `failure` holds the
      message the joined stream failed with: `handleError` rethrows, so a failed
      input ends `productsWithCategory$` and, with it, `selectedProduct$` and
      `productsWithAdd$`. `events` records the events the insertion log has folded. */
  class ProductService {
    var products: Option<seq<Product>>
    var categories: Option<seq<ProductCategory>>
    var productSelected: int
    var productsWithAdd: seq<Product>
    var failure: Option<string>
    ghost var events: seq<InsertionEvent>

    ghost predicate Valid()
      reads this
    {
      productsWithAdd == Fold(events)
    }

    /** `productsWithCategory$`: the latest joined list, once both inputs have emitted. */
    function ProductsWithCategory(): (r: Option<seq<Product>>)
      reads this
      ensures r.Some? <==> products.Some? && categories.Some?
      ensures r.Some? ==> r.value == RebuildAll(products.value, categories.value)
      ensures r.Some? ==> |r.value| == |products.value|
    {
      if products.Some? && categories.Some? then Some(RebuildAll(products.value, categories.value))
      else None
    }

    /** `selectedProduct$`: none until the joined list exists and none once the join
        has failed (the stream has ended); otherwise the current product. */
    function CurrentProduct(): (r: Option<Option<Product>>)
      reads this
      ensures r.Some? <==> failure.None? && products.Some? && categories.Some?
      ensures r.Some? ==>
        r.value == SelectedProduct(RebuildAll(products.value, categories.value), productSelected)
    {
      if failure.Some? then None
      else match ProductsWithCategory()
      case None => None
      case Some(ps) => Some(SelectedProduct(ps, productSelected))
    }

    constructor ()
      ensures Valid()
      ensures products.None? && categories.None?
      ensures productSelected == 0
      ensures productsWithAdd == [] && events == []
      ensures failure.None?
    {
      products, categories := None, None;
      failure := None;
      productSelected := 0;
      productsWithAdd := [];
      events := [];
    }

    /** A new product list arrives; once categories are known the join re-emits and
        the insertion log replaces its accumulator with the joined list. After a
        failure the join has ended and nothing changes. */
    method OnProducts(ps: seq<Product>)
      requires Valid()
      modifies this
      ensures Valid()
      ensures failure == old(failure) && productSelected == old(productSelected)
      ensures categories == old(categories)
      ensures failure.Some? ==>
        products == old(products) && events == old(events) && productsWithAdd == old(productsWithAdd)
      ensures failure.None? ==> products == Some(ps)
      ensures failure.None? && categories.Some? ==>
        events == old(events) + [Replace(RebuildAll(ps, categories.value))] &&
        productsWithAdd == RebuildAll(ps, categories.value)
      ensures categories.None? ==> events == old(events) && productsWithAdd == old(productsWithAdd)
    {
      if failure.Some? {
        return;
      }
      products := Some(ps);
      if categories.Some? {
        var joined := RebuildAll(ps, categories.value);
        FoldReplace(events, joined);
        events := events + [Replace(joined)];
        productsWithAdd := joined;
      }
    }

    /** A new category list arrives; symmetric to `OnProducts`. */
    method OnCategories(cs: seq<ProductCategory>)
      requires Valid()
      modifies this
      ensures Valid()
      ensures failure == old(failure) && productSelected == old(productSelected)
      ensures products == old(products)
      ensures failure.Some? ==>
        categories == old(categories) && events == old(events) && productsWithAdd == old(productsWithAdd)
      ensures failure.None? ==> categories == Some(cs)
      ensures failure.None? && products.Some? ==>
        events == old(events) + [Replace(RebuildAll(products.value, cs))] &&
        productsWithAdd == RebuildAll(products.value, cs)
      ensures products.None? ==> events == old(events) && productsWithAdd == old(productsWithAdd)
    {
      if failure.Some? {
        return;
      }
      categories := Some(cs);
      if products.Some? {
        var joined := RebuildAll(products.value, cs);
        FoldReplace(events, joined);
        events := events + [Replace(joined)];
        productsWithAdd := joined;
      }
    }

    /** `selectedProductChanged`: pushes a new product selection. */
    method SelectedProductChanged(selectedProductId: int)
      requires Valid()
      modifies this
      ensures Valid()
      ensures productSelected == selectedProductId
      ensures products == old(products) && categories == old(categories)
      ensures productsWithAdd == old(productsWithAdd) && events == old(events)
      ensures failure == old(failure)
    {
      productSelected := selectedProductId;
    }

    /** `addProduct`: inserts the given product, or the placeholder, at the end of
        the accumulator. After a failure `productsWithAdd$` has ended and the
        insertion is not folded. */
    method AddProduct(newProduct: Option<Product>)
      requires Valid()
      modifies this
      ensures Valid()
      ensures failure.None? ==>
        events == old(events) + [Append(ProductToAdd(newProduct))] &&
        productsWithAdd == old(productsWithAdd) + [ProductToAdd(newProduct)]
      ensures failure.Some? ==> events == old(events) && productsWithAdd == old(productsWithAdd)
      ensures products == old(products) && categories == old(categories)
      ensures productSelected == old(productSelected) && failure == old(failure)
    {
      if failure.Some? {
        return;
      }
      var p := ProductToAdd(newProduct);
      FoldAppend(events, p);
      events := events + [Append(p)];
      productsWithAdd := productsWithAdd + [p];
    }

    /** The products request fails: `handleError` rethrows its message, the join
        fails with it, and every derived stream of the service ends. */
    method OnProductsError(err: HttpErrorResponse)
      requires Valid()
      modifies this
      ensures Valid()
      ensures failure == if old(failure).None? then Some(ErrorMessage(err)) else old(failure)
      ensures products == old(products) && categories == old(categories)
      ensures productSelected == old(productSelected)
      ensures productsWithAdd == old(productsWithAdd) && events == old(events)
    {
      if failure.None? {
        failure := Some(HandleError<seq<Product>>(err).error);
      }
    }

    /** The category stream fails with `message`; the join fails with it and every
        derived stream of the service ends. */
    method OnCategoriesError(message: string)
      requires Valid()
      modifies this
      ensures Valid()
      ensures failure == if old(failure).None? then Some(message) else old(failure)
      ensures products == old(products) && categories == old(categories)
      ensures productSelected == old(productSelected)
      ensures productsWithAdd == old(productsWithAdd) && events == old(events)
    {
      if failure.None? {
        failure := Some(message);
      }
    }
  }
}
