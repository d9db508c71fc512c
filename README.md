# Product service and product list: a Dafny model

This project models the value-level rules of an Angular/RxJS product catalogue:
the product service (`src/app/products/product.service.ts`) and the product list
component (`src/app/products/product-list.component.ts`). The service joins the
product list with the category list. It holds a product selection. It folds
full lists and locally inserted products into one snapshot. It fans out one
supplier request per supplier id of the selected product. It turns HTTP failures
into messages. The component filters the joined list by a category selection. It
sends every failure's message to an error channel and ends the failed stream
without a value.

Modules:

- `Wrappers` (`Wrappers.dfy`): `Option`, `Result`, and `Emission`. An `Emission`
  is what a single-shot stream does: it completes with no value, emits one value,
  or fails.
- `Entities` (`Entities.dfy`): `Product`, `ProductCategory`, `Supplier`, and
  `FirstIndex`, the first-match search behind `Array.prototype.find`.
- `CategoryJoin` (`CategoryJoin.dfy`): `_rebuildProduct` and the `ps.map` join.
- `InsertionLog` (`InsertionLog.dfy`): the `scan` reducer of `productsWithAdd$` as
  a left fold over tagged events `Replace(list)` / `Append(product)`.
- `ErrorHandling` (`ErrorHandling.dfy`): `handleError` and the decimal rendering
  of the status code.
- `SupplierFanOut` (`SupplierFanOut.dfy`): the `filter` / `switchMap` / `forkJoin`
  branch of `selectedProductSuppliers$`. The supplier request is a function
  parameter.
- `Service` (`ProductService.dfy`): the current-product view, the placeholder
  product, the products request, and the class `ProductService`. The class holds
  the latest value of each `combineLatest` input, the product selection (seeded
  with 0), the `scan` accumulator, and the message the joined stream failed with.
  A failed input ends the joined stream and every stream derived from it. A ghost event log ties the accumulator to
  the fold.
- `ProductList` (`ProductList.dfy`): the category filter and its lemmas. Also the
  class `ProductListComponent`, which holds the category selection (seeded with 0),
  the values `products$` and `categories$` emitted, whether each ended after a
  failure, and the error-channel messages.

Points where the code behaves differently from what a reader might expect. The model follows the code:

- A product whose `supplierIds` is present but empty goes down the `forkJoin`
  branch, because an empty array is truthy. `forkJoin` of no requests completes
  without emitting. So no supplier list is emitted, not an empty one. Only an
  absent `supplierIds` emits `[]`.
- A failure caught by the component ends the stream with `EMPTY`, so it emits
  nothing. It does not substitute an empty list.
- The current product for selection 0 is "none" only if no product has id 0. The
  code compares ids and has no special case for the sentinel.
- The placeholder product is appended as is, without the join. Its price is 8.9
  and its category is "Toolbox".

## Model

| member | source | states |
|---|---|---|
| Entities.FirstIndex | src/app/products/product.service.ts:115 | the result is the index of an element that matches, with no match before it; it is none exactly when no element matches |
| CategoryJoin.RebuildPrice | src/app/products/product.service.ts:114 | the rebuilt price is 0 exactly when the stored price is absent or 0; otherwise it is price × 1.5, which is larger than a positive price |
| CategoryJoin.CategoryName | src/app/products/product.service.ts:115 | the name of the first category whose id equals `categoryId`; none exactly when no category matches, so always none for an empty category list or an absent `categoryId`; never fails |
| CategoryJoin.Rebuild | src/app/products/product.service.ts:111-118 | every stored field is unchanged; price, category and searchKey are the derived ones, and searchKey is exactly `[productName]` |
| CategoryJoin.RebuildAll | src/app/products/product.service.ts:44 | same length as the input, and element i is the rebuild of input element i |
| CategoryJoin.RebuildIgnoresDerivedFields | src/app/products/product.service.ts:112-117 | a product's stored category and searchKey never affect its rebuild |
| CategoryJoin.RebuildAllAppend | src/app/products/product.service.ts:44 | the join of a concatenation is the concatenation of the joins |
| InsertionLog.Step | src/app/products/product.service.ts:87 | a full collection replaces the accumulator; a single product is appended after the unchanged accumulator |
| InsertionLog.FoldFrom | src/app/products/product.service.ts:86-89 | the running `scan` from a given accumulator: with no full collection among the events it is the accumulator followed by the inserted products in order; when the last event is a full collection, the result is that collection |
| InsertionLog.Fold | src/app/products/product.service.ts:86-89 | from the empty seed: with no full collection yet, the snapshot is the inserted products in order; a full collection as the last event is the snapshot (see also `FoldAppend`, `FoldReplace`, `LastReplacementThenAppends`) |
| InsertionLog.FoldAppend | src/app/products/product.service.ts:86-89 | one more insertion event gives the previous snapshot followed by that product |
| InsertionLog.FoldReplace | src/app/products/product.service.ts:86-89 | a full-collection event discards everything earlier; the snapshot is that collection |
| InsertionLog.LastReplacementThenAppends | src/app/products/product.service.ts:86-89 | the final snapshot is the last full collection followed by the products inserted after it, in order |
| InsertionLog.InsertBeforeFullIsDiscarded | src/app/products/product.service.ts:86-89 | `[insert X, full [A,B], insert C]` gives `[A,B,C]` |
| InsertionLog.InsertsAfterFullAreAppended | src/app/products/product.service.ts:86-89 | `[full [A,B], insert C, insert D]` gives `[A,B,C,D]` |
| ErrorHandling.Decimal | src/app/products/product.service.ts:143 | the status is written as a non-empty string of decimal digits with no leading zero; it is "0" exactly for status 0 |
| ErrorHandling.DecimalRoundTrip | src/app/products/product.service.ts:143 | reading the written status back gives the status |
| ErrorHandling.ErrorMessage | src/app/products/product.service.ts:136-144 | a client-side error gives "An error occurred: " followed by the event's message; any other gives "Backend returned code " followed by the status in decimal, ": " and the response's message |
| ErrorHandling.HandleError | src/app/products/product.service.ts:133-147 | whatever the error, the result is a failure carrying the message, never a value |
| ErrorHandling.ClassificationIsRecoverable | src/app/products/product.service.ts:137-144 | a message starts with "An error occurred: " exactly when the error was a client-side `ErrorEvent`; otherwise it starts with "Backend returned code " |
| ErrorHandling.ClientMessageIsRecoverable | src/app/products/product.service.ts:139 | a client-side message is the prefix followed by the event's own message |
| ErrorHandling.StatusIsRecoverable | src/app/products/product.service.ts:143 | a backend message starts with "Backend returned code ", the status code follows in decimal and can be read back, and ": " and the response's message follow the digits |
| SupplierFanOut.FetchAll | src/app/products/product.service.ts:73 | succeeds exactly when every request succeeds; then element i is the supplier for id i, in id order; otherwise it fails with the error of a failing request |
| SupplierFanOut.SelectedProductSuppliers | src/app/products/product.service.ts:69-75 | no selected product: no request and no value; absent `supplierIds`: no request and `[]`; otherwise exactly the ids are requested; an empty id list emits nothing, and nothing else leaves the stream without a value, so non-empty ids whose requests all succeed emit the suppliers; the result fails exactly when some request fails, and then with the error of a failing request; a value lists the suppliers in id order |
| SupplierFanOut.FanOutKeepsIdOrder | src/app/products/product.service.ts:73 | for ids `[5, 3, 9]` the suppliers come back as `[s5, s3, s9]` |
| Service.SelectedProduct | src/app/products/product.service.ts:55 | the first product whose id equals the selection; none exactly when no product has that id |
| Service.FakeProduct | src/app/products/product.service.ts:120-131 | the placeholder has id 42, code `TBX-0042` and categoryId 3 |
| Service.ProductToAdd | src/app/products/product.service.ts:98-99 | a given product is sent as it is; with none, the placeholder is sent |
| Service.ProductsRequest | src/app/products/product.service.ts:35-38 | a successful request passes the list through; a failed one fails with the `handleError` message |
| Service.ProductService.ProductsWithCategory | src/app/products/product.service.ts:40-46 | the joined list exists exactly when both inputs have emitted; it is then the rebuild of the latest product list against the latest category list, as long as the product list |
| Service.ProductService.CurrentProduct | src/app/products/product.service.ts:51-58 | the selected product view exists exactly when the joined list does and nothing has failed (after a failure `selectedProduct$` has ended); it is then the first product of the joined list whose id is the latest selection |
| Service.ProductService.constructor | src/app/products/product.service.ts:48 | the product selection starts at 0, no input has emitted, nothing has failed and the accumulator is the empty scan seed |
| Service.ProductService.OnProducts | src/app/products/product.service.ts:40-46 | before a failure, a new product list is recorded and, once categories are known, the joined list replaces the accumulator and is logged as a full-collection event; after a failure nothing changes; the selection is unchanged |
| Service.ProductService.OnCategories | src/app/products/product.service.ts:40-46 | before a failure, a new category list is recorded and, once products are known, the joined list replaces the accumulator and is logged as a full-collection event; after a failure nothing changes; the selection is unchanged |
| Service.ProductService.OnProductsError | src/app/products/product.service.ts:35-40 | a failed products request fails the join with the `handleError` message (the first failure is kept); no list, selection or accumulator changes |
| Service.ProductService.OnCategoriesError | src/app/products/product.service.ts:40-42 | a failed category stream fails the join with its message (the first failure is kept); no list, selection or accumulator changes |
| Service.ProductService.SelectedProductChanged | src/app/products/product.service.ts:103-105 | the selection becomes the given id and nothing else changes |
| Service.ProductService.AddProduct | src/app/products/product.service.ts:98-101 | before a failure, the given product, or the placeholder, is appended to the accumulator and logged as an insertion event; after a failure `productsWithAdd$` has ended and nothing is folded; the accumulator stays the fold of the logged events |
| ProductList.Shown | src/app/products/product-list.component.ts:44 | a product is shown exactly when no category is selected (0) or its categoryId equals the selection; a product without a categoryId is shown only with no selection |
| ProductList.Filter | src/app/products/product-list.component.ts:42-45 | the output is no longer than the input, and every kept product is shown under the selection |
| ProductList.FilterIsExactSubsequence | src/app/products/product-list.component.ts:43-44 | the output is the input at strictly increasing positions, and a position is kept exactly when its product is shown |
| ProductList.NoSelectionShowsAll | src/app/products/product-list.component.ts:44 | with selection 0 the output is the input unchanged |
| ProductList.SelectionKeepsItsCategory | src/app/products/product-list.component.ts:44 | with a non-zero selection, a product occurs in the output as often as in the input when its categoryId equals the selection, and not at all otherwise |
| ProductList.FilterIsIdempotent | src/app/products/product-list.component.ts:43-44 | filtering the output again with the same selection returns it unchanged |
| ProductList.ProductListComponent.constructor | src/app/products/product-list.component.ts:23-28 | the category selection starts at 0; nothing has been emitted and the error channel is empty |
| ProductList.ProductListComponent.OnSelected | src/app/products/product-list.component.ts:62-64 | the selection becomes the given id; a live `products$` that has a list emits that list filtered by the new selection |
| ProductList.ProductListComponent.OnProducts | src/app/products/product-list.component.ts:38-46 | a live `products$` records the new list and emits it filtered by the latest selection; the latest emission is always the filter of the latest list and selection |
| ProductList.ProductListComponent.OnProductsError | src/app/products/product-list.component.ts:47-50 | the message goes to the error channel, `products$` ends and emits nothing more, and no value is substituted |
| ProductList.ProductListComponent.OnCategories | src/app/products/product-list.component.ts:31 | a live `categories$` passes the category list on |
| ProductList.ProductListComponent.OnCategoriesError | src/app/products/product-list.component.ts:31-36 | the message goes to the error channel, `categories$` ends and emits nothing more, and no value is substituted |

## Left out

- HTTP transport (`http.get` for products and suppliers): the products response is the argument of `ProductsRequest`. The supplier request is the `fetch` parameter of the fan-out. The category service is not part of this model; its list arrives through `OnCategories`.
- SupplierFanOut.FetchAll: when several requests fail, `forkJoin` fails with the first failure in time. The model reports the first failing id in list order. Its contract only promises the error of some failing request.
- `shareReplay` multicasting and reference counting, `switchMap` cancellation of an in-flight fan-out, and the timing of subscriptions to hot subjects. These are asynchronous runtime behaviour. An insertion made before `productsWithAdd$` is subscribed is lost at runtime; the model never loses one.
- The `console.log` / `console.error` taps: they only log.
- Angular decorators, dependency injection and templates; `pageTitle` and the unused `categories` field; `onAdd`, which only logs.
- The `+categoryId` string-to-number coercion in `onSelected`: it follows JavaScript number parsing (NaN, empty string). The model takes the id as an integer, so the only falsy selection is 0.
- CategoryJoin.RebuildPrice: `price * 1.5` is IEEE-754 arithmetic at runtime; the model uses exact `real`, and there is no NaN price.
- ErrorHandling.HandleError: `HttpErrorResponse.status` is taken as a natural number, so a negative or fractional status is not rendered.
- `src/app/app.component.ts`: a console-only demo pipeline with no state or results.
