/** The supplier fan-out of `selectedProductSuppliers$`: for the selected product,
    one supplier request per id, joined all-or-nothing and in id order (`forkJoin`). */
module SupplierFanOut {
  import opened Wrappers
  import opened Entities
  import opened ErrorHandling

  /** A supplier request (`_getSupplier`): the transport is a parameter of the model. */
  type Fetch = int -> Result<Supplier, HttpErrorResponse>

  /** `forkJoin` over one request per id, for a non-empty id list: every supplier in
      id order, or a failure when any request fails. */
  function FetchAll(ids: seq<int>, fetch: Fetch): (r: Result<seq<Supplier>, HttpErrorResponse>)
    ensures r.Success? <==> forall i :: 0 <= i < |ids| ==> fetch(ids[i]).Success?
    ensures r.Success? ==>
      |r.value| == |ids| && forall i :: 0 <= i < |ids| ==> r.value[i] == fetch(ids[i]).value
    ensures r.Failure? ==> exists i :: 0 <= i < |ids| && fetch(ids[i]) == Failure(r.error)
  {
    if ids == [] then Success([])
    else
      match fetch(ids[0])
      case Failure(e) => Failure(e)
      case Success(s) =>
        match FetchAll(ids[1..], fetch)
        case Failure(e) =>
          assert fetch(ids[1..][0]) == Failure(e) || exists i :: 1 <= i < |ids| && fetch(ids[i]) == Failure(e);
          Failure(e)
        case Success(ss) => Success([s] + ss)
  }

  /** One activation of the fan-out: the ids requested and what the stream then does. */
  datatype FanOut = FanOut(requested: seq<int>, emission: Emission<seq<Supplier>, HttpErrorResponse>)

  /** The fan-out for the latest selected product (`undefined` when nothing matched). */
  function SelectedProductSuppliers(selected: Option<Product>, fetch: Fetch): (r: FanOut)
    ensures selected.None? ==> r == FanOut([], NoValue)
    ensures selected.Some? && selected.value.supplierIds.None? ==> r == FanOut([], Value([]))
    ensures selected.Some? && selected.value.supplierIds == Some([]) ==> r == FanOut([], NoValue)
    ensures selected.Some? && selected.value.supplierIds.Some? ==> r.requested == selected.value.supplierIds.value
    ensures r.emission.Value? && r.requested != [] ==>
      |r.emission.value| == |r.requested| &&
      forall i :: 0 <= i < |r.requested| ==> fetch(r.requested[i]) == Success(r.emission.value[i])
    ensures r.emission.Error? <==> exists i :: 0 <= i < |r.requested| && fetch(r.requested[i]).Failure?
    ensures r.emission.NoValue? <==> selected.None? || selected.value.supplierIds == Some([])
    ensures r.emission.Error? ==>
      exists i :: 0 <= i < |r.requested| && fetch(r.requested[i]) == Failure(r.emission.error)
  {
    match selected
    case None => FanOut([], NoValue)
    case Some(p) =>
      match p.supplierIds
      case None => FanOut([], Value([]))
      case Some(ids) =>
        if ids == [] then FanOut([], NoValue)
        else
          match FetchAll(ids, fetch)
          case Success(ss) => FanOut(ids, Value(ss))
          case Failure(e) => FanOut(ids, Error(e))
  }

  /** For ids `[5, 3, 9]` the suppliers come back as `[supplier 5, supplier 3, supplier 9]`. */
  lemma {:induction false} FanOutKeepsIdOrder(p: Product, fetch: Fetch, s5: Supplier, s3: Supplier, s9: Supplier)
    requires p.supplierIds == Some([5, 3, 9])
    requires fetch(5) == Success(s5) && fetch(3) == Success(s3) && fetch(9) == Success(s9)
    ensures SelectedProductSuppliers(Some(p), fetch).emission == Value([s5, s3, s9])
  {
    var ids := [5, 3, 9];
    var r := FetchAll(ids, fetch);
    assert fetch(ids[0]).Success? && fetch(ids[1]).Success? && fetch(ids[2]).Success?;
    assert r.Success?;
    assert r.value[0] == s5 && r.value[1] == s3 && r.value[2] == s9;
    assert r.value == [s5, s3, s9];
  }
}
