/** The insertion log behind `productsWithAdd$`: a `scan` over the merge of the joined
    product list (full-collection events) and the locally inserted products
    (single-product events). The runtime `instanceof Array` test becomes a tag. */
module InsertionLog {
  import opened Entities

  datatype InsertionEvent = Replace(products: seq<Product>) | Append(product: Product)

  /** The scan reducer: a full collection replaces the accumulator, a single product
      is appended to it. */
  function Step(acc: seq<Product>, e: InsertionEvent): (r: seq<Product>)
    ensures e.Replace? ==> r == e.products
    ensures e.Append? ==> |r| == |acc| + 1 && r[..|acc|] == acc && r[|acc|] == e.product
  {
    match e
    case Replace(xs) => xs
    case Append(p) => acc + [p]
  }

  predicate NoReplace(events: seq<InsertionEvent>) {
    forall i :: 0 <= i < |events| ==> events[i].Append?
  }

  /** The products appended by `events`, in order. */
  function Appended(events: seq<InsertionEvent>): (r: seq<Product>)
    ensures |r| <= |events|
    ensures NoReplace(events) ==>
      |r| == |events| && forall i :: 0 <= i < |events| ==> r[i] == events[i].product
  {
    if events == [] then []
    else
      match events[0]
      case Append(p) => [p] + Appended(events[1..])
      case Replace(_) => Appended(events[1..])
  }

  /** The left fold of `events` from accumulator `acc`: with no full collection
      among the events it appends the inserted products to `acc`; a full collection
      as the last event is the result. */
  function FoldFrom(acc: seq<Product>, events: seq<InsertionEvent>): (r: seq<Product>)
    ensures NoReplace(events) ==> r == acc + Appended(events)
    ensures events != [] && events[|events| - 1].Replace? ==> r == events[|events| - 1].products
    decreases |events|
  {
    if events == [] then acc
    else
      assert events[1..] != [] ==> events[1..][|events[1..]| - 1] == events[|events| - 1];
      FoldFrom(Step(acc, events[0]), events[1..])
  }

  /** The accumulator after `events`, starting from the empty list (the scan seed):
      the inserted products while no full collection has arrived, and a full
      collection as soon as it arrives. */
  function Fold(events: seq<InsertionEvent>): (r: seq<Product>)
    ensures NoReplace(events) ==> r == Appended(events)
    ensures events != [] && events[|events| - 1].Replace? ==> r == events[|events| - 1].products
  {
    FoldFrom([], events)
  }

  /** Folding one more event is one more reducer step. */
  lemma {:induction false} FoldFromSnoc(acc: seq<Product>, events: seq<InsertionEvent>, e: InsertionEvent)
    ensures FoldFrom(acc, events + [e]) == Step(FoldFrom(acc, events), e)
    decreases |events|
  {
    if events == [] {
      assert [e][1..] == [];
    } else {
      assert (events + [e])[0] == events[0];
      assert (events + [e])[1..] == events[1..] + [e];
      FoldFromSnoc(Step(acc, events[0]), events[1..], e);
    }
  }

  /** An append event extends the snapshot by exactly that product. */
  lemma FoldAppend(events: seq<InsertionEvent>, p: Product)
    ensures Fold(events + [Append(p)]) == Fold(events) + [p]
  {
    FoldFromSnoc([], events, Append(p));
  }

  /** A full-collection event discards everything before it. */
  lemma FoldReplace(events: seq<InsertionEvent>, xs: seq<Product>)
    ensures Fold(events + [Replace(xs)]) == xs
  {
    FoldFromSnoc([], events, Replace(xs));
  }

  /** Folding a concatenation folds the second part from the first part's result. */
  lemma {:induction false} FoldFromConcat(acc: seq<Product>, a: seq<InsertionEvent>, b: seq<InsertionEvent>)
    ensures FoldFrom(acc, a + b) == FoldFrom(FoldFrom(acc, a), b)
    decreases |a|
  {
    if a == [] {
      assert a + b == b;
    } else {
      assert (a + b)[0] == a[0];
      assert (a + b)[1..] == a[1..] + b;
      FoldFromConcat(Step(acc, a[0]), a[1..], b);
    }
  }

  /** The final snapshot is the last full collection followed by the products
      inserted after it, in order. */
  lemma LastReplacementThenAppends(pre: seq<InsertionEvent>, xs: seq<Product>, post: seq<InsertionEvent>)
    requires NoReplace(post)
    ensures Fold(pre + [Replace(xs)] + post) == xs + Appended(post)
  {
    FoldFromConcat([], pre + [Replace(xs)], post);
    FoldReplace(pre, xs);
  }

  /** `[insert X, full [A, B], insert C]` ends with `[A, B, C]`. */
  lemma {:induction false} InsertBeforeFullIsDiscarded(x: Product, a: Product, b: Product, c: Product)
    ensures Fold([Append(x), Replace([a, b]), Append(c)]) == [a, b, c]
  {
    assert [Append(x), Replace([a, b]), Append(c)] == [Append(x)] + [Replace([a, b])] + [Append(c)];
    LastReplacementThenAppends([Append(x)], [a, b], [Append(c)]);
  }

  /** `[full [A, B], insert C, insert D]` ends with `[A, B, C, D]`. */
  lemma {:induction false} InsertsAfterFullAreAppended(a: Product, b: Product, c: Product, d: Product)
    ensures Fold([Replace([a, b]), Append(c), Append(d)]) == [a, b, c, d]
  {
    assert [Replace([a, b]), Append(c), Append(d)] == [] + [Replace([a, b])] + [Append(c), Append(d)];
    LastReplacementThenAppends([], [a, b], [Append(c), Append(d)]);
  }
}
