/**
 The product list of the `ProductList` component and the three updaters its
 WebSocket handlers pass to `setProducts`. Each updater maps the previous list
 to the next one; the state hook, the toasts and the rendering are not part of
 this model.
 */
module ProductList {
  import opened ArrayOps
  import opened Records

  /** A product record; the updaters look only at `id` (the JSON field `_id`). */
  datatype Product = Product(id: ObjectId, name: string, price: real, isAvailable: bool)

  /** Payload of `product:created` and of `product:updated`. */
  datatype ProductMessage = ProductMessage(product: Product)

  /** Payload of `product:deleted`. */
  datatype ProductDeleted = ProductDeleted(productId: ObjectId)

  /** `handleProductCreated`'s updater: the new product goes to the front. */
  function Created(prev: seq<Product>, data: ProductMessage): (r: seq<Product>)
    ensures |r| == |prev| + 1
    ensures r[0] == data.product
    ensures r[1..] == prev
  {
    [data.product] + prev
  }

  /** `handleProductUpdated`'s updater: every product with the sent id is replaced by the sent product. */
  function Updated(prev: seq<Product>, data: ProductMessage): (r: seq<Product>)
    ensures |r| == |prev|
    ensures forall i :: 0 <= i < |r| ==> r[i].id == prev[i].id
  {
    Map(prev, (p: Product) => if p.id == data.product.id then data.product else p)
  }

  /** `handleProductDeleted`'s updater: every product with the sent id is dropped. */
  function Deleted(prev: seq<Product>, data: ProductDeleted): (r: seq<Product>)
    ensures |r| <= |prev|
    ensures forall i :: 0 <= i < |r| ==> r[i].id != data.productId
  {
    Filter(prev, (p: Product) => p.id != data.productId)
  }

  /** The ids of a list, in order. */
  function Ids(s: seq<Product>): seq<ObjectId>
  {
    Map(s, (p: Product) => p.id)
  }

  /** The update keeps the length; matching positions hold the sent product, the others are untouched. */
  lemma UpdatedPointwise(prev: seq<Product>, data: ProductMessage)
    ensures |Updated(prev, data)| == |prev|
    ensures forall i :: 0 <= i < |prev| && prev[i].id == data.product.id ==> Updated(prev, data)[i] == data.product
    ensures forall i :: 0 <= i < |prev| && prev[i].id != data.product.id ==> Updated(prev, data)[i] == prev[i]
  {
  }

  /** The update neither adds, removes nor reorders ids. */
  lemma UpdatedKeepsIds(prev: seq<Product>, data: ProductMessage)
    ensures Ids(Updated(prev, data)) == Ids(prev)
  {
  }

  /** An update for an id that is not in the list returns the list unchanged. */
  lemma UpdatedAbsent(prev: seq<Product>, data: ProductMessage)
    requires forall i :: 0 <= i < |prev| ==> prev[i].id != data.product.id
    ensures Updated(prev, data) == prev
  {
  }

  /**
   A product survives the deletion exactly when its id differs from the sent
   one; the result is no longer than the input.
   */
  lemma DeletedMembers(prev: seq<Product>, data: ProductDeleted)
    ensures |Deleted(prev, data)| <= |prev|
    ensures forall p :: p in Deleted(prev, data) ==> p in prev && p.id != data.productId
    ensures forall p :: p in prev && p.id != data.productId ==> p in Deleted(prev, data)
  {
  }

  /** The surviving products keep their relative order. */
  lemma DeletedKeepsOrder(prev: seq<Product>, data: ProductDeleted)
    ensures IsSubsequence(Deleted(prev, data), prev)
  {
    FilterIsSubsequence(prev, (p: Product) => p.id != data.productId);
  }

  /** Deleting the same id twice is deleting it once. */
  lemma DeletedIdempotent(prev: seq<Product>, data: ProductDeleted)
    ensures Deleted(Deleted(prev, data), data) == Deleted(prev, data)
  {
    FilterIdempotent(prev, (p: Product) => p.id != data.productId);
  }

  /** Deleting an id that is not in the list returns the list unchanged. */
  lemma DeletedAbsent(prev: seq<Product>, data: ProductDeleted)
    requires forall i :: 0 <= i < |prev| ==> prev[i].id != data.productId
    ensures Deleted(prev, data) == prev
  {
    FilterKeepsAll(prev, (p: Product) => p.id != data.productId);
  }
}
