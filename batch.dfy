/** Which lines of an `addAllToCart` request reach the cart, and in what order. */
module BatchAdd {
  import opened Domain

  /** An item is applied when the catalogue knows its product id and that
      product is available. */
  predicate Applicable(catalogue: map<ProductId, Product>, item: CartItem) {
    item.product.id in catalogue && catalogue[item.product.id].available
  }

  /** The update calls a batch makes, in list order: one per applicable item,
      with the catalogue's product and the item's quantity; skipped items
      leave no trace. */
  function BatchUpdates(catalogue: map<ProductId, Product>, items: seq<CartItem>): (u: seq<UpdateCall>)
    ensures |u| <= |items|
    ensures u == [] <==> forall j | 0 <= j < |items| :: !Applicable(catalogue, items[j])
    ensures (forall j | 0 <= j < |items| :: Applicable(catalogue, items[j])) ==> |u| == |items|
    ensures forall k | 0 <= k < |u| ::
      u[k].product in catalogue.Values && u[k].product.available
    decreases |items|
  {
    if items == [] then []
    else
      var rest := BatchUpdates(catalogue, items[1..]);
      assert forall j | 1 <= j < |items| :: items[j] == items[1..][j - 1];
      if Applicable(catalogue, items[0]) then
        var u := [UpdateCall(catalogue[items[0].product.id], items[0].quantity)] + rest;
        assert forall k | 1 <= k < |u| :: u[k] == rest[k - 1];
        u
      else rest
  }

  /** Processing a list is processing its prefix, then its suffix. */
  lemma {:induction false} BatchUpdatesAppend(catalogue: map<ProductId, Product>, xs: seq<CartItem>, ys: seq<CartItem>)
    ensures BatchUpdates(catalogue, xs + ys) == BatchUpdates(catalogue, xs) + BatchUpdates(catalogue, ys)
    decreases |xs|
  {
    if xs != [] {
      assert (xs + ys)[1..] == xs[1..] + ys;
      BatchUpdatesAppend(catalogue, xs[1..], ys);
    } else {
      assert xs + ys == ys;
    }
  }

  /** One more item: the prefix's update calls, then that item's call if it
      applies. This is the step of `addAllToCart`'s loop. */
  lemma BatchUpdatesSnoc(catalogue: map<ProductId, Product>, items: seq<CartItem>, i: nat)
    requires i < |items|
    ensures BatchUpdates(catalogue, items[..i + 1]) ==
      BatchUpdates(catalogue, items[..i])
      + (if Applicable(catalogue, items[i])
         then [UpdateCall(catalogue[items[i].product.id], items[i].quantity)] else [])
  {
    assert items[..i + 1] == items[..i] + [items[i]];
    BatchUpdatesAppend(catalogue, items[..i], [items[i]]);
  }

  /** The step of `addAllToCart`'s loop, on a cart: one more item updates the
      cart once if it applies and leaves it alone otherwise. */
  lemma BatchStep(catalogue: map<ProductId, Product>, items: seq<CartItem>, i: nat, start: Cart)
    requires i < |items|
    ensures var before := start.UpdateAll(BatchUpdates(catalogue, items[..i]));
      && (Applicable(catalogue, items[i]) ==>
           start.UpdateAll(BatchUpdates(catalogue, items[..i + 1]))
             == before.Update(catalogue[items[i].product.id], items[i].quantity))
      && (!Applicable(catalogue, items[i]) ==>
           start.UpdateAll(BatchUpdates(catalogue, items[..i + 1])) == before)
      && (BatchUpdates(catalogue, items[..i + 1]) != [] <==>
           BatchUpdates(catalogue, items[..i]) != [] || Applicable(catalogue, items[i]))
  {
    BatchUpdatesSnoc(catalogue, items, i);
    if Applicable(catalogue, items[i]) {
      var b := BatchUpdates(catalogue, items[..i]);
      var call := UpdateCall(catalogue[items[i].product.id], items[i].quantity);
      assert start.history + (b + [call]) == (start.history + b) + [call];
    }
  }

  /** The availability flag and other fields carried by the request's product
      references play no part: only their ids and the quantities do. */
  lemma {:induction false} BatchIgnoresRequestProducts(catalogue: map<ProductId, Product>, xs: seq<CartItem>, ys: seq<CartItem>)
    requires |xs| == |ys|
    requires forall j | 0 <= j < |xs| :: xs[j].product.id == ys[j].product.id && xs[j].quantity == ys[j].quantity
    ensures BatchUpdates(catalogue, xs) == BatchUpdates(catalogue, ys)
    decreases |xs|
  {
    if xs != [] {
      assert forall j | 0 <= j < |xs| - 1 :: xs[1..][j] == xs[j + 1] && ys[1..][j] == ys[j + 1];
      BatchIgnoresRequestProducts(catalogue, xs[1..], ys[1..]);
    }
  }
}
