/** The cart store (`CartDAO`): carts keyed by the owning account's id. */
module Persistence {
  import opened Wrappers
  import opened Domain

  class CartDao {
    /** The stored carts, by account id. */
    var carts: map<AccountId, Cart>
    /** Every cart handed to `save`, in call order. */
    ghost var saveLog: seq<Cart>

    /** Each cart is stored under the id of the account that owns it. */
    ghost predicate Valid()
      reads this
    {
      KeyedByOwner(carts)
    }

    constructor ()
      ensures Valid() && carts == map[] && saveLog == []
    {
      carts := map[];
      saveLog := [];
    }

    /** `cartDAO.findById(id)` */
    function FindById(id: AccountId): (r: Option<Cart>)
      requires Valid()
      reads this
      ensures r.Some? <==> id in carts
      ensures r.Some? ==> r.value == carts[id] && r.value.owner == id
    {
      if id in carts then Some(carts[id]) else None
    }

    /** `cartDAO.save(cart)`: upsert under the cart's identity; returns the
        persisted cart. */
    method Save(cart: Cart) returns (saved: Cart)
      requires Valid()
      modifies this
      ensures Valid()
      ensures saved == cart
      ensures carts == old(carts)[cart.owner := cart]
      ensures saveLog == old(saveLog) + [cart]
    {
      carts := carts[cart.owner := cart];
      saveLog := saveLog + [cart];
      saved := cart;
    }
  }
}
