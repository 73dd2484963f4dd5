/** Properties that relate several calls on one service, stated as clients
    proved against the operations' contracts alone. */
module CartScenarios {
  import opened Wrappers
  import opened Domain
  import opened Persistence
  import opened BatchAdd
  import opened CartService

  /** Loading the same account twice: both calls see the same cart, and
      together they save at most the one lazily created cart, so the second
      call saves nothing. Afterwards the store holds that cart. */
  method LoadTwice(svc: CartServiceImpl, email: Email) returns (first: Result<Cart, Error>, second: Result<Cart, Error>)
    requires svc.dao.Valid()
    modifies svc.dao
    ensures svc.dao.Valid()
    ensures first == second
    ensures email !in svc.accounts ==> unchanged(svc.dao)
    ensures email in svc.accounts ==>
      var account := svc.accounts[email];
      && account.id in svc.dao.carts
      && Success(svc.dao.carts[account.id]) == second
      && svc.dao.saveLog == old(svc.dao.saveLog) + CreationSaves(old(svc.dao.carts), account)
  {
    first := svc.GetCartOrCreate(email);
    ghost var log := svc.dao.saveLog;
    second := svc.GetCartOrCreate(email);
    assert svc.dao.saveLog == log;
  }

  /** Setting the same delivery flag twice saves twice: the second call is
      not short-circuited although it changes nothing. */
  method SetDeliveryTwice(svc: CartServiceImpl, email: Email, included: bool)
    returns (first: Result<Cart, Error>, second: Result<Cart, Error>)
    requires svc.dao.Valid()
    modifies svc.dao
    ensures svc.dao.Valid()
    ensures first == second
    ensures email !in svc.accounts ==> unchanged(svc.dao)
    ensures email in svc.accounts ==>
      var account := svc.accounts[email];
      && second.Success? && second.value.deliveryIncluded == included
      && svc.dao.saveLog == old(svc.dao.saveLog) + CreationSaves(old(svc.dao.carts), account)
                            + [second.value, second.value]
  {
    first := svc.SetDelivery(email, included);
    second := svc.SetDelivery(email, included);
  }

  /** Clearing twice saves twice; the second call finds the cart already
      empty and saves it anyway. */
  method ClearTwice(svc: CartServiceImpl, email: Email) returns (first: Result<Cart, Error>, second: Result<Cart, Error>)
    requires svc.dao.Valid()
    modifies svc.dao
    ensures svc.dao.Valid()
    ensures first == second
    ensures email !in svc.accounts ==> unchanged(svc.dao)
    ensures email in svc.accounts ==>
      var account := svc.accounts[email];
      && second.Success? && second.value.history == []
      && svc.dao.saveLog == old(svc.dao.saveLog) + CreationSaves(old(svc.dao.carts), account)
                            + [second.value, second.value]
  {
    first := svc.ClearCart(email);
    second := svc.ClearCart(email);
  }

  /** A batch of one available and one unknown product applies only the
      first, raises no error, and saves exactly once beyond a lazy creation. */
  method MixedBatch(svc: CartServiceImpl, email: Email, known: CartItem, unknown: CartItem)
    returns (r: Result<Cart, Error>)
    requires svc.dao.Valid()
    requires Applicable(svc.catalogue, known) && unknown.product.id !in svc.catalogue
    requires email in svc.accounts
    modifies svc.dao
    ensures svc.dao.Valid()
    ensures r.Success?
    ensures r.value.history ==
      Loaded(old(svc.dao.carts), svc.accounts[email]).history
      + [UpdateCall(svc.catalogue[known.product.id], known.quantity)]
    ensures svc.dao.saveLog == old(svc.dao.saveLog) + CreationSaves(old(svc.dao.carts), svc.accounts[email]) + [r.value]
  {
    assert BatchUpdates(svc.catalogue, [unknown]) == [];
    r := svc.AddAllToCart(email, [known, unknown]);
  }
}
