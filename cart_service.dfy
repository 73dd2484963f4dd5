/** `CartServiceImpl`: one cart per account, created on first access, and the
    four operations that change it. Each operation loads (or lazily creates)
    the cart of the account named by an e-mail, changes it, and decides
    whether to write it back through the cart store. */
module CartService {
  import opened Wrappers
  import opened Domain
  import opened Persistence
  import opened BatchAdd

  /** The cart an account is served: the stored one, or a new empty one. */
  function Loaded(carts: map<AccountId, Cart>, account: Account): (c: Cart)
    requires KeyedByOwner(carts)
    ensures c.owner == account.id
    ensures account.id in carts ==> c == carts[account.id]
    ensures account.id !in carts ==> c.history == [] && !c.deliveryIncluded
  {
    if account.id in carts then carts[account.id] else NewCart(account)
  }

  /** The saves that loading the account's cart performs: none when a cart is
      stored, otherwise exactly the new cart. */
  function CreationSaves(carts: map<AccountId, Cart>, account: Account): seq<Cart>
  {
    if account.id in carts then [] else [NewCart(account)]
  }

  class CartServiceImpl {
    const dao: CartDao
    /** The account service, as a table from e-mail to account. */
    const accounts: map<Email, Account>
    /** The product service, as a table from product id to product. */
    const catalogue: map<ProductId, Product>

    constructor (dao: CartDao, accounts: map<Email, Account>, catalogue: map<ProductId, Product>)
      ensures this.dao == dao && this.accounts == accounts && this.catalogue == catalogue
    {
      this.dao := dao;
      this.accounts := accounts;
      this.catalogue := catalogue;
    }

    /** Resolve the account, then return its stored cart, or create, save and
        return a new one. An unknown e-mail fails and touches nothing. */
    method GetCartOrCreate(email: Email) returns (r: Result<Cart, Error>)
      requires dao.Valid()
      modifies dao
      ensures dao.Valid()
      ensures email !in accounts ==> r == Failure(AccountNotFound(email)) && unchanged(dao)
      ensures email in accounts && accounts[email].id in old(dao.carts) ==>
        r == Success(old(dao.carts)[accounts[email].id]) && unchanged(dao)
      ensures email in accounts && accounts[email].id !in old(dao.carts) ==>
        && r == Success(NewCart(accounts[email]))
        && dao.carts == old(dao.carts)[accounts[email].id := NewCart(accounts[email])]
        && dao.saveLog == old(dao.saveLog) + [NewCart(accounts[email])]
      // the same two cases, in the form the other operations build on
      ensures email in accounts ==>
        var account := accounts[email];
        && r == Success(Loaded(old(dao.carts), account))
        && dao.carts == old(dao.carts)[account.id := r.value]
        && dao.saveLog == old(dao.saveLog) + CreationSaves(old(dao.carts), account)
        && dao.carts[account.id] == r.value
    {
      var account := FindByEmail(accounts, email);
      if account.Failure? {
        return Failure(account.error);
      }
      var cartOptional := dao.FindById(account.value.id);
      if cartOptional.Some? {
        r := Success(cartOptional.value);
        assert old(dao.carts)[account.value.id := r.value] == dao.carts;
      } else {
        var created := CreateCart(account.value);
        r := Success(created);
      }
    }

    /** Save a new empty cart for the account and return it. */
    method CreateCart(account: Account) returns (c: Cart)
      requires dao.Valid()
      modifies dao
      ensures dao.Valid()
      ensures c == NewCart(account)
      ensures dao.carts == old(dao.carts)[account.id := c]
      ensures dao.saveLog == old(dao.saveLog) + [c]
    {
      c := dao.Save(NewCart(account));
    }

    /** Add `quantity` of one product. An unknown product fails (after the
        cart has been loaded); an unavailable one leaves the cart as it was
        and is not saved; an available one is applied once and saved once. */
    method AddToCart(email: Email, productId: ProductId, quantity: int) returns (r: Result<Cart, Error>)
      requires dao.Valid()
      modifies dao
      ensures dao.Valid()
      ensures email !in accounts ==> r == Failure(AccountNotFound(email)) && unchanged(dao)
      ensures email in accounts ==>
        var account := accounts[email];
        var cart := Loaded(old(dao.carts), account);
        var loadSaves := old(dao.saveLog) + CreationSaves(old(dao.carts), account);
        if productId !in catalogue then
          && r == Failure(UnknownEntity(productId))
          && dao.carts == old(dao.carts)[account.id := cart]
          && dao.saveLog == loadSaves
        else if !catalogue[productId].available then
          && r == Success(cart)
          && dao.carts == old(dao.carts)[account.id := cart]
          && dao.saveLog == loadSaves
        else
          var updated := cart.(history := cart.history + [UpdateCall(catalogue[productId], quantity)]);
          && r == Success(updated)
          && dao.carts == old(dao.carts)[account.id := updated]
          && dao.saveLog == loadSaves + [updated]
    {
      var loaded := GetCartOrCreate(email);
      if loaded.Failure? {
        return loaded;
      }
      var cart := loaded.value;
      var product := GetProduct(catalogue, productId);
      if product.Failure? {
        return Failure(product.error);
      }
      if product.value.available {
        cart := cart.Update(product.value, quantity);
        var saved := dao.Save(cart);
        r := Success(saved);
      } else {
        r := Success(cart);
      }
    }

    /** Add a batch of items in list order. Items whose product is unknown or
        unavailable are skipped without error; the cart is saved if and only
        if at least one item was applied. */
    method AddAllToCart(email: Email, itemsToAdd: seq<CartItem>) returns (r: Result<Cart, Error>)
      requires dao.Valid()
      modifies dao
      ensures dao.Valid()
      ensures email !in accounts ==> r == Failure(AccountNotFound(email)) && unchanged(dao)
      ensures email in accounts ==>
        var account := accounts[email];
        var cart := Loaded(old(dao.carts), account);
        var applied := BatchUpdates(catalogue, itemsToAdd);
        var updated := cart.(history := cart.history + applied);
        && r == Success(updated)
        && dao.carts == old(dao.carts)[account.id := updated]
        && dao.saveLog == old(dao.saveLog) + CreationSaves(old(dao.carts), account)
                          + (if applied != [] then [updated] else [])
    {
      var loaded := GetCartOrCreate(email);
      if loaded.Failure? {
        return loaded;
      }
      var cart := loaded.value;
      ghost var start := cart;
      var updated := false;
      for i := 0 to |itemsToAdd|
        invariant cart == start.UpdateAll(BatchUpdates(catalogue, itemsToAdd[..i]))
        invariant updated <==> BatchUpdates(catalogue, itemsToAdd[..i]) != []
        modifies {}
      {
        var item := itemsToAdd[i];
        var product := FindOne(catalogue, item.product.id);
        BatchStep(catalogue, itemsToAdd, i, start);
        if product.Some? && product.value.available {
          cart := cart.Update(product.value, item.quantity);
          updated := true;
        }
      }
      assert itemsToAdd[..|itemsToAdd|] == itemsToAdd;
      if updated {
        var saved := dao.Save(cart);
        r := Success(saved);
      } else {
        r := Success(cart);
      }
    }

    /** Set the delivery flag and save, whether or not the flag changes. Only
        the flag differs from the loaded cart. */
    method SetDelivery(email: Email, deliveryIncluded: bool) returns (r: Result<Cart, Error>)
      requires dao.Valid()
      modifies dao
      ensures dao.Valid()
      ensures email !in accounts ==> r == Failure(AccountNotFound(email)) && unchanged(dao)
      ensures email in accounts ==>
        var account := accounts[email];
        var cart := Loaded(old(dao.carts), account);
        var updated := cart.(deliveryIncluded := deliveryIncluded);
        && r == Success(updated)
        && dao.carts == old(dao.carts)[account.id := updated]
        && dao.saveLog == old(dao.saveLog) + CreationSaves(old(dao.carts), account) + [updated]
    {
      var loaded := GetCartOrCreate(email);
      if loaded.Failure? {
        return loaded;
      }
      var cart := loaded.value.SetDeliveryIncluded(deliveryIncluded);
      var saved := dao.Save(cart);
      r := Success(saved);
    }

    /** Empty the cart and save, even when it was already empty. Owner and
        delivery flag stay as they were. */
    method ClearCart(email: Email) returns (r: Result<Cart, Error>)
      requires dao.Valid()
      modifies dao
      ensures dao.Valid()
      ensures email !in accounts ==> r == Failure(AccountNotFound(email)) && unchanged(dao)
      ensures email in accounts ==>
        var account := accounts[email];
        var cart := Loaded(old(dao.carts), account);
        var cleared := cart.(history := []);
        && r == Success(cleared)
        && dao.carts == old(dao.carts)[account.id := cleared]
        && dao.saveLog == old(dao.saveLog) + CreationSaves(old(dao.carts), account) + [cleared]
    {
      var loaded := GetCartOrCreate(email);
      if loaded.Failure? {
        return loaded;
      }
      var cart := loaded.value.Clear();
      var saved := dao.Save(cart);
      r := Success(saved);
    }
  }
}
