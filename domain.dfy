/** The entities the cart service works with, and the read-only lookups it
    makes in the account service and the product service. */
module Domain {
  import opened Wrappers

  type Email = string
  type AccountId = int
  type ProductId = int

  /** A user account: its identity key and the e-mail it is looked up by. */
  datatype Account = Account(id: AccountId, email: Email)

  /** A catalogue product: its identity key and whether it may be sold. */
  datatype Product = Product(id: ProductId, available: bool)

  /** One line of a batch request: the product it refers to and a quantity.
      Only the product's id is used; the catalogue decides availability. */
  datatype CartItem = CartItem(product: Product, quantity: int)

  /** One call `cart.update(product, quantity)`. */
  datatype UpdateCall = UpdateCall(product: Product, quantity: int)

  /** A cart. Its identity is the identity of the account that owns it.
      What `update` does to the item lines is not part of this model, so the
      items are represented by the update calls applied to the cart since it
      was created or last cleared, in the order they were applied; whatever
      the item lines are, they are determined by that history. */
  datatype Cart = Cart(owner: AccountId, history: seq<UpdateCall>, deliveryIncluded: bool)
  {
    /** `cart.update(product, quantity)` */
    function Update(product: Product, quantity: int): Cart {
      this.(history := history + [UpdateCall(product, quantity)])
    }

    /** The calls of `calls` applied one after the other. */
    function UpdateAll(calls: seq<UpdateCall>): Cart {
      this.(history := history + calls)
    }

    /** `cart.setDeliveryIncluded(included)` */
    function SetDeliveryIncluded(included: bool): Cart {
      this.(deliveryIncluded := included)
    }

    /** `cart.clear()`: the items go, owner and delivery flag stay. */
    function Clear(): Cart {
      this.(history := [])
    }
  }

  /** A table of carts in which each cart is stored under the id of the
      account that owns it. */
  predicate KeyedByOwner(carts: map<AccountId, Cart>) {
    forall id | id in carts :: carts[id].owner == id
  }

  /** `new Cart(account)`: an empty cart owned by the account, delivery off. */
  function NewCart(account: Account): Cart
  {
    Cart(account.id, [], false)
  }

  datatype Error =
    | AccountNotFound(email: Email)     // no account has this e-mail
    | UnknownEntity(productId: ProductId) // UnknownEntityException from getProduct

  /** `userAccountService.findByEmail(email)`: the account, or a failure. */
  function FindByEmail(accounts: map<Email, Account>, email: Email): Result<Account, Error>
  {
    if email in accounts then Success(accounts[email]) else Failure(AccountNotFound(email))
  }

  /** `productService.getProduct(id)`: the product, or UnknownEntityException. */
  function GetProduct(catalogue: map<ProductId, Product>, id: ProductId): Result<Product, Error>
  {
    if id in catalogue then Success(catalogue[id]) else Failure(UnknownEntity(id))
  }

  /** `productService.findOne(id)`: the product, or an empty Optional. */
  function FindOne(catalogue: map<ProductId, Product>, id: ProductId): Option<Product>
  {
    if id in catalogue then Some(catalogue[id]) else None
  }
}
