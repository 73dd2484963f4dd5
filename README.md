# Cart service model

A Dafny model of the cart service of the `market` shop backend (`CartServiceImpl`). Every account has exactly one cart, created the first time the account's cart is accessed. Four operations change a cart:
- add one product (`addToCart`);
- add a batch of products (`addAllToCart`);
- set the delivery flag (`setDelivery`);
- empty the cart (`clearCart`).

Each operation first resolves the account by e-mail. It then loads the stored cart, or creates and saves a new one. It changes the cart in memory. Finally it decides whether to write the cart back through the cart store. The model is built to show which writes happen, and when.

Structure:
- `wrappers.dfy` has `Option` (for `java.util.Optional`) and `Result` (for the exceptions the service lets through).
- `domain.dfy` has the entities and the two read-only collaborators:
  - The account service is a table from e-mail to account.
  - The product service is a table from product id to product. It offers `getProduct`, which fails on an unknown id, and `findOne`, which returns an empty `Option` for an unknown id.
- `persistence.dfy` has the cart store `CartDao`. It is a class holding the carts keyed by account id. A ghost log records every cart passed to `save`, in call order. Its invariant `Valid` says each cart is stored under the id of the account that owns it.
- `batch.dfy` specifies which lines of a batch reach the cart, and in what order.
- `cart_service.dfy` has the service class `CartServiceImpl`. It holds the cart store and the two tables. It has one method per operation, and `addAllToCart`'s `for` loop carries an invariant over the processed prefix.
- `scenarios.dfy` has client methods on one service, proved from the operations' contracts alone.

## How `Cart.update` is represented

The `Cart` class and its `update` method are not part of this model. So a cart's items are represented by the `update(product, quantity)` calls applied to it since it was created or last cleared, in order. Whatever `update` does to the item lines, the lines follow from that sequence of calls. The contracts say exactly which calls are made and in what order. They say nothing about how quantities add up.

Carts are values. Java mutates the loaded cart object in place. Every path that does not call `save` also leaves the cart unchanged, so values and in-place mutation give the same observable result.

## Model

| member | source | states |
|---|---|---|
| `CartService.CartServiceImpl.constructor` | src/main/java/market/service/impl/CartServiceImpl.java:29-33 | The service keeps the cart store, the account table and the catalogue it was given. |
| `CartService.CartServiceImpl.GetCartOrCreate` | src/main/java/market/service/impl/CartServiceImpl.java:37-41 | Unknown e-mail: fails with `AccountNotFound` and the store is untouched. Stored cart: returns it and saves nothing. No stored cart: saves exactly one new empty cart owned by the account and returns it. Either way, afterwards the store holds the returned cart under the account's id. |
| `CartService.CartServiceImpl.CreateCart` | src/main/java/market/service/impl/CartServiceImpl.java:43-47 | Saves `new Cart(account)` once, under the account's id, and returns it. |
| `CartService.Loaded` | src/main/java/market/service/impl/CartServiceImpl.java:39-40 | The cart an account is served is owned by that account. It is the stored cart when one exists; otherwise it is empty with delivery off. |
| `CartService.CartServiceImpl.AddToCart` | src/main/java/market/service/impl/CartServiceImpl.java:51-60 | Unknown e-mail: fails before the product lookup and changes nothing. Unknown product: fails with `UnknownEntity`; only the lazy creation is saved. Unavailable product: returns the loaded cart unchanged; nothing is saved beyond the lazy creation. Available product: exactly one `update(product, quantity)` call, using the catalogue's product, and exactly one extra save of the updated cart. |
| `CartService.CartServiceImpl.AddAllToCart` | src/main/java/market/service/impl/CartServiceImpl.java:64-75 | Unknown e-mail: fails and changes nothing. Otherwise the returned and stored cart is the loaded cart with the `BatchUpdates` calls appended, in list order. It is saved if and only if at least one item was applied. No unknown or unavailable item raises an error. |
| `CartService.CartServiceImpl.SetDelivery` | src/main/java/market/service/impl/CartServiceImpl.java:79-83 | Unknown e-mail: fails and changes nothing. Otherwise only the delivery flag of the loaded cart changes, and the cart is always saved exactly once, even when the flag was already set. |
| `CartService.CartServiceImpl.ClearCart` | src/main/java/market/service/impl/CartServiceImpl.java:87-91 | Unknown e-mail: fails and changes nothing. Otherwise only the items of the loaded cart are removed; owner and delivery flag stay. The cart is always saved exactly once, even when it was already empty. |
| `BatchAdd.BatchUpdates` | src/main/java/market/service/impl/CartServiceImpl.java:67-73 | A batch makes at most one update call per item. It makes none if and only if no item has a known, available product. It makes one per item when every item is applicable. Every call uses an available product taken from the catalogue. |
| `BatchAdd.BatchUpdatesAppend` | src/main/java/market/service/impl/CartServiceImpl.java:67-73 | Items are processed in list order: a list's update calls are its prefix's calls followed by its suffix's calls. |
| `BatchAdd.BatchUpdatesSnoc` | src/main/java/market/service/impl/CartServiceImpl.java:67-73 | Processing one more item gives the earlier items' update calls, followed by that item's call if its product is known and available. |
| `BatchAdd.BatchStep` | src/main/java/market/service/impl/CartServiceImpl.java:69-72 | One loop step on a cart: an applicable item updates the cart exactly once, with the catalogue's product and the item's quantity; any other item leaves it unchanged. The batch has made some update after this step if and only if it had before, or this item applies. |
| `BatchAdd.BatchIgnoresRequestProducts` | src/main/java/market/service/impl/CartServiceImpl.java:68 | Only each item's product id and quantity matter. Availability and anything else carried by the request's product objects have no effect; the catalogue decides. |
| `Persistence.CartDao.FindById` | src/main/java/market/service/impl/CartServiceImpl.java:39 | A cart is found exactly when one is stored under the id, and that cart is owned by that account. |
| `Persistence.CartDao.Save` | src/main/java/market/service/impl/CartServiceImpl.java:46 | Save upserts the cart under its owner's id, keeps the store invariant, appends one entry to the save log and returns the cart. |
| `CartScenarios.LoadTwice` | src/main/java/market/service/impl/CartServiceImpl.java:37-41 | Two loads of the same account return the same cart. Together they save at most the one lazily created cart, so the second load saves nothing. |
| `CartScenarios.SetDeliveryTwice` | src/main/java/market/service/impl/CartServiceImpl.java:79-83 | Setting the same flag twice saves twice; the second call is not short-circuited. |
| `CartScenarios.ClearTwice` | src/main/java/market/service/impl/CartServiceImpl.java:87-91 | Clearing twice saves twice, although the second call finds the cart already empty. |
| `CartScenarios.MixedBatch` | src/main/java/market/service/impl/CartServiceImpl.java:64-75 | A batch of one applicable item and one item with an unknown product applies only the first. It raises no error and saves exactly once beyond a lazy creation. |

## Left out

- The internals of `Cart.update`, `Cart`, `CartItem`, `CartDAO`, `UserAccountService` and `ProductService` are not part of this model. They are represented by the tables and the store described above.
- `AddToCart` and `AddAllToCart` do not state how quantities combine when a product is added again, because `Cart.update` is not shown. They state only which update calls are made.
- `Domain.NewCart`: the `Cart` constructor is not shown. A new cart is assumed to be owned by the account, to have no items and to have delivery off.
- `Domain.FindByEmail`: `UserAccountService.findByEmail` is not shown. It is assumed to return the account stored under the e-mail, and otherwise to fail; the model's failure is `AccountNotFound`, not a specific Java exception.
- `Domain.GetProduct`: `ProductService.getProduct` is not shown. It is assumed to return the catalogue's product for a known id, and otherwise to throw `UnknownEntityException` (the model's `UnknownEntity`), as the `throws` clause of `addToCart` says.
- `Domain.FindOne`: `ProductService.findOne` is not shown. It is assumed to return the same product as `getProduct` for a known id, and an empty optional otherwise.
- `BatchAdd.Applicable`: a batch item applies when the catalogue knows its product id and that catalogue product is available. This is the `findOne(...).isPresent() && isAvailable()` test of the batch loop. It has no contract of its own; `BatchUpdates` and `AddAllToCart` state what follows from it.
- `CartService.CreationSaves`: a helper that lists the save made by lazy creation. It has no contract of its own; `GetCartOrCreate` states what it means.
- `Domain.Cart.Update`: `Cart.update(product, quantity)` is not shown. It is assumed to change only the items, and the items are represented by the sequence of update calls applied so far.
- `Domain.Cart.UpdateAll`: a helper that applies a sequence of update calls in order. It is a model device, not a method of `Cart`.
- `Domain.Cart.SetDeliveryIncluded`: `Cart.setDeliveryIncluded` is not shown. It is assumed to set the delivery flag and change nothing else.
- `Domain.Cart.Clear`: `Cart.clear()` is not shown. It is assumed to remove the items and keep the owner and the delivery flag.
- Null references are not modelled. In Java, a null item list, or an item with no product, makes `addAllToCart` throw `NullPointerException`; the model has no null.
- Transaction boundaries (`@Transactional` and its propagation modes) are not modelled. In particular, there is no rollback of a lazily created cart when `addToCart` then fails on an unknown product; the model keeps that save.
- Debug logging in `createCart` is not modelled. It has no effect on state.
- Persistence behaviour of managed entities is not modelled: no flush of an in-place change unless `save` is called.
- Java's 32-bit `int` quantity, the `long` product id and the account id are unbounded integers here. The service does no arithmetic on them.
- `FakeAuthenInterceptor`, `ServletConfig` and the REST controller tests are request wiring, configuration and HTTP tests, not cart logic, and are not modelled.
