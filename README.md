# Comic shop storefront backend — a verified model of its handlers

The storefront server keeps three collections: products, users (each with a
shopping cart) and orders. Beneath its HTTP and database calls, each handler
is a small step on that state. This project models those steps in Dafny as one
sequential in-memory store and proves what each one does.

- `outcomes.dfy` (module `Outcomes`): the errors the handlers report, plus
  `Result` and `Option`.
- `auth.dfy` (module `Auth`): the `fetchUser` token gate. A token is opaque.
  It is either one the server signed for a user id, or anything else.
- `catalog.dfy` (module `Catalog`): product id assignment, the removal of the
  first product with an id, and the new-collection, related-products and
  popular-in-"dc" queries. All of these are functions, with lemmas about them.
- `cart.dfy` (module `Cart`): the signup loop that builds a cart with slots
  0..299 at 0, the one-slot increment and decrement, and lemmas about runs of
  add and remove requests on one slot.
- `orders.dfy` (module `Orders`): orders, their pending/confirmed status and
  the confirmation notice.
- `shop.dfy` (module `Shop`): the class `Store`. Its fields are the products
  (a `seq`), the users and the orders (`map`s keyed by id), two id counters
  and the outbox of notices. It has one method per handler. Its invariant
  `Valid()` says three things. Product ids start at 1 and strictly increase
  in catalog order. No two users share an email. Every stored id is below its
  counter.
- `scenarios.dfy` (module `Scenarios`): walkthroughs on a fresh store. Each one
  is proved from the handlers' contracts alone.

Several properties one would expect of a storefront like this do not hold
for this code. The model follows the code:

- **Product ids.** The code numbers a new product as "id of the last product
  + 1" (index.js:94-102), not "largest id + 1". Under the invariant the two
  agree (`NextIdIsMaxPlusOne`). But ids are not sequence numbers that are never
  reused. Removing the newest product and adding another hands out the same id
  again (`LastIdReissued`, `Scenarios.IdsAfterRemovingLast`).
- **`/updatecart`.** The code checks neither slots nor quantities
  (index.js:286). If the token's user does not exist, the write matches
  nothing and the handler still reports success. `UpdateCart` models exactly
  that.
- **Schema validation.** The handlers themselves validate nothing
  (index.js:103-112, 418-420). The schemas mark every product string and every
  order contact string as `required` (index.js:53-80, 364-368). That check
  rejects an empty string at save, so nothing is stored. `AddProduct` and
  `PlaceOrder` return `ValidationError` in that case and leave the state
  unchanged (`Scenarios.EmptyFieldRejected`).
- **Runs of add/remove.** One might expect "final quantity = #adds −
  #removes, clamped at 0". That holds when every add comes before every remove
  (`AddsThenRemoves`). It fails when a remove meets an empty slot and a later add
  leaves the slot above 0, because that remove is lost: remove-then-add leaves
  1 (`RemoveOnEmptyIsLost`). What holds
  for every run is a set of bounds (`QuantityBounds`).
- **Missing user.** `/addtocart`, `/removefromcart` and `/getcart` read
  `userData.cartData` without checking that the user was found. For a verified
  token whose user does not exist, the code throws and nothing changes. The
  model reports `UserNotFound` and changes nothing.

## Model

| member | source | states |
|---|---|---|
| `Auth.Authenticate` | index.js:240-253 | a missing header is rejected as missing, an unverifiable token as invalid; a success comes only from a token issued for the returned user id |
| `Auth.IssuedTokenAuthenticates` | index.js:181-187 | a token issued at signup/login for a user authenticates as exactly that user |
| `Catalog.NextId` | index.js:94-102 | in a well-numbered catalog the new id is at least 1 and greater than every id in use |
| `Catalog.MaxId` | index.js:92-102 | reference "largest id": 0 for an empty catalog, otherwise bounds every id and is one of them (or 0) |
| `Catalog.NextIdIsMaxPlusOne` | index.js:94-102 | in a well-numbered catalog "last id + 1" equals "largest id + 1" |
| `Catalog.AppendKeepsNumbering` | index.js:92-114 | appending a product under NextId keeps ids positive and strictly increasing |
| `Catalog.IndexOfId` | index.js:125 | the position of the first product with the id: no earlier product has it, and the one there does (or none does) |
| `Catalog.RemoveFirst` | index.js:125 | removal deletes exactly the first product with the id, keeping all others in order; without a match the catalog is unchanged |
| `Catalog.DeleteAtKeepsNumbering` | index.js:125 | deleting any one product keeps the catalog well numbered |
| `Catalog.RemoveKeepsNumbering` | index.js:125 | removal keeps the catalog well numbered and leaves no product with that id |
| `Catalog.LastIdReissued` | index.js:94-102 | after adding a product and removing it again, the catalog is as before and the next id is the removed one: ids are reused |
| `Catalog.NewestAfterFirst` | index.js:218 | for n ≥ 1, `slice(1).slice(-n)` returns the last min(n, len−1) products, a suffix that never includes the first |
| `Catalog.NewCollections` | index.js:216-221 | at most 8 products: all but the first while there are at most 9, else the newest 8 |
| `Catalog.RelatedProducts` | index.js:224-229 | at most 4 products: all but the first while there are at most 5, else the newest 4 |
| `Catalog.RelatedWithinNewCollections` | index.js:218-226 | the related products are the newest (up to) four of the new collection |
| `Catalog.InCategory` | index.js:233 | a product is in the filtered list exactly when it is in the catalog with category "dc" |
| `Catalog.InCategoryDistributes` | index.js:233 | the category filter commutes with concatenation, so it keeps catalog order |
| `Catalog.PopularInDc` | index.js:232-237 | the first min(4, #dc) "dc" products, in catalog order, all from the catalog |
| `Catalog.PopularStableUnderAppend` | index.js:233-234 | once four "dc" products exist, adding products never changes the popular list |
| `Cart.NewCart` | index.js:168-171 | the cart built at signup has exactly the slots 0..299, each 0 |
| `Cart.Increment` | index.js:259 | the slot gains exactly 1, every other slot and the key set stay, non-negativity is kept |
| `Cart.Decrement` | index.js:269-270 | a positive slot loses 1; a zero or absent slot is left alone; other slots and keys stay; quantities never become negative |
| `Cart.ReplayTouchesOneSlot` | index.js:256-273 | a run of add/remove requests on one slot changes that slot as the quantity replay says and no other slot |
| `Cart.QuantityBounds` | index.js:259-270 | from q ≥ 0 a run ends at ≥ 0, ≥ q + adds − removes and ≤ q + adds |
| `Cart.QuantityConcat` | index.js:259-270 | replaying two runs one after another equals replaying their concatenation |
| `Cart.QuantityAfterAdds` | index.js:259 | a adds raise a quantity by exactly a |
| `Cart.QuantityAfterRemoves` | index.js:269-270 | d removes on q ≥ 0 leave max(0, q − d) |
| `Cart.AddsThenRemoves` | index.js:259-270 | a adds then d removes leave max(0, q + a − d) |
| `Cart.RemoveOnEmptyIsLost` | index.js:269-270 | remove-then-add on an empty slot leaves 1, add-then-remove leaves 0 |
| `Orders.Placed` | index.js:363-372 | a new order carries the submitted name, email, address, city, phone number, items and total, with status pending |
| `Orders.Confirm` | index.js:390 | confirmation sets status confirmed and changes no other field |
| `Orders.NoticeFor` | index.js:394-399 | the notice carries the order's email as recipient, its name, items and total |
| `Orders.ConfirmIdempotent` | index.js:389-399 | confirming twice equals confirming once; the notice built from the confirmed order equals the one from the submitted order |
| `Shop.Store.constructor` | index.js:16 | an empty store satisfies the invariant |
| `Shop.Store.AddProduct` | index.js:91-120 | an empty required string fails with ValidationError and the catalog unchanged; otherwise it appends one available product whose id is NextId of the old catalog, at least 1 and above every id in use; the invariant is kept |
| `Shop.Store.RemoveProduct` | index.js:124-131 | the catalog becomes RemoveFirst of the old one and holds no product with that id; the invariant is kept |
| `Shop.Store.Signup` | index.js:162-190 | a registered email fails with nothing changed; otherwise exactly one user is added under a fresh id with a fresh cart, and that user's token is returned |
| `Shop.Store.Login` | index.js:193-213 | succeeds exactly when some user has that email and that password, returning that user's token; otherwise unknown email or wrong password; nothing changes |
| `Shop.Store.Resolve` | index.js:240-258 | a user id comes back exactly when the token authenticates and its user exists; otherwise the token error or user-not-found |
| `Shop.Store.AddToCart` | index.js:256-262 | an authentication failure changes nothing; otherwise only the caller's slot changes, by Increment; other users are unchanged |
| `Shop.Store.RemoveFromCart` | index.js:266-273 | an authentication failure changes nothing; otherwise only the caller's slot changes, by Decrement; other users are unchanged |
| `Shop.Store.GetCart` | index.js:276-280 | returns the caller's whole cart, or the authentication failure |
| `Shop.Store.UpdateCart` | index.js:283-288 | after a valid token the caller's cart becomes exactly the given map (nothing changes for an unknown user) and success is reported |
| `Shop.Store.PlaceOrder` | index.js:417-424 | an empty contact string fails with ValidationError and the orders unchanged; otherwise it stores exactly one new order, pending, under a fresh id, with other orders unchanged |
| `Shop.Store.ConfirmOrder` | index.js:381-406 | an unknown id fails with no change and no notice; otherwise the order becomes confirmed and exactly one notice with its email, name, items and total is queued |
| `Shop.Store.DeleteOrder` | index.js:409-413 | the id is removed whether or not it was stored, and success is always reported |
| `Shop.UpdateThenGet` | index.js:276-288 | updatecart then getcart with the same token returns exactly the map sent, for an existing user |
| `Scenarios.IdsAfterRemovingFirst` | index.js:91-131 | add, add, remove id 1, add hands out ids 1, 2, 3 |
| `Scenarios.IdsAfterRemovingLast` | index.js:91-131 | add, add, remove id 2, add hands out id 2 twice |
| `Scenarios.EmptyFieldRejected` | index.js:53-114 | a product with an empty author is refused and uses up no id: the next complete product gets id 1 |
| `Scenarios.CartWalkthrough` | index.js:162-280 | signup, login, add slot 5 reads 1, remove slot 5 reads 0; a second signup with the same email fails |
| `Scenarios.CartNeedsToken` | index.js:240-253 | getcart without a header or with an unverifiable token is refused |
| `Scenarios.OrderWalkthrough` | index.js:381-424 | a placed order, once confirmed, is confirmed and exactly one notice with its email and total is queued; an unknown id is not found |

## Left out

- HTTP routing, status codes, JSON response bodies and console logging: these
  are transport. Each handler returns its outcome as a `Result`.
- The database. MongoDB is replaced by in-memory collections in natural order.
  Generated ObjectIds become two counters (`nextUserId`, `nextOrderId`).
  Malformed ids are not modelled: a malformed id makes confirm answer 500 and
  makes delete throw. Store outages and the unhandled rejections they cause
  are not modelled either.
- Image upload and static serving (index.js:26-44): file I/O and the clock.
- JWT signing and verification: a foreign crypto library. A token is opaque:
  `Signed(userId)` or `Unverifiable`. Token expiry does not exist in the
  source.
- Sending mail with nodemailer and its HTML template (index.js:291-361): I/O.
  A confirmation is an append to `outbox`. A failed send is only logged by the
  source, so it has no effect on the state.
- The feedback endpoint (index.js:302-325): it only sends mail. Every call
  throws a ReferenceError at index.js:307, because the identifier `Вітаю` is
  never defined, and Express answers 500.
- The `/allproducts` and `/api/admin/orders` listing endpoints: they return a
  collection unchanged.
- Concurrency: requests that interleave at `await` points can lose cart
  updates or assign the same product id twice. Each handler here is one atomic
  step.
- The `date` default fields of the schemas: the clock.
- Prices and totals are JavaScript numbers. Here they are integers, so
  fractional prices are not modelled.
- Mongoose's `required` check on the order's `items` array and on the numeric
  fields: every parameter is typed here, so no value can be absent.
- Request bodies with missing fields, and values of other JSON types (a
  string `itemId`, a non-numeric cart value), are not modelled. Every
  parameter is typed.
- Shop.Store.AddToCart: requires the slot to be in the caller's cart. On a
  missing slot the source stores `NaN`, which has no counterpart in integers.
  Cart slots run 0..299 while product ids start at 1, so a product with id 300
  or more has no slot.
