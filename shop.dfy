/**
 * The server's handlers as one sequential in-memory store. The product, user
 * and order collections of the database become fields; each handler is one
 * atomic step on them. The confirmation mail is an append to an outbox.
 */
module Shop {
  import opened Outcomes
  import opened Auth
  import opened Catalog
  import opened Cart
  import opened Orders

  /** A registered user; the password is stored and compared as plain text. */
  datatype User = User(name: string, email: string, password: string, cart: CartData)

  ghost predicate EmailTaken(users: map<UserId, User>, email: string)
  {
    exists uid :: uid in users && users[uid].email == email
  }

  ghost predicate EmailsUnique(users: map<UserId, User>)
  {
    forall a, b :: a in users && b in users && users[a].email == users[b].email ==> a == b
  }

  class Store {
    var products: seq<Product>
    var users: map<UserId, User>
    var nextUserId: UserId
    var orders: map<OrderId, Order>
    var nextOrderId: OrderId
    var outbox: seq<Notification>

    /** Product ids are well numbered, no two users share an email, and the id
        counters stand for fresh database ids. */
    ghost predicate Valid()
      reads this
    {
      && WellNumbered(products)
      && EmailsUnique(users)
      && (forall uid :: uid in users ==> uid < nextUserId)
      && (forall oid :: oid in orders ==> oid < nextOrderId)
    }

    constructor ()
      ensures Valid()
      ensures products == [] && users == map[] && orders == map[] && outbox == []
      ensures nextUserId == 0 && nextOrderId == 0
    {
      products := [];
      users := map[];
      nextUserId := 0;
      orders := map[];
      nextOrderId := 0;
      outbox := [];
    }

    // -------------------------------------------------------------------------
    // Catalog

    /** `/addproduct`: a product with an empty required string fails at save and
        nothing is stored; otherwise it is appended, available, under the id
        NextId picks, which is positive and above every id in use. The handler
        answers only success and the name: the returned id stands for what
        `/allproducts` would show afterwards. */
    method AddProduct(name: string, image: string, category: string, newPrice: int, oldPrice: int,
                      description: string, author: string) returns (r: Result<int>)
      requires Valid()
      modifies this`products
      ensures Valid()
      ensures !ListingComplete(name, image, category, description, author) ==>
        r == Err(ValidationError) && products == old(products)
      ensures ListingComplete(name, image, category, description, author) ==>
        var id := NextId(old(products));
        && r == Ok(id)
        && id >= 1 && (forall p :: p in old(products) ==> p.id < id)
        && products == old(products) + [Product(id, name, image, category, newPrice, oldPrice, description, author, true)]
    {
      var id: int;
      if |products| > 0 {
        var last := products[|products| - 1];
        id := last.id + 1;
      } else {
        id := 1;
      }
      var product := Product(id, name, image, category, newPrice, oldPrice, description, author, true);
      if !ListingComplete(name, image, category, description, author) {
        r := Err(ValidationError);
        return;
      }
      AppendKeepsNumbering(products, product);
      products := products + [product];
      r := Ok(id);
    }

    /** `/removeproduct`: deletes the first product with that id, if any. */
    method RemoveProduct(id: int)
      requires Valid()
      modifies this`products
      ensures Valid()
      ensures products == RemoveFirst(old(products), id)
      ensures forall p :: p in products ==> p.id != id
    {
      RemoveKeepsNumbering(products, id);
      products := RemoveFirst(products, id);
    }

    // -------------------------------------------------------------------------
    // Users

    /** `/signup`: refused for a registered email; otherwise stores one new user
        under a fresh id with a fresh cart and returns that user's token. */
    method Signup(username: string, email: string, password: string) returns (r: Result<Token>)
      requires Valid()
      modifies this`users, this`nextUserId
      ensures Valid()
      ensures EmailTaken(old(users), email) ==>
        r == Err(DuplicateEmail) && users == old(users) && nextUserId == old(nextUserId)
      ensures !EmailTaken(old(users), email) ==>
        var uid := old(nextUserId);
        && r == Ok(Issue(uid))
        && uid !in old(users)
        && uid in users
        && users == old(users)[uid := User(username, email, password, users[uid].cart)]
        && IsFreshCart(users[uid].cart)
    {
      if exists uid :: uid in users && users[uid].email == email {
        r := Err(DuplicateEmail);
        return;
      }
      var cart := NewCart();
      var uid := nextUserId;
      users := users[uid := User(username, email, password, cart)];
      nextUserId := nextUserId + 1;
      r := Ok(Issue(uid));
    }

    /** `/login`: succeeds exactly when a user has that email and that very
        password, and then returns that user's token; distinguishes an unknown
        email from a wrong password; changes nothing. */
    method Login(email: string, password: string) returns (r: Result<Token>)
      requires Valid()
      ensures r.Ok? <==> exists uid :: uid in users && users[uid].email == email && users[uid].password == password
      ensures r.Ok? ==> r.value.Signed? && r.value.userId in users
                        && users[r.value.userId].email == email && users[r.value.userId].password == password
      ensures r.Err? ==> r.error == if EmailTaken(users, email) then WrongPassword else UnknownEmail
    {
      if uid :| uid in users && users[uid].email == email {
        if users[uid].password == password {
          r := Ok(Issue(uid));
        } else {
          r := Err(WrongPassword);
        }
      } else {
        r := Err(UnknownEmail);
      }
    }

    // -------------------------------------------------------------------------
    // Carts

    /** `fetchUser` followed by the user lookup of the cart handlers: the token
        must be present and verify, and its user must exist. */
    function Resolve(header: Option<Token>): (r: Result<UserId>)
      reads this
      ensures r.Ok? <==> Authenticate(header).Ok? && Authenticate(header).value in users
      ensures r.Ok? ==> r.value == Authenticate(header).value
      ensures r.Err? ==> r.error == if Authenticate(header).Err? then Authenticate(header).error else UserNotFound
    {
      match Authenticate(header)
      case Err(e) => Err(e)
      case Ok(uid) => if uid in users then Ok(uid) else Err(UserNotFound)
    }

    /** The slot `/addtocart` raises exists in the caller's cart (otherwise the
        source computes NaN). */
    ghost predicate HasSlot(header: Option<Token>, itemId: int)
      reads this
    {
      Resolve(header).Ok? ==> itemId in users[Resolve(header).value].cart
    }

    /** `/addtocart`: raises the caller's slot by exactly one; every other slot
        and every other user stay as they were. */
    method AddToCart(header: Option<Token>, itemId: int) returns (r: Result<()>)
      requires Valid()
      requires HasSlot(header, itemId)
      modifies this`users
      ensures Valid()
      ensures old(Resolve(header)).Err? ==> r == Err(old(Resolve(header)).error) && users == old(users)
      ensures old(Resolve(header)).Ok? ==>
        var uid := old(Resolve(header)).value;
        && r == Ok(())
        && users == old(users)[uid := old(users)[uid].(cart := Increment(old(users)[uid].cart, itemId))]
    {
      var who := Resolve(header);
      if who.Err? {
        r := Err(who.error);
        return;
      }
      var user := users[who.value];
      var cart := user.cart;
      cart := cart[itemId := cart[itemId] + 1];
      users := users[who.value := user.(cart := cart)];
      r := Ok(());
    }

    /** `/removefromcart`: lowers the caller's slot by one when it is positive,
        leaves it otherwise; every other slot and user stay as they were. */
    method RemoveFromCart(header: Option<Token>, itemId: int) returns (r: Result<()>)
      requires Valid()
      modifies this`users
      ensures Valid()
      ensures old(Resolve(header)).Err? ==> r == Err(old(Resolve(header)).error) && users == old(users)
      ensures old(Resolve(header)).Ok? ==>
        var uid := old(Resolve(header)).value;
        && r == Ok(())
        && users == old(users)[uid := old(users)[uid].(cart := Decrement(old(users)[uid].cart, itemId))]
    {
      var who := Resolve(header);
      if who.Err? {
        r := Err(who.error);
        return;
      }
      var user := users[who.value];
      var cart := user.cart;
      if itemId in cart && cart[itemId] > 0 {
        cart := cart[itemId := cart[itemId] - 1];
      }
      users := users[who.value := user.(cart := cart)];
      r := Ok(());
    }

    /** `/getcart`: the caller's whole cart. */
    method GetCart(header: Option<Token>) returns (r: Result<CartData>)
      ensures r.Ok? <==> Resolve(header).Ok?
      ensures r.Ok? ==> r.value == users[Resolve(header).value].cart
      ensures r.Err? ==> r.error == Resolve(header).error
    {
      var who := Resolve(header);
      if who.Err? {
        r := Err(who.error);
      } else {
        r := Ok(users[who.value].cart);
      }
    }

    /** `/updatecart`: replaces the caller's cart with the given map, unchecked.
        Only the token is checked: for a user id that matches nobody the write
        matches nothing and the call still succeeds. */
    method UpdateCart(header: Option<Token>, cart: CartData) returns (r: Result<()>)
      requires Valid()
      modifies this`users
      ensures Valid()
      ensures Authenticate(header).Err? ==> r == Err(Authenticate(header).error) && users == old(users)
      ensures Authenticate(header).Ok? ==>
        var uid := Authenticate(header).value;
        && r == Ok(())
        && users == if uid in old(users) then old(users)[uid := old(users)[uid].(cart := cart)] else old(users)
    {
      var who := Authenticate(header);
      if who.Err? {
        r := Err(who.error);
        return;
      }
      if who.value in users {
        var user := users[who.value];
        users := users[who.value := user.(cart := cart)];
      }
      r := Ok(());
    }

    // -------------------------------------------------------------------------
    // Orders

    /** `/order`: an order with an empty contact string fails at save and nothing
        is stored; otherwise the submitted order is stored, pending, under a
        fresh id. The handler answers only success and a message: the returned
        id stands for what `/api/admin/orders` would show afterwards. */
    method PlaceOrder(name: string, email: string, address: string, city: string, phoneNumber: string,
                      items: seq<LineItem>, total: int) returns (r: Result<OrderId>)
      requires Valid()
      modifies this`orders, this`nextOrderId
      ensures Valid()
      ensures !ContactComplete(name, email, address, city, phoneNumber) ==>
        r == Err(ValidationError) && orders == old(orders) && nextOrderId == old(nextOrderId)
      ensures ContactComplete(name, email, address, city, phoneNumber) ==>
        var id := old(nextOrderId);
        && r == Ok(id)
        && id !in old(orders)
        && orders == old(orders)[id := Placed(name, email, address, city, phoneNumber, items, total)]
        && orders[id].status == Pending
    {
      if !ContactComplete(name, email, address, city, phoneNumber) {
        r := Err(ValidationError);
        return;
      }
      var id := nextOrderId;
      orders := orders[id := Placed(name, email, address, city, phoneNumber, items, total)];
      nextOrderId := nextOrderId + 1;
      r := Ok(id);
    }

    /** `/api/admin/orders/confirm`: an unknown id fails and changes nothing;
        a stored order becomes confirmed, and then exactly one notice with its
        email, name, items and total is queued. */
    method ConfirmOrder(orderId: OrderId) returns (r: Result<()>)
      requires Valid()
      modifies this`orders, this`outbox
      ensures Valid()
      ensures orderId !in old(orders) ==>
        r == Err(OrderNotFound) && orders == old(orders) && outbox == old(outbox)
      ensures orderId in old(orders) ==>
        && r == Ok(())
        && orders == old(orders)[orderId := Confirm(old(orders)[orderId])]
        && orders[orderId].status == Confirmed
        && outbox == old(outbox) + [NoticeFor(old(orders)[orderId])]
    {
      if orderId !in orders {
        r := Err(OrderNotFound);
        return;
      }
      var order := orders[orderId];
      order := order.(status := Confirmed);
      orders := orders[orderId := order];
      outbox := outbox + [NoticeFor(order)];
      r := Ok(());
    }

    /** `/api/admin/orders/delete`: removes the id whether or not it was stored,
        and always reports success. */
    method DeleteOrder(orderId: OrderId) returns (success: bool)
      requires Valid()
      modifies this`orders
      ensures Valid()
      ensures success
      ensures orders == old(orders) - {orderId}
    {
      orders := orders - {orderId};
      success := true;
    }
  }

  /** `/updatecart` followed by `/getcart` with the same token returns exactly
      the map that was sent, for any existing user. */
  method UpdateThenGet(store: Store, header: Option<Token>, cart: CartData) returns (r: Result<CartData>)
    requires store.Valid()
    modifies store
    ensures old(store.Resolve(header)).Ok? ==> r == Ok(cart)
    ensures old(store.Resolve(header)).Err? ==> r == Err(old(store.Resolve(header)).error)
  {
    var _ := store.UpdateCart(header, cart);
    r := store.GetCart(header);
  }
}
