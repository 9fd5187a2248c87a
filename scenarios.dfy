/**
 * Walkthroughs of the storefront, each run on a fresh store and proved from
 * the handlers' contracts alone.
 */
module Scenarios {
  import opened Outcomes
  import opened Auth
  import opened Cart
  import opened Orders
  import opened Catalog
  import opened Shop

  /** A fresh store after adding products "A" and "B": they get ids 1 and 2. */
  method TwoProductStore() returns (store: Store, first: Result<int>, second: Result<int>)
    ensures fresh(store) && store.Valid()
    ensures first == Ok(1) && second == Ok(2)
    ensures |store.products| == 2 && store.products[0].id == 1 && store.products[1].id == 2
  {
    store := new Store();
    assert ListingComplete("A", "a.png", "dc", "First issue", "Ann");
    first := store.AddProduct("A", "a.png", "dc", 10, 12, "First issue", "Ann");
    assert ListingComplete("B", "b.png", "dc", "Second issue", "Ann");
    second := store.AddProduct("B", "b.png", "dc", 10, 12, "Second issue", "Ann");
  }

  /** Add, add, remove id 1, add: the ids handed out are 1, 2 and 3. */
  method IdsAfterRemovingFirst() returns (first: Result<int>, second: Result<int>, third: Result<int>)
    ensures first == Ok(1) && second == Ok(2) && third == Ok(3)
  {
    var store;
    store, first, second := TwoProductStore();
    ghost var a, b := store.products[0], store.products[1];
    assert store.products == [a, b];
    assert RemoveFirst([a, b], 1) == [b] by {
      assert IndexOfId([a, b], 1) == 0;
    }
    store.RemoveProduct(1);
    assert ListingComplete("C", "c.png", "dc", "Third issue", "Ann");
    third := store.AddProduct("C", "c.png", "dc", 10, 12, "Third issue", "Ann");
  }

  /** Add, add, remove id 2, add: the removed id 2 is handed out again. */
  method IdsAfterRemovingLast() returns (second: Result<int>, third: Result<int>)
    ensures second == Ok(2) && third == Ok(2)
  {
    var store, first;
    store, first, second := TwoProductStore();
    ghost var a, b := store.products[0], store.products[1];
    assert store.products == [a] + [b];
    LastIdReissued([a], b);
    store.RemoveProduct(2);
    assert ListingComplete("C", "c.png", "dc", "Third issue", "Ann");
    third := store.AddProduct("C", "c.png", "dc", 10, 12, "Third issue", "Ann");
  }

  /** A product with an empty author is refused and uses up no id: the next
      complete product still gets id 1. */
  method EmptyFieldRejected() returns (refused: Result<int>, accepted: Result<int>)
    ensures refused == Err(ValidationError) && accepted == Ok(1)
  {
    var store := new Store();
    refused := store.AddProduct("A", "a.png", "dc", 10, 12, "First issue", "");
    accepted := store.AddProduct("A", "a.png", "dc", 10, 12, "First issue", "Ann");
  }

  /** Signup, login, add slot 5, read the cart, remove slot 5, read it again. */
  method CartWalkthrough() returns (afterAdd: int, afterRemove: int, again: Result<Token>)
    ensures afterAdd == 1 && afterRemove == 0
    ensures again == Err(DuplicateEmail)
  {
    var store := new Store();
    var signedUp := store.Signup("ann", "a@x.com", "pw");
    again := store.Signup("bob", "a@x.com", "other");
    var login := store.Login("a@x.com", "pw");
    assert login.Ok? by {
      assert 0 in store.users && store.users[0].email == "a@x.com" && store.users[0].password == "pw";
    }
    var header := Some(login.value);
    var _ := store.AddToCart(header, 5);
    var cart := store.GetCart(header);
    afterAdd := cart.value[5];
    var _ := store.RemoveFromCart(header, 5);
    cart := store.GetCart(header);
    afterRemove := cart.value[5];
  }

  /** The cart handlers refuse a missing header and an unverifiable token. */
  method CartNeedsToken() returns (missing: Result<CartData>, forged: Result<CartData>)
    ensures missing == Err(MissingCredential) && forged == Err(InvalidCredential)
  {
    var store := new Store();
    var _ := store.Signup("ann", "a@x.com", "pw");
    missing := store.GetCart(None);
    forged := store.GetCart(Some(Unverifiable));
  }

  /** Place an order, confirm it: it is confirmed and exactly one notice with
      its email and total is queued. Confirming an unknown id queues nothing. */
  method OrderWalkthrough() returns (status: OrderStatus, notices: seq<Notification>, unknown: Result<()>)
    ensures status == Confirmed
    ensures |notices| == 1 && notices[0].recipient == "a@x.com" && notices[0].total == 30
    ensures unknown == Err(OrderNotFound)
  {
    var store := new Store();
    var placed := store.PlaceOrder("ann", "a@x.com", "Main St 1", "Kyiv", "555", [LineItem("A", 10, 3)], 30);
    var id := placed.value;
    unknown := store.ConfirmOrder(id + 1);
    var _ := store.ConfirmOrder(id);
    status := store.orders[id].status;
    notices := store.outbox;
  }
}
