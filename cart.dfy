/**
 * A user's cart: a map from slot number to quantity, created with slots
 * 0..299 all at 0 by `/signup` and changed one slot at a time by
 * `/addtocart` and `/removefromcart`.
 */
module Cart {

  const CartSlots: int := 300

  type CartData = map<int, int>

  /** The cart signup creates: exactly the slots 0..299, each holding 0. */
  ghost predicate IsFreshCart(cart: CartData)
  {
    && (forall slot :: slot in cart <==> 0 <= slot < CartSlots)
    && (forall slot :: slot in cart ==> cart[slot] == 0)
  }

  ghost predicate NonNegative(cart: CartData)
  {
    forall slot :: slot in cart ==> cart[slot] >= 0
  }

  /** Signup's loop that fills slot i with 0 for every i below 300. */
  method NewCart() returns (cart: CartData)
    ensures forall slot :: slot in cart <==> 0 <= slot < CartSlots
    ensures forall slot :: slot in cart ==> cart[slot] == 0
  {
    cart := map[];
    var i := 0;
    while i < CartSlots
      invariant 0 <= i <= CartSlots
      invariant forall slot :: slot in cart <==> 0 <= slot < i
      invariant forall slot :: slot in cart ==> cart[slot] == 0
    {
      cart := cart[i := 0];
      i := i + 1;
    }
  }

  /** `/addtocart` on one cart: the slot gains exactly one, nothing else changes. */
  function Increment(cart: CartData, slot: int): (r: CartData)
    requires slot in cart
    ensures r.Keys == cart.Keys
    ensures r[slot] == cart[slot] + 1
    ensures forall k :: k in cart && k != slot ==> r[k] == cart[k]
    ensures NonNegative(cart) ==> NonNegative(r)
  {
    cart[slot := cart[slot] + 1]
  }

  /** `/removefromcart` on one cart: a positive slot loses one; a slot at zero,
      or one the cart does not have, is left alone. So quantities never drop
      below zero. */
  function Decrement(cart: CartData, slot: int): (r: CartData)
    ensures r.Keys == cart.Keys
    ensures slot in cart && cart[slot] > 0 ==> r[slot] == cart[slot] - 1
    ensures !(slot in cart && cart[slot] > 0) ==> r == cart
    ensures forall k :: k in cart && k != slot ==> r[k] == cart[k]
    ensures NonNegative(cart) ==> NonNegative(r)
  {
    if slot in cart && cart[slot] > 0 then cart[slot := cart[slot] - 1] else cart
  }

  // ---------------------------------------------------------------------------
  // Runs of cart requests on one slot

  datatype CartOp = Add | Remove

  /** The cart after a run of add/remove requests on one slot, in order. */
  function Replay(cart: CartData, slot: int, ops: seq<CartOp>): CartData
    requires slot in cart
    decreases |ops|
  {
    if ops == [] then cart
    else
      var next := if ops[0] == Add then Increment(cart, slot) else Decrement(cart, slot);
      Replay(next, slot, ops[1..])
  }

  /** One request seen from the slot's quantity alone. */
  function Step(q: int, op: CartOp): int
  {
    if op == Add then q + 1 else if q > 0 then q - 1 else q
  }

  /** The same run seen from the slot's quantity alone. */
  function Quantity(q: int, ops: seq<CartOp>): int
    decreases |ops|
  {
    if ops == [] then q else Quantity(Step(q, ops[0]), ops[1..])
  }

  function Count(ops: seq<CartOp>, op: CartOp): nat
  {
    if ops == [] then 0 else (if ops[0] == op then 1 else 0) + Count(ops[1..], op)
  }

  function Repeat(op: CartOp, n: nat): (r: seq<CartOp>)
    ensures |r| == n
  {
    if n == 0 then [] else [op] + Repeat(op, n - 1)
  }

  /** A run of requests on one slot changes that slot as Quantity says and
      leaves every other slot as it was. */
  lemma {:induction false} ReplayTouchesOneSlot(cart: CartData, slot: int, ops: seq<CartOp>)
    requires slot in cart
    ensures Replay(cart, slot, ops).Keys == cart.Keys
    ensures Replay(cart, slot, ops)[slot] == Quantity(cart[slot], ops)
    ensures forall k :: k in cart && k != slot ==> Replay(cart, slot, ops)[k] == cart[k]
  {
    if ops != [] {
      var next := if ops[0] == Add then Increment(cart, slot) else Decrement(cart, slot);
      ReplayTouchesOneSlot(next, slot, ops[1..]);
    }
  }

  /** Starting from a non-negative quantity, a run never goes below zero, never
      exceeds start + adds, and loses at most one per remove. */
  lemma {:induction false} QuantityBounds(q: int, ops: seq<CartOp>)
    requires q >= 0
    decreases |ops|
    ensures Quantity(q, ops) >= 0
    ensures Quantity(q, ops) >= q + Count(ops, Add) - Count(ops, Remove)
    ensures Quantity(q, ops) <= q + Count(ops, Add)
  {
    if ops != [] {
      QuantityBounds(Step(q, ops[0]), ops[1..]);
    }
  }

  lemma {:induction false} QuantityConcat(q: int, xs: seq<CartOp>, ys: seq<CartOp>)
    decreases |xs|
    ensures Quantity(q, xs + ys) == Quantity(Quantity(q, xs), ys)
  {
    if xs == [] {
      assert xs + ys == ys;
    } else {
      assert (xs + ys)[1..] == xs[1..] + ys;
      QuantityConcat(Step(q, xs[0]), xs[1..], ys);
    }
  }

  lemma {:induction false} QuantityAfterAdds(q: int, a: nat)
    decreases a
    ensures Quantity(q, Repeat(Add, a)) == q + a
  {
    if a > 0 {
      QuantityAfterAdds(q + 1, a - 1);
    }
  }

  lemma {:induction false} QuantityAfterRemoves(q: int, d: nat)
    requires q >= 0
    decreases d
    ensures Quantity(q, Repeat(Remove, d)) == if q >= d then q - d else 0
  {
    if d > 0 {
      QuantityAfterRemoves(if q > 0 then q - 1 else q, d - 1);
    }
  }

  /** a adds followed by d removes leave max(0, q + a - d) in the slot. */
  lemma AddsThenRemoves(q: int, a: nat, d: nat)
    requires q >= 0
    ensures Quantity(q, Repeat(Add, a) + Repeat(Remove, d)) == if q + a >= d then q + a - d else 0
  {
    QuantityConcat(q, Repeat(Add, a), Repeat(Remove, d));
    QuantityAfterAdds(q, a);
    QuantityAfterRemoves(q + a, d);
  }

  /** The order of requests matters: a remove on an empty slot is lost, so
      remove-then-add leaves one where add-then-remove leaves none. */
  lemma RemoveOnEmptyIsLost()
    ensures Quantity(0, [Remove, Add]) == 1
    ensures Quantity(0, [Add, Remove]) == 0
  {
  }
}
