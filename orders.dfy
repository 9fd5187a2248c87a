/**
 * Orders and the confirmation notice. An order embeds snapshots of its line
 * items, so later catalog changes never reach it; its status goes from
 * pending to confirmed and no further.
 */
module Orders {

  type OrderId = nat

  /** One line of an order as the client submitted it. */
  datatype LineItem = LineItem(name: string, price: int, quantity: int)

  datatype OrderStatus = Pending | Confirmed

  datatype Order = Order(
    name: string,
    email: string,
    address: string,
    city: string,
    phoneNumber: string,
    items: seq<LineItem>,
    total: int,
    status: OrderStatus)

  /** The confirmation mail handed to the mailer: recipient, name, items, total. */
  datatype Notification = Notification(recipient: string, name: string, items: seq<LineItem>, total: int)

  /** The order schema's `required` check on the contact strings, which rejects
      an empty string at save. */
  predicate ContactComplete(name: string, email: string, address: string, city: string, phoneNumber: string)
  {
    name != "" && email != "" && address != "" && city != "" && phoneNumber != ""
  }

  /** The order `/order` stores: the submitted fields, status pending. */
  function Placed(name: string, email: string, address: string, city: string, phoneNumber: string,
                  items: seq<LineItem>, total: int): (o: Order)
    ensures o.status == Pending
    ensures o.name == name && o.email == email && o.address == address
    ensures o.city == city && o.phoneNumber == phoneNumber
    ensures o.items == items && o.total == total
  {
    Order(name, email, address, city, phoneNumber, items, total, Pending)
  }

  /** The confirm transition: status becomes confirmed, every other field stays. */
  function Confirm(o: Order): (c: Order)
    ensures c.status == Confirmed
    ensures c.(status := o.status) == o
  {
    o.(status := Confirmed)
  }

  /** The notice built from an order's recipient email, name, items and total. */
  function NoticeFor(o: Order): (n: Notification)
    ensures n.recipient == o.email && n.name == o.name
    ensures n.items == o.items && n.total == o.total
  {
    Notification(o.email, o.name, o.items, o.total)
  }

  /** Confirming twice is confirming once, and the notice built after
      confirmation carries the order as it was submitted. */
  lemma ConfirmIdempotent(o: Order)
    ensures Confirm(Confirm(o)) == Confirm(o)
    ensures NoticeFor(Confirm(o)) == NoticeFor(o)
  {
  }
}
