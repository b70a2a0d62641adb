/**
 * What a checkout writes: one `orders` row whose total is the cart total, then one
 * `order_items` row per cart line. Also the replies of the hosted store, which the checkout
 * handlers receive as given values, and the log of rows the store accepted.
 */
module Orders {
  import opened Wrappers
  import opened CartLines

  datatype DeliveryMethod = Home | Pickup
  datatype PaymentMethod = Cash | MobileMoney
  datatype OrderStatus = Pending | Confirmed | Preparing | Delivering | Delivered | Cancelled

  /** The signed-in user, as the auth provider gives it. */
  datatype User = User(id: string)

  /** The columns of the user's `profiles` row that checkout reads. */
  datatype Profile = Profile(phoneNumber: Option<string>, email: Option<string>)

  /** What a `throw` inside a handler's `try` carries: an `Error` object or any other value. */
  datatype Thrown = ErrorObject(message: string) | OtherValue

  /** The outcome of one awaited store call: its data, or a throw that lands in `catch`. */
  datatype Reply<T> = Ok(value: T) | Threw(thrown: Thrown)

  /** `err instanceof Error ? err.message : 'Une erreur est survenue'`. */
  function ErrorText(t: Thrown): string {
    match t
    case ErrorObject(message) => message
    case OtherValue => "Une erreur est survenue"
  }

  /** `profile?.phone_number` is truthy: a row came back and its phone number is a non-empty string. */
  predicate HasPhone(profile: Option<Profile>) {
    profile.Some? && profile.value.phoneNumber.Some? && profile.value.phoneNumber.value != ""
  }

  /** The delivery and payment choices of the checkout form. */
  datatype DeliveryForm = DeliveryForm(delivery: DeliveryMethod, payment: PaymentMethod, address: string, notes: string)

  /** The payload inserted into `orders`. */
  datatype OrderRow = OrderRow(
    userId: string,
    deliveryMethod: DeliveryMethod,
    paymentMethod: PaymentMethod,
    deliveryAddress: string,
    deliveryNotes: string,
    phoneNumber: string,
    notificationEmail: Option<string>,
    totalPrice: int,
    status: OrderStatus)

  /** One payload row inserted into `order_items`; custom baskets send no basket id. */
  datatype OrderItemRow = OrderItemRow(
    orderId: string,
    basketId: Option<string>,
    quantity: int,
    unitPrice: int,
    totalPrice: int)

  /** The order row a checkout inserts: a pending order for the user, carrying the form's
      choices, the profile's contact details, and the cart total at submission time. */
  function NewOrder(user: User, form: DeliveryForm, profile: Profile, items: seq<CartItem>): (o: OrderRow)
    requires HasPhone(Some(profile))
    ensures o.status == Pending
    ensures o.totalPrice == Sum(items, LineTotal)
    ensures o.userId == user.id && o.phoneNumber == profile.phoneNumber.value && o.phoneNumber != ""
    ensures o.notificationEmail == profile.email
    ensures o.deliveryMethod == form.delivery && o.paymentMethod == form.payment
    ensures o.deliveryAddress == form.address && o.deliveryNotes == form.notes
  {
    OrderRow(user.id, form.delivery, form.payment, form.address, form.notes,
             profile.phoneNumber.value, profile.email, TotalPrice(items), Pending)
  }

  /** `items.map(item => ({ order_id, [basket_id,] quantity, unit_price, total_price }))`:
      one row per line, in cart order. */
  function OrderItemRows(orderId: string, items: seq<CartItem>, withBasketId: bool): (rows: seq<OrderItemRow>)
    ensures |rows| == |items|
    ensures forall i :: 0 <= i < |items| ==>
              && rows[i].orderId == orderId
              && rows[i].basketId == (if withBasketId then Some(items[i].product.id) else None)
              && rows[i].quantity == items[i].quantity
              && rows[i].unitPrice == items[i].product.price
              && rows[i].totalPrice == rows[i].unitPrice * rows[i].quantity
  {
    if items == [] then []
    else
      var line := items[0];
      var basketId := if withBasketId then Some(line.product.id) else None;
      [OrderItemRow(orderId, basketId, line.quantity, line.product.price, line.product.price * line.quantity)]
        + OrderItemRows(orderId, items[1..], withBasketId)
  }

  /** The sum of the rows' line totals. */
  function ItemsTotal(rows: seq<OrderItemRow>): int
    decreases |rows|
  {
    if rows == [] then 0 else rows[0].totalPrice + ItemsTotal(rows[1..])
  }

  /** The order-item rows' line totals add up to the order row's total. */
  lemma {:induction false} ItemsTotalIsOrderTotal(orderId: string, items: seq<CartItem>, withBasketId: bool)
    ensures ItemsTotal(OrderItemRows(orderId, items, withBasketId)) == TotalPrice(items)
    decreases |items|
  {
    if items != [] {
      var rows := OrderItemRows(orderId, items, withBasketId);
      assert rows[1..] == OrderItemRows(orderId, items[1..], withBasketId);
      ItemsTotalIsOrderTotal(orderId, items[1..], withBasketId);
      assert rows[0].totalPrice == LineTotal(items[0]);
    }
  }

  /** The rows the hosted store has accepted, in insertion order. */
  class OrderStore {
    var orders: seq<OrderRow>
    var orderItems: seq<OrderItemRow>

    constructor ()
      ensures orders == [] && orderItems == []
    {
      orders, orderItems := [], [];
    }

    /** `insert` into `orders`: the row is stored only when the call succeeds. */
    method InsertOrder(row: OrderRow, reply: Reply<string>)
      modifies this
      ensures orders == if reply.Ok? then old(orders) + [row] else old(orders)
      ensures orderItems == old(orderItems)
    {
      if reply.Ok? {
        orders := orders + [row];
      }
    }

    /** One batch `insert` into `order_items`: all rows or none. */
    method InsertOrderItems(rows: seq<OrderItemRow>, reply: Reply<()>)
      modifies this
      ensures orderItems == if reply.Ok? then old(orderItems) + rows else old(orderItems)
      ensures orders == old(orders)
    {
      if reply.Ok? {
        orderItems := orderItems + rows;
      }
    }
  }

}
