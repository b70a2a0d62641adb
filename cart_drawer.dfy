/**
 * The cart drawer: the panel that lists the shared cart, collects the delivery form and
 * submits the cart as an order. Its own state is seven form and status fields plus the
 * `isSubmitting` flag; the cart belongs to the cart provider and the rows to the store.
 */
module CartDrawer {
  import opened Wrappers
  import opened CartLines
  import opened CartContext
  import opened Orders

  /** Where a handler navigates to. */
  datatype Route = Login | Baskets

  /** What the drawer shows in its error slot: the prompt to add a phone number to the
      profile (a message with a button that leads to the profile page), or a message. */
  datatype DrawerError = UpdatePhonePrompt | Message(text: string)

  class Drawer {
    const cart: CartProvider
    const store: OrderStore
    var isOpen: bool
    var isSubmitting: bool
    var deliveryMethod: DeliveryMethod
    var paymentMethod: PaymentMethod
    var deliveryAddress: string
    var deliveryNotes: string
    var showOrderForm: bool
    var error: Option<DrawerError>
    var showSuccess: bool

    /** The seven fields the close effect resets hold their reset values. */
    predicate ClosedState()
      reads this
    {
      && !showSuccess && !showOrderForm && error == None
      && deliveryMethod == Home && paymentMethod == MobileMoney
      && deliveryAddress == "" && deliveryNotes == ""
    }

    /** The form as the submit handler reads it. */
    function Form(): DeliveryForm
      reads this
    {
      DeliveryForm(deliveryMethod, paymentMethod, deliveryAddress, deliveryNotes)
    }

    /** The first render, with the `useState` initial values. */
    constructor (cart: CartProvider, store: OrderStore, isOpen: bool)
      ensures this.cart == cart && this.store == store && this.isOpen == isOpen
      ensures ClosedState() && !isSubmitting
    {
      this.cart, this.store, this.isOpen := cart, store, isOpen;
      isSubmitting := false;
      deliveryMethod, paymentMethod := Home, MobileMoney;
      deliveryAddress, deliveryNotes := "", "";
      showOrderForm, error, showSuccess := false, None, false;
    }

    /** A new `isOpen` prop. The effect keyed on it runs when it changes, and when the drawer
        is now closed it resets the form and status fields; the cart and `isSubmitting` stay. */
    method SetOpen(open: bool)
      modifies this
      ensures isOpen == open
      ensures old(isOpen) && !open ==> ClosedState()
      ensures !(old(isOpen) && !open) ==>
                showSuccess == old(showSuccess) && showOrderForm == old(showOrderForm) &&
                error == old(error) && Form() == old(Form())
      ensures isSubmitting == old(isSubmitting)
      ensures cart.items == old(cart.items)
    {
      if open != isOpen {
        isOpen := open;
        if !open {
          showSuccess := false;
          showOrderForm := false;
          error := None;
          deliveryMethod := Home;
          paymentMethod := MobileMoney;
          deliveryAddress := "";
          deliveryNotes := "";
        }
      }
    }

    /** `handleCheckout()`, from the "Commander" button. Without a user it closes the drawer
        (the close effect resets the form) and goes to the login page; with one it only shows
        the order form. */
    method Checkout(user: Option<User>) returns (nav: Option<Route>)
      modifies this
      ensures user.None? ==> nav == Some(Login) && !isOpen
      ensures user.None? && old(isOpen) ==> ClosedState()
      ensures user.None? && !old(isOpen) ==>
                showSuccess == old(showSuccess) && showOrderForm == old(showOrderForm) &&
                error == old(error) && Form() == old(Form())
      ensures user.Some? ==>
                nav == None && showOrderForm && isOpen == old(isOpen) &&
                showSuccess == old(showSuccess) && error == old(error) && Form() == old(Form())
      ensures isSubmitting == old(isSubmitting)
      ensures cart.items == old(cart.items)
    {
      if user.None? {
        SetOpen(false);
        nav := Some(Login);
        return;
      }
      showOrderForm := true;
      nav := None;
    }

    /** `handleContinueShopping()`, from the success screen: empties the cart, closes the
        drawer and goes to the basket listing. */
    method ContinueShopping() returns (nav: Route)
      modifies this, cart
      ensures cart.items == [] && !isOpen
      ensures old(isOpen) ==> ClosedState()
      ensures !old(isOpen) ==> showSuccess == old(showSuccess) && showOrderForm == old(showOrderForm) &&
                               error == old(error) && Form() == old(Form())
      ensures nav == Baskets
      ensures isSubmitting == old(isSubmitting)
    {
      cart.ClearCart();
      SetOpen(false);
      nav := Baskets;
    }

    /** `handleSubmitOrder()`. The replies of the three awaited store calls (profile lookup,
        order insert, order-items insert) are given; a reply is only used if its call is reached. */
    method SubmitOrder(user: Option<User>, lookup: Reply<Option<Profile>>,
                       orderReply: Reply<string>, itemsReply: Reply<()>)
      modifies this, store
      // the cart, the open state and the form are never touched
      ensures cart.items == old(cart.items)
      ensures isOpen == old(isOpen) && showOrderForm == old(showOrderForm) && Form() == old(Form())
      // no user or an empty cart: nothing happens
      ensures user.None? || cart.items == [] ==> unchanged(this) && unchanged(store)
      // otherwise the handler always ends with isSubmitting false
      ensures user.Some? && cart.items != [] ==> !isSubmitting
      // the lookup threw: its message, no rows
      ensures user.Some? && cart.items != [] && lookup.Threw? ==>
                error == Some(Message(ErrorText(lookup.thrown))) &&
                showSuccess == old(showSuccess) && unchanged(store)
      // no phone number on the profile: the prompt, no rows
      ensures user.Some? && cart.items != [] && lookup.Ok? && !HasPhone(lookup.value) ==>
                error == Some(UpdatePhonePrompt) && showSuccess == old(showSuccess) && unchanged(store)
      // a phone number: the order row is inserted if the store accepts it
      ensures user.Some? && cart.items != [] && lookup.Ok? && HasPhone(lookup.value) ==>
                store.orders ==
                  old(store.orders) + (if orderReply.Ok? then [NewOrder(user.value, Form(), lookup.value.value, cart.items)] else [])
      ensures user.Some? && cart.items != [] && lookup.Ok? && HasPhone(lookup.value) && orderReply.Threw? ==>
                error == Some(Message(ErrorText(orderReply.thrown))) &&
                showSuccess == old(showSuccess) && store.orderItems == old(store.orderItems)
      // the order row is in: then one item row per cart line, with the basket id
      ensures user.Some? && cart.items != [] && lookup.Ok? && HasPhone(lookup.value) && orderReply.Ok? ==>
                store.orderItems ==
                  old(store.orderItems) + (if itemsReply.Ok? then OrderItemRows(orderReply.value, cart.items, true) else [])
      ensures user.Some? && cart.items != [] && lookup.Ok? && HasPhone(lookup.value) && orderReply.Ok? && itemsReply.Threw? ==>
                error == Some(Message(ErrorText(itemsReply.thrown))) && showSuccess == old(showSuccess)
      ensures user.Some? && cart.items != [] && lookup.Ok? && HasPhone(lookup.value) && orderReply.Ok? && itemsReply.Ok? ==>
                error == None && showSuccess
    {
      if user.None? || |cart.items| == 0 {
        return;
      }
      var items := cart.items;
      isSubmitting := true;
      error := None;
      var thrown: Option<Thrown> := None;  // what reaches `catch`
      if lookup.Threw? {
        thrown := Some(lookup.thrown);
      } else if !HasPhone(lookup.value) {
        error := Some(UpdatePhonePrompt);
      } else {
        var row := NewOrder(user.value, Form(), lookup.value.value, items);
        store.InsertOrder(row, orderReply);
        if orderReply.Threw? {
          thrown := Some(orderReply.thrown);
        } else {
          store.InsertOrderItems(OrderItemRows(orderReply.value, items, true), itemsReply);
          if itemsReply.Threw? {
            thrown := Some(itemsReply.thrown);
          } else {
            showSuccess := true;
          }
        }
      }
      if thrown.Some? {
        error := Some(Message(ErrorText(thrown.value)));
      }
      isSubmitting := false;  // `finally`
    }
  }

}
