/** The checkout page (app/checkout/page.tsx): the customer form, the check
    that its three fields are filled in, and placing a cash-on-delivery order
    from the cart. The cart is an input (its lines and its total), the two
    inserts are the gateway's answers, and what the page asks the gateway,
    the cart and the router to do is returned as `Effects`. */
module Checkout {
  import opened Wrappers
  import opened Auth
  import JsString

  /** One line of the cart, as the cart context hands it over. */
  datatype CartLine = CartLine(id: string, name: string, price: real, quantity: int)

  datatype CustomerForm = CustomerForm(name: string, phone: string, address: string)

  /** The row inserted into `orders`; its `created_at` clock value is left out. */
  datatype OrderRow = OrderRow(userId: string, totalAmount: real, status: string,
                               paymentMethod: string, customerName: string,
                               customerPhone: string, customerAddress: string)

  /** A row inserted into `order_items`. */
  datatype OrderItemRow = OrderItemRow(orderId: string, productId: string, quantity: int, price: real)

  /** The gateway's answer to the order insert: the new order's id, or an error. */
  datatype OrderAnswer = OrderCreated(orderId: string) | OrderFailed(message: Option<string>)

  /** The gateway's answer to the order-items insert. */
  datatype ItemsAnswer = ItemsInserted | ItemsFailed(message: Option<string>)

  /** What one press of "Place Order" asks of the outside world. */
  datatype Effects = Effects(orderInsert: Option<OrderRow>, itemsInsert: Option<seq<OrderItemRow>>,
                             clearCart: bool, navigate: Option<string>)

  const NoEffects := Effects(None, None, false, None)
  const MissingDetailsMessage := "Please fill in all customer details (Name, Phone, Address)."
  const PlaceOrderFallback := "Failed to place order. Please try again."

  /** The page's auth effect: once auth has loaded without a user, it sends
      the visitor to the login page with a return path to checkout. */
  function LoginRedirect(loading: bool, user: Option<User>): (r: Option<string>)
    ensures r.Some? <==> !loading && user.None?
    ensures r.Some? ==> r.value == "/login?redirect=/checkout"
  {
    if !loading && user.None? then Some("/login?redirect=/checkout") else None
  }

  /** `handleInputChange`: the field the event names takes the new value and
      the other two keep theirs. An event naming no field of the form adds a
      key that nothing reads, so the three fields stay as they were. */
  function WithField(form: CustomerForm, field: string, value: string): (r: CustomerForm)
    ensures r.name == (if field == "name" then value else form.name)
    ensures r.phone == (if field == "phone" then value else form.phone)
    ensures r.address == (if field == "address" then value else form.address)
  {
    match field
    case "name" => form.(name := value)
    case "phone" => form.(phone := value)
    case "address" => form.(address := value)
    case _ => form
  }

  /** The validation of `handlePlaceOrder`: no field is blank once trimmed,
      that is, each field holds a character that is not whitespace. */
  predicate DetailsComplete(form: CustomerForm): (b: bool)
    ensures b <==> !JsString.AllSpace(form.name) && !JsString.AllSpace(form.phone)
                   && !JsString.AllSpace(form.address)
    ensures b ==> form.name != "" && form.phone != "" && form.address != ""
  {
    !JsString.IsBlank(form.name) && !JsString.IsBlank(form.phone) && !JsString.IsBlank(form.address)
  }

  /** The order row: the signed-in user's id, the cart total as given (not
      recomputed), status `pending`, payment `cod`, and the customer fields
      exactly as typed (untrimmed). */
  function BuildOrder(userId: string, total: real, form: CustomerForm): (r: OrderRow)
    ensures r.userId == userId && r.totalAmount == total
    ensures r.status == "pending" && r.paymentMethod == "cod"
    ensures r.customerName == form.name && r.customerPhone == form.phone
    ensures r.customerAddress == form.address
  {
    OrderRow(userId, total, "pending", "cod", form.name, form.phone, form.address)
  }

  /** `items.map(...)`: one order item per cart line, in cart order, each
      carrying the new order's id and the line's product id, quantity and
      price. */
  function BuildOrderItems(orderId: string, items: seq<CartLine>): (r: seq<OrderItemRow>)
    ensures |r| == |items|
    ensures forall i :: 0 <= i < |items| ==>
      r[i] == OrderItemRow(orderId, items[i].id, items[i].quantity, items[i].price)
  {
    if items == [] then []
    else [OrderItemRow(orderId, items[0].id, items[0].quantity, items[0].price)]
         + BuildOrderItems(orderId, items[1..])
  }

  /** `err.message || fallback`: a non-empty message is shown as it is,
      otherwise the fixed fallback text. The text is never empty. */
  function ErrorText(message: Option<string>): (r: string)
    ensures r != ""
    ensures message.Some? && message.value != "" ==> r == message.value
    ensures message.None? || message.value == "" ==> r == PlaceOrderFallback
  {
    if message.Some? && message.value != "" then message.value else PlaceOrderFallback
  }

  /** Σ price × quantity over the cart lines. */
  function CartTotal(items: seq<CartLine>): real
  {
    if items == [] then 0.0 else items[0].price * items[0].quantity as real + CartTotal(items[1..])
  }

  /** Σ price × quantity over order items. */
  function ItemsTotal(rows: seq<OrderItemRow>): real
  {
    if rows == [] then 0.0 else rows[0].price * rows[0].quantity as real + ItemsTotal(rows[1..])
  }

  /** The order items snapshot the cart's prices and quantities: when the
      total handed to checkout is the cart's Σ price × quantity, the stored
      order total equals the sum over its items. */
  lemma {:induction false} OrderTotalMatchesItems(orderId: string, userId: string,
                                                  items: seq<CartLine>, form: CustomerForm)
    ensures ItemsTotal(BuildOrderItems(orderId, items)) == CartTotal(items)
    ensures BuildOrder(userId, CartTotal(items), form).totalAmount
            == ItemsTotal(BuildOrderItems(orderId, items))
  {
    if items != [] {
      OrderTotalMatchesItems(orderId, userId, items[1..], form);
      assert BuildOrderItems(orderId, items)[1..] == BuildOrderItems(orderId, items[1..]);
    }
  }

  class CheckoutPage {
    var placingOrder: bool
    var error: Option<string>
    var form: CustomerForm

    constructor ()
      ensures !placingOrder && error == None && form == CustomerForm("", "", "")
    {
      placingOrder, error, form := false, None, CustomerForm("", "", "");
    }

    method InputChange(field: string, value: string)
      modifies this`form
      ensures form == WithField(old(form), field, value)
    {
      form := WithField(form, field, value);
    }

    /** `handlePlaceOrder`, pressed while no order is being placed (the
        button is disabled otherwise). Without a user nothing happens. With
        a blank field only the fixed error message is set. Otherwise the
        order is inserted, then its items; the cart is cleared and the page
        navigates home only when both inserts succeed, and a failure shows
        its message or the fallback. `placingOrder` is false at the end. */
    method PlaceOrder(user: Option<User>, items: seq<CartLine>, total: real,
                      orderAnswer: OrderAnswer, itemsAnswer: ItemsAnswer)
      returns (effects: Effects)
      requires !placingOrder
      modifies this`placingOrder, this`error
      ensures !placingOrder
      ensures user.None? ==> effects == NoEffects && error == old(error)
      ensures user.Some? && !DetailsComplete(form) ==>
        effects == NoEffects && error == Some(MissingDetailsMessage)
      ensures user.Some? && DetailsComplete(form) ==>
        && effects.orderInsert == Some(BuildOrder(user.value.id, total, form))
        && (orderAnswer.OrderFailed? ==>
              effects.itemsInsert == None && error == Some(ErrorText(orderAnswer.message)))
        && (orderAnswer.OrderCreated? ==>
              effects.itemsInsert == Some(BuildOrderItems(orderAnswer.orderId, items)))
        && (orderAnswer.OrderCreated? && itemsAnswer.ItemsFailed? ==>
              error == Some(ErrorText(itemsAnswer.message)))
        && (orderAnswer.OrderCreated? && itemsAnswer.ItemsInserted? ==> error == None)
      ensures effects.clearCart <==>
        user.Some? && DetailsComplete(form) && orderAnswer.OrderCreated? && itemsAnswer.ItemsInserted?
      ensures effects.navigate == (if effects.clearCart then Some("/") else None)
    {
      effects := NoEffects;
      if user.None? {
        return;
      }
      if !DetailsComplete(form) {
        error := Some(MissingDetailsMessage);
        return;
      }
      placingOrder := true;
      error := None;
      var order := BuildOrder(user.value.id, total, form);
      effects := effects.(orderInsert := Some(order));
      match orderAnswer {
        case OrderFailed(message) =>
          error := Some(ErrorText(message));
        case OrderCreated(orderId) =>
          effects := effects.(itemsInsert := Some(BuildOrderItems(orderId, items)));
          match itemsAnswer {
            case ItemsFailed(message) =>
              error := Some(ErrorText(message));
            case ItemsInserted =>
              effects := effects.(clearCart := true, navigate := Some("/"));
          }
      }
      placingOrder := false;
    }
  }
}
