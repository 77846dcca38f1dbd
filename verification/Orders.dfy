/** Turning a confirmed cart into an order: cart choice, totals and item snapshots. */
module Orders {
  import opened Common
  import opened Pricing
  import opened Cart
  import opened CartLaws
  import opened Numbers

  datatype OrderItem = OrderItem(
    menuItemId: string,
    name: string,
    basePriceCents: int,
    optionAdjustmentCents: int,
    addOnTotalCents: int,
    unitPriceCents: int,
    quantity: int,
    lineTotalCents: int,
    options: Option<string>,
    selectedOptions: seq<SelectedOption>,
    addOns: seq<AddOn>,
    specialInstructions: Option<string>)

  function Snapshot(l: Line): OrderItem {
    OrderItem(l.menuItemId, l.name, l.basePriceCents, l.optionAdjustmentCents, l.addOnTotalCents,
              l.unitPriceCents, l.quantity, l.lineTotalCents, l.options, l.selectedOptions, l.addOns,
              l.specialInstructions)
  }

  /** Item for line: everything on the line, nothing else. */
  predicate ItemShows(o: OrderItem, l: Line) {
    && (o.menuItemId, o.name, o.basePriceCents, o.quantity) == (l.menuItemId, l.name, l.basePriceCents, l.quantity)
    && (o.optionAdjustmentCents, o.addOnTotalCents) == (l.optionAdjustmentCents, l.addOnTotalCents)
    && (o.unitPriceCents, o.lineTotalCents) == (l.unitPriceCents, l.lineTotalCents)
    && (o.options, o.selectedOptions, o.addOns) == (l.options, l.selectedOptions, l.addOns)
    && o.specialInstructions == l.specialInstructions
  }

  predicate ItemsShow(items: seq<OrderItem>, cart: seq<Line>) {
    |items| == |cart| && forall i :: 0 <= i < |cart| ==> ItemShows(items[i], cart[i])
  }

  datatype Order = Order(
    number: string,
    status: string,
    orderMode: string,
    paymentRequired: bool,
    paymentStatus: string,
    subtotalCents: int,
    deliveryFeeCents: int,
    totalCents: int,
    items: seq<OrderItem>)

  /**
   * Both failures leave everything unchanged. `EmptyCart` is the announced ValueError; `NoCart` is the
   * TypeError raised while logging when the live cart is empty and no confirmed cart was ever stored.
   */
  datatype OrderError = EmptyCart | NoCart

  /** The live cart wins; the confirmed snapshot is used only when the live cart is empty. */
  function ChosenCart(live: seq<Line>, confirmed: Option<seq<Line>>): Option<seq<Line>> {
    if live != [] then Some(live) else confirmed
  }

  function ItemTotal(items: seq<OrderItem>): int {
    if items == [] then 0 else ItemTotal(items[..|items| - 1]) + items[|items| - 1].lineTotalCents
  }

  class OrderBook {
    var sequence: nat
    var orders: seq<Order>
    const onlinePaymentRequired: bool

    constructor (onlinePaymentRequired: bool)
      ensures sequence == 0 && orders == [] && this.onlinePaymentRequired == onlinePaymentRequired
      ensures Numbered()
    {
      sequence, orders := 0, [];
      this.onlinePaymentRequired := onlinePaymentRequired;
    }

    /** Order k carries sequence value k + 1. */
    ghost predicate Numbered()
      reads this
    {
      |orders| == sequence && forall k :: 0 <= k < |orders| ==> orders[k].number == OrderNumber(k + 1)
    }

    method CreateOrderFromCart(session: ConversationSession, initialStatus: string)
      returns (r: Result<Order, OrderError>)
      requires Numbered()
      modifies this
      ensures Numbered()
      ensures var cart := ChosenCart(session.cart, session.confirmedCart);
              && (cart == None <==> r == Err(NoCart))
              && (cart == Some([]) <==> r == Err(EmptyCart))
      ensures r == Err(NoCart) <==> session.cart == [] && session.confirmedCart == None
      ensures r == Err(EmptyCart) <==> session.cart == [] && session.confirmedCart == Some([])
      ensures r.Err? ==> sequence == old(sequence) && orders == old(orders)
      ensures r.Ok? ==> ItemsShow(r.value.items, if session.cart != [] then session.cart else session.confirmedCart.value)
      ensures r.Ok? && session.deliveryFeeCents.Some? ==> r.value.deliveryFeeCents == session.deliveryFeeCents.value
      ensures r.Ok? && session.deliveryFeeCents.None? ==> r.value.deliveryFeeCents == 0
      ensures r.Ok? ==> r.value.totalCents == r.value.subtotalCents + r.value.deliveryFeeCents
      ensures r.Ok? ==>
        && r.value.orderMode == (if "order_mode" in session.context then session.context["order_mode"] else "PICKUP")
        && r.value.status == initialStatus && r.value.paymentRequired == onlinePaymentRequired
        && r.value.paymentStatus == (if onlinePaymentRequired then "UNPAID" else "PENDING")
      ensures r.Ok? ==> sequence == old(sequence) + 1 && r.value.number == OrderNumber(sequence)
      ensures r.Ok? ==>
        && orders == old(orders) + [r.value]
        && OrderOf(r.value, session, ChosenCart(session.cart, session.confirmedCart).value, initialStatus,
                   onlinePaymentRequired)
    {
      var chosen := if session.cart != [] then Some(session.cart) else session.confirmedCart;
      if chosen.None? {
        return Err(NoCart);
      }
      var cart := chosen.value;
      if cart == [] {
        return Err(EmptyCart);
      }
      sequence := sequence + 1;
      var order := BuildOrder(session, cart, initialStatus, onlinePaymentRequired, OrderNumber(sequence));
      orders := orders + [order];
      r := Ok(order);
    }
  }

  function FeeOf(session: ConversationSession): int
    reads session
  {
    if session.deliveryFeeCents.Some? then session.deliveryFeeCents.value else 0
  }

  function ModeOf(session: ConversationSession): string
    reads session
  {
    if "order_mode" in session.context then session.context["order_mode"] else "PICKUP"
  }

  /** The order carries one snapshot per line, the cart's total and the fee, and the session's choices. */
  ghost predicate OrderOf(o: Order, session: ConversationSession, cart: seq<Line>, status: string, payOnline: bool)
    reads session
  {
    && |o.items| == |cart|
    && (forall i :: 0 <= i < |cart| ==> o.items[i] == Snapshot(cart[i]))
    && o.subtotalCents == Total(cart)
    && o.deliveryFeeCents == FeeOf(session)
    && o.totalCents == ItemTotal(o.items) + o.deliveryFeeCents
    && o.status == status
    && o.orderMode == ModeOf(session)
    && o.paymentRequired == payOnline
    && o.paymentStatus == (if payOnline then "UNPAID" else "PENDING")
  }

  method BuildOrder(session: ConversationSession, cart: seq<Line>, status: string, payOnline: bool, number: string)
    returns (o: Order)
    ensures OrderOf(o, session, cart, status, payOnline) && o.number == number
    ensures ItemsShow(o.items, cart) && o.totalCents == o.subtotalCents + o.deliveryFeeCents
  {
    var items, subtotal := TakeSnapshots(cart);
    o := Order(number, status, ModeOf(session), payOnline, if payOnline then "UNPAID" else "PENDING",
               subtotal, FeeOf(session), subtotal + FeeOf(session), items);
  }

  method TakeSnapshots(cart: seq<Line>) returns (items: seq<OrderItem>, subtotal: int)
    ensures |items| == |cart| && forall k :: 0 <= k < |cart| ==> items[k] == Snapshot(cart[k])
    ensures subtotal == Total(cart) == ItemTotal(items)
  {
    subtotal, items := 0, [];
    for i := 0 to |cart|
      invariant |items| == i && forall k :: 0 <= k < i ==> items[k] == Snapshot(cart[k])
      invariant subtotal == Total(cart[..i]) == ItemTotal(items)
    {
      var l := cart[i];
      assert cart[..i + 1][..i] == cart[..i];
      var item := OrderItem(l.menuItemId, l.name, l.basePriceCents, l.optionAdjustmentCents,
                            l.addOnTotalCents, l.unitPriceCents, l.quantity, l.lineTotalCents, l.options,
                            l.selectedOptions, l.addOns, l.specialInstructions);
      assert (items + [item])[..i] == items;
      subtotal, items := subtotal + l.lineTotalCents, items + [item];
    }
    assert cart[..|cart|] == cart;
  }

  /** No two orders of one business carry the same number. */
  lemma OrderNumbersDistinct(book: OrderBook, i: nat, j: nat)
    requires book.Numbered() && i < |book.orders| && j < |book.orders|
    requires book.orders[i].number == book.orders[j].number
    ensures i == j
  {
    OrderNumberInjective(i + 1, j + 1);
  }

  /**
   * An order made from a shopping run: one item per key of the bag, with the bag's quantity, and
   * item totals that add up to the bag's price.
   */
  lemma OrderOfRun(lower: string -> string, edits: seq<Edit>, basePrice: string -> int, items: seq<OrderItem>)
    requires Shopping(edits)
    requires forall i :: 0 <= i < |edits| && edits[i].Add? ==>
               edits[i].request.priceCents == basePrice(edits[i].request.menuItemId)
    requires var cart := Run(lower, edits);
             |items| == |cart| && forall i :: 0 <= i < |cart| ==> items[i] == Snapshot(cart[i])
    ensures var bag := RunBag(lower, edits);
            && ItemTotal(items) == BagPrice(bag, basePrice)
            && (forall i :: 0 <= i < |items| ==> Count(bag, KeyOf(Run(lower, edits)[i])) == items[i].quantity >= 1)
            && (forall i :: 0 <= i < |items| ==> items[i].lineTotalCents == items[i].unitPriceCents * items[i].quantity)
  {
    var cart := Run(lower, edits);
    CartRefinesBag(lower, edits);
    RunTotalIsBagPrice(lower, edits, basePrice);
    ShoppingKeepsPrices(lower, edits, basePrice);
    ItemsTotalCart(cart, items);
    forall i | 0 <= i < |items| ensures Count(RunBag(lower, edits), KeyOf(cart[i])) == items[i].quantity {
      PresentKey(cart, i);
    }
  }

  lemma {:induction false} ItemsTotalCart(cart: seq<Line>, items: seq<OrderItem>)
    requires |items| == |cart| && forall i :: 0 <= i < |cart| ==> items[i] == Snapshot(cart[i])
    ensures ItemTotal(items) == Total(cart)
  {
    if cart != [] {
      ItemsTotalCart(cart[..|cart| - 1], items[..|items| - 1]);
    }
  }
}
