/**
 * `GET /api/orders/:orderId` and `GET /api/orders`: a case-insensitive lookup in the order
 * collection, and the whole collection. A collection that could not be loaded is empty.
 */
module OrdersRoute {
  import opened Optional
  import opened Strings
  import opened Catalog
  import Chat

  const NOT_FOUND_ERROR := "Order not found"

  /** The body of a lookup response: the order record itself (200), or the error pair (404). */
  datatype OrderResponse =
    | Found(order: Order)
    | NotFound(error: string, message: string)

  function Status(r: OrderResponse): nat {
    if r.Found? then 200 else 404
  }

  /** Two order ids are the same when they agree after upper-casing. */
  predicate SameId(a: string, b: string) {
    Upper(a) == Upper(b)
  }

  const NOT_FOUND_LEAD: string := "Order "
  const NOT_FOUND_TAIL: string := " could not be found. Please verify your order ID."

  /** The 404 message for a normalised id. */
  function NotFoundMessage(id: string): string {
    NOT_FOUND_LEAD + id + NOT_FOUND_TAIL
  }

  /** `GET /api/orders/:orderId`: the first order whose id equals the parameter ignoring case,
      unchanged, or a 404 naming the upper-cased parameter. */
  function GetOrder(orderId: string, orders: seq<Order>): (r: OrderResponse)
    ensures r.Found? <==> exists k :: 0 <= k < |orders| && SameId(orders[k].orderId, orderId)
    ensures r.Found? ==> exists k :: && 0 <= k < |orders| && orders[k] == r.order
                                     && SameId(r.order.orderId, orderId)
                                     && forall j :: 0 <= j < k ==> !SameId(orders[j].orderId, orderId)
    ensures r.NotFound? ==> r.error == NOT_FOUND_ERROR && r.message == NotFoundMessage(Upper(orderId))
  {
    var normalized := Upper(orderId);
    UpperIdempotent(orderId);
    match FindOrder(orders, normalized)
    case Some(o) => Found(o)
    case None => NotFound(NOT_FOUND_ERROR, NotFoundMessage(normalized))
  }

  /** A 404 names the requested id, upper-cased. */
  lemma NotFoundNamesId(orderId: string, orders: seq<Order>)
    requires GetOrder(orderId, orders).NotFound?
    ensures Contains(GetOrder(orderId, orders).message, Upper(orderId))
  {
    var id := Upper(orderId);
    var m := NotFoundMessage(id);
    assert m[|NOT_FOUND_LEAD|..|NOT_FOUND_LEAD| + |id|] == id;
    assert OccursAt(m, id, |NOT_FOUND_LEAD|);
  }

  /** `GET /api/orders`: the loaded collection as it is, every order in stored order. */
  function ListOrders(orders: seq<Order>): (r: seq<Order>)
    ensures r == orders
  {
    orders
  }

  /** The lookup ignores the case of the requested id: lower-casing or upper-casing it first
      gives the same response. */
  lemma GetOrderIgnoresCase(orderId: string, orders: seq<Order>)
    ensures GetOrder(Lower(orderId), orders) == GetOrder(orderId, orders)
    ensures GetOrder(Upper(orderId), orders) == GetOrder(orderId, orders)
  {
    UpperOfLower(orderId);
    UpperIdempotent(orderId);
  }

  /** Every order the list endpoint shows can be looked up by its own id, and the lookup finds
      an order with the same id (the first such, when ids repeat ignoring case). */
  lemma ListedOrdersAreFound(orders: seq<Order>, k: nat)
    requires k < |ListOrders(orders)|
    ensures var r := GetOrder(ListOrders(orders)[k].orderId, orders);
            r.Found? && r.order in ListOrders(orders) && SameId(r.order.orderId, orders[k].orderId)
  {
    assert SameId(orders[k].orderId, orders[k].orderId);
  }

  /** With the collection unreadable, every lookup is a 404. */
  lemma LoadFailureNotFound(orderId: string)
    ensures Status(GetOrder(orderId, [])) == 404
  {
  }

  /** The chat's order-status answer and this endpoint agree: for the id found in a message,
      the chat shows the status block of exactly the order this endpoint returns, and says
      it could not find the order exactly when this endpoint answers 404. */
  lemma ChatAgreesWithLookup(message: string, orders: seq<Order>)
    requires Chat.ExtractOrderId(message).Some?
    ensures var id := Chat.ExtractOrderId(message).value;
            match GetOrder(id, orders)
            case Found(o) => Chat.CheckOrderStatus(message, orders) == Some(Chat.OrderStatusBlock(o))
            case NotFound(_, _) => Chat.CheckOrderStatus(message, orders) == Some(Chat.OrderNotFoundReply(id))
  {
    Chat.ExtractedIdIsUpperCase(message);
  }
}
