/**
 * The three record collections the backend reads from its JSON files on every request.
 * A collection whose file cannot be read or parsed is the empty sequence.
 */
module Catalog {
  import opened Optional
  import opened Strings
  import Arrays

  /** An order; `orderId` is matched ignoring ASCII case. */
  datatype Order = Order(orderId: string, status: string, expectedDelivery: string, items: seq<string>)

  /** A catalog product. `price` is only ever shown through the locale formatter. */
  datatype Product = Product(
    name: string,
    category: string,
    price: real,
    tags: seq<string>,
    description: Option<string>,
    image: Option<string>)

  datatype Faq = Faq(question: string, answer: string, keywords: seq<string>)

  /** `o.orderId.toUpperCase() === id`. */
  predicate HasId(o: Order, id: string) {
    Upper(o.orderId) == id
  }

  /** `orders.find(o => o.orderId.toUpperCase() === id)`, used by both the chat route and the
      orders route: the first order, in collection order, whose upper-cased id is `id`. */
  function FindOrder(orders: seq<Order>, id: string): (r: Option<Order>)
    ensures r.None? <==> forall k :: 0 <= k < |orders| ==> !HasId(orders[k], id)
    ensures r.Some? ==> exists k :: 0 <= k < |orders| && orders[k] == r.value && HasId(r.value, id)
                          && forall j :: 0 <= j < k ==> !HasId(orders[j], id)
  {
    var r := Arrays.Find(orders, o => HasId(o, id));
    assert r.Some? ==> exists k :: Arrays.IsFirst(orders, o => HasId(o, id), k) && orders[k] == r.value;
    r
  }
}
