/**
 * The `orders` resolver: an optional exact-match filter on `venueId`, then a
 * projection that flattens the nested `venueName` record to its `venue` string.
 */
module OrderList {
  import opened Wrappers
  import opened Model

  /** An order as the `orders` query returns it: `venueName` is the venue's display name. */
  datatype OrderView = OrderView(
    time: int,
    sumTotal: Amount,
    tipSum: Amount,
    venueId: string,
    venueName: string)

  /** The order an entry was projected from. */
  function Restore(v: OrderView): Order
  {
    Order(v.time, v.sumTotal, v.tipSum, v.venueId, VenueName(v.venueName))
  }

  /** `{...order, venueName: order.venueName.venue}`: every other field is copied unchanged. */
  function Flatten(o: Order): (v: OrderView)
    ensures Restore(v) == o
  {
    OrderView(o.time, o.sumTotal, o.tipSum, o.venueId, o.venueName.venue)
  }

  /** `Restore` applied to each entry. */
  function RestoreAll(vs: seq<OrderView>): (s: seq<Order>)
  {
    seq(|vs|, i requires 0 <= i < |vs| => Restore(vs[i]))
  }

  /** `Flatten` applied to each order; nothing but the shape of `venueName` is lost. */
  function FlattenAll(s: seq<Order>): (vs: seq<OrderView>)
    ensures RestoreAll(vs) == s
  {
    seq(|s|, i requires 0 <= i < |s| => Flatten(s[i]))
  }

  /** `a` is `b` with some elements left out and the rest in their original order. */
  predicate IsSubsequence<T(==)>(a: seq<T>, b: seq<T>)
    decreases |b|
  {
    a == [] || (b != [] && if a[0] == b[0] then IsSubsequence(a[1..], b[1..]) else IsSubsequence(a, b[1..]))
  }

  /** `data.filter(order => order.venueId === id)`. */
  function WithVenue(data: seq<Order>, id: string): (r: seq<Order>)
    ensures forall i :: 0 <= i < |r| ==> r[i].venueId == id
  {
    if data == [] then []
    else if data[0].venueId == id then [data[0]] + WithVenue(data[1..], id)
    else WithVenue(data[1..], id)
  }

  /**
   * The filter keeps exactly the orders of venue `id`: in their original order,
   * and each as many times as the data holds it.
   */
  lemma {:induction false} WithVenueSpec(data: seq<Order>, id: string)
    ensures IsSubsequence(WithVenue(data, id), data)
    ensures forall o: Order :: o.venueId == id ==> multiset(WithVenue(data, id))[o] == multiset(data)[o]
  {
    if data != [] {
      var head, tail := data[0], data[1..];
      var rest := WithVenue(tail, id);
      WithVenueSpec(tail, id);
      assert data == [head] + tail;
      if head.venueId == id {
        assert WithVenue(data, id) == [head] + rest;
        assert ([head] + rest)[1..] == rest;
      } else {
        assert WithVenue(data, id) == rest;
        assert rest != [] ==> rest[0] != head;
      }
    }
  }

  /** The `orders` resolver; `venueId` is `None` when the argument is null or absent. */
  function Orders(data: seq<Order>, venueId: Option<string>): (r: seq<OrderView>)
    ensures venueId.None? ==> RestoreAll(r) == data
    ensures venueId.Some? ==> forall i :: 0 <= i < |r| ==> r[i].venueId == venueId.value
    ensures venueId.Some? ==> IsSubsequence(RestoreAll(r), data)
    ensures venueId.Some? ==> forall o: Order :: o.venueId == venueId.value ==>
      multiset(RestoreAll(r))[o] == multiset(data)[o]
  {
    if venueId.Some? then
      WithVenueSpec(data, venueId.value);
      FlattenAll(WithVenue(data, venueId.value))
    else
      FlattenAll(data)
  }

  /** Filtering on a venue that no order carries gives an empty answer, not an error. */
  lemma OrdersNoMatch(data: seq<Order>, id: string)
    requires id !in VenueIds(data)
    ensures Orders(data, Some(id)) == []
  {
  }
}
