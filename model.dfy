/**
 * The records the order-reporting backend reads from its data file.
 * Every resolver works on a `seq<Order>` that was loaded once and never changes.
 */
module Model {

  /** A monetary amount (`sumTotal`, `tipSum`). The server only copies amounts, never computes on them. */
  type Amount = real

  /** The nested `venueName` record of an order; the server reads only its `venue` field. */
  datatype VenueName = VenueName(venue: string)

  /** One transaction: `time` is in Unix seconds. */
  datatype Order = Order(
    time: int,
    sumTotal: Amount,
    tipSum: Amount,
    venueId: string,
    venueName: VenueName)

  /**
   * The root value the JSON parser returns for the data file. Only the
   * array case matters to the server; the other cases are the roots it rejects.
   */
  datatype Json =
    | JArray(elems: seq<Order>)
    | JObject
    | JString(str: string)
    | JNumber(num: real)
    | JBool(b: bool)
    | JNull

  /** Every `venueId` that occurs in `data`. */
  function VenueIds(data: seq<Order>): set<string>
  {
    set i | 0 <= i < |data| :: data[i].venueId
  }

  /** `VenueIds` of a non-empty sequence, split at its head. */
  lemma VenueIdsCons(data: seq<Order>)
    requires data != []
    ensures VenueIds(data) == {data[0].venueId} + VenueIds(data[1..])
  {
  }

  /** The index of the first order in `data` whose `venueId` is `id`. */
  function FirstIndex(data: seq<Order>, id: string): (k: nat)
    requires id in VenueIds(data)
    ensures k < |data| && data[k].venueId == id
    ensures forall j :: 0 <= j < k ==> data[j].venueId != id
    decreases |data|
  {
    VenueIdsCons(data);
    if data[0].venueId == id then 0 else 1 + FirstIndex(data[1..], id)
  }
}
