/**
 * The `venueNames` resolver: lodash's `uniqBy` on `venueId` (the first order
 * seen for each venue wins) followed by a projection to `{name, id}`.
 */
module Venues {
  import opened Model

  /** One `venueNames` entry. */
  datatype Venue = Venue(name: string, id: string)

  /**
   * `uniqBy` as lodash runs it: scan left to right and keep an order only when
   * its `venueId` is not among the ids already `seen`.
   */
  function UniqFrom(data: seq<Order>, seen: set<string>): (kept: seq<Order>)
    ensures |kept| <= |data|
  {
    if data == [] then []
    else if data[0].venueId in seen then UniqFrom(data[1..], seen)
    else [data[0]] + UniqFrom(data[1..], seen + {data[0].venueId})
  }

  /** No two orders in `s` share a `venueId`. */
  predicate DistinctIds(s: seq<Order>)
  {
    forall i, j :: 0 <= i < j < |s| ==> s[i].venueId != s[j].venueId
  }

  /** Every kept order is the first order of its venue, and kept orders keep their first-occurrence order. */
  predicate FirstOccurrences(kept: seq<Order>, data: seq<Order>)
  {
    && (forall i :: 0 <= i < |kept| ==>
          kept[i].venueId in VenueIds(data) && kept[i] == data[FirstIndex(data, kept[i].venueId)])
    && (forall i, j :: 0 <= i < j < |kept| ==>
          FirstIndex(data, kept[i].venueId) < FirstIndex(data, kept[j].venueId))
  }

  /** Beyond the head of `data`, first occurrences of other venues are shifted by one. */
  lemma FirstIndexTail(data: seq<Order>, id: string)
    requires data != [] && id in VenueIds(data) && id != data[0].venueId
    ensures id in VenueIds(data[1..])
    ensures FirstIndex(data, id) == 1 + FirstIndex(data[1..], id)
  {
  }

  /** What a scan from a `seen` set keeps: each unseen venue once, at its first occurrence, in order. */
  lemma {:induction false} UniqFromSpec(data: seq<Order>, seen: set<string>)
    ensures var kept := UniqFrom(data, seen);
      && DistinctIds(kept)
      && VenueIds(kept) == VenueIds(data) - seen
      && FirstOccurrences(kept, data)
  {
    if data != [] {
      var head, tail := data[0], data[1..];
      VenueIdsCons(data);
      var kept := UniqFrom(data, seen);
      if head.venueId in seen {
        var rest := UniqFrom(tail, seen);
        UniqFromSpec(tail, seen);
        assert kept == rest;
        forall i | 0 <= i < |rest|
          ensures rest[i].venueId in VenueIds(data)
          ensures FirstIndex(data, rest[i].venueId) == 1 + FirstIndex(tail, rest[i].venueId)
        {
          assert rest[i].venueId in VenueIds(rest);
          FirstIndexTail(data, rest[i].venueId);
        }
      } else {
        var seen' := seen + {head.venueId};
        var rest := UniqFrom(tail, seen');
        UniqFromSpec(tail, seen');
        assert kept == [head] + rest;
        forall i | 0 <= i < |rest|
          ensures rest[i].venueId in VenueIds(data) && rest[i].venueId != head.venueId
          ensures FirstIndex(data, rest[i].venueId) == 1 + FirstIndex(tail, rest[i].venueId)
        {
          assert rest[i].venueId in VenueIds(rest);
          FirstIndexTail(data, rest[i].venueId);
        }
        VenueIdsCons(kept);
        assert kept[1..] == rest;
      }
    }
  }

  /** The `venueNames` resolver. */
  function VenueNames(data: seq<Order>): (venues: seq<Venue>)
    ensures forall i, j :: 0 <= i < j < |venues| ==> venues[i].id != venues[j].id
    ensures (set i | 0 <= i < |venues| :: venues[i].id) == VenueIds(data)
    ensures forall i :: 0 <= i < |venues| ==>
      venues[i].id in VenueIds(data) && venues[i].name == data[FirstIndex(data, venues[i].id)].venueName.venue
    ensures forall i, j :: 0 <= i < j < |venues| ==>
      FirstIndex(data, venues[i].id) < FirstIndex(data, venues[j].id)
  {
    var kept := UniqFrom(data, {});
    UniqFromSpec(data, {});
    var venues := seq(|kept|, i requires 0 <= i < |kept| => Venue(kept[i].venueName.venue, kept[i].venueId));
    assert (set i | 0 <= i < |venues| :: venues[i].id) == VenueIds(kept) by {
      forall id | id in VenueIds(kept) ensures id in set i | 0 <= i < |venues| :: venues[i].id {
        var i :| 0 <= i < |kept| && kept[i].venueId == id;
        assert venues[i].id == id;
      }
    }
    venues
  }

  /** A sequence with pairwise distinct ids has as many elements as distinct ids. */
  lemma {:induction false} DistinctIdsCount(venues: seq<Venue>)
    requires forall i, j :: 0 <= i < j < |venues| ==> venues[i].id != venues[j].id
    ensures |set i | 0 <= i < |venues| :: venues[i].id| == |venues|
  {
    if venues != [] {
      var tail := venues[1..];
      DistinctIdsCount(tail);
      var ids := set i | 0 <= i < |venues| :: venues[i].id;
      var tailIds := set i | 0 <= i < |tail| :: tail[i].id;
      assert ids == {venues[0].id} + tailIds by {
        forall id | id in ids ensures id in {venues[0].id} + tailIds {
          var i :| 0 <= i < |venues| && venues[i].id == id;
          if i > 0 { assert tail[i - 1] == venues[i]; }
        }
        forall id | id in tailIds ensures id in ids {
          var i :| 0 <= i < |tail| && tail[i].id == id;
          assert venues[i + 1] == tail[i];
        }
      }
      assert venues[0].id !in tailIds;
    }
  }

  /** `venueNames` has exactly one entry per distinct `venueId` in the data. */
  lemma VenueNamesCount(data: seq<Order>)
    ensures |VenueNames(data)| == |VenueIds(data)|
  {
    DistinctIdsCount(VenueNames(data));
  }
}
