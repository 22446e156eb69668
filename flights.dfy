/** The flight search proxy's data: the request it receives, the query it sends
    upstream, the raw offers the travel API answers and the simplified offers
    it hands to the client (server.js:54-92). */
module Flights {
  import opened Common

  /** The JSON body posted to `/search-flights`. */
  datatype SearchRequest = SearchRequest(
    origin: string, destination: string, departureDate: string, returnDate: string, oneWay: bool)

  /** A query-string value: a string or a number. */
  datatype ParamValue = Str(s: string) | Num(n: int)

  datatype Param = Param(name: string, value: ParamValue)

  /** The value of the first parameter called `name`, if any. */
  function Lookup(params: seq<Param>, name: string): (v: Option<ParamValue>)
    ensures v.Some? <==> exists i :: 0 <= i < |params| && params[i].name == name
  {
    if params == [] then None
    else if params[0].name == name then Some(params[0].value)
    else Lookup(params[1..], name)
  }

  predicate DistinctNames(params: seq<Param>) {
    forall i, j :: 0 <= i < j < |params| ==> params[i].name != params[j].name
  }

  /** With distinct names, looking up the name at position `i` finds the value at `i`. */
  lemma {:induction false} LookupAt(params: seq<Param>, i: nat)
    requires DistinctNames(params) && i < |params|
    ensures Lookup(params, params[i].name) == Some(params[i].value)
  {
    if i > 0 {
      assert DistinctNames(params[1..]) by {
        forall a, b | 0 <= a < b < |params[1..]|
          ensures params[1..][a].name != params[1..][b].name
        {
          assert params[1..][a] == params[a + 1] && params[1..][b] == params[b + 1];
        }
      }
      LookupAt(params[1..], i - 1);
    }
  }

  /** The query of the flight-offers call, in the order the object literal lists it:
      `returnDate` only for a round trip, and fixed policy values for adults, the
      maximum number of offers and the currency. */
  function SearchParams(req: SearchRequest): (p: seq<Param>)
    ensures DistinctNames(p)
    ensures Lookup(p, "originLocationCode") == Some(Str(req.origin))
    ensures Lookup(p, "destinationLocationCode") == Some(Str(req.destination))
    ensures Lookup(p, "departureDate") == Some(Str(req.departureDate))
    ensures Lookup(p, "returnDate") == if req.oneWay then None else Some(Str(req.returnDate))
    ensures Lookup(p, "adults") == Some(Num(1))
    ensures Lookup(p, "max") == Some(Num(10))
    ensures Lookup(p, "currencyCode") == Some(Str("USD"))
    ensures |p| == if req.oneWay then 6 else 7
  {
    var p :=
      [ Param("originLocationCode", Str(req.origin)),
        Param("destinationLocationCode", Str(req.destination)),
        Param("departureDate", Str(req.departureDate)) ]
      + (if req.oneWay then [] else [Param("returnDate", Str(req.returnDate))])
      + [ Param("adults", Num(1)), Param("max", Num(10)), Param("currencyCode", Str("USD")) ];
    var k := if req.oneWay then 3 else 4;
    assert p[3].name == (if req.oneWay then "adults" else "returnDate");
    assert p[k].name == "adults" && p[k + 1].name == "max" && p[k + 2].name == "currencyCode";
    assert DistinctNames(p);
    LookupAt(p, 0);
    LookupAt(p, 1);
    LookupAt(p, 2);
    LookupAt(p, 3);
    LookupAt(p, k);
    LookupAt(p, k + 1);
    LookupAt(p, k + 2);
    p
  }

  /** A departure or arrival point of a raw segment. */
  datatype RawPoint = RawPoint(iataCode: string, at: string)

  datatype RawSegment = RawSegment(
    carrierCode: string, number: string, departure: RawPoint, arrival: RawPoint, duration: string)

  datatype RawItinerary = RawItinerary(duration: string, segments: seq<RawSegment>)

  datatype RawPrice = RawPrice(total: string, currency: string)

  /** One element of the travel API's `data` array. */
  datatype RawOffer = RawOffer(price: RawPrice, itineraries: seq<RawItinerary>)

  /** One flown leg as the client sees it. */
  datatype Segment = Segment(
    airline: string, flightNumber: string,
    departureAirport: string, departureTime: string,
    arrivalAirport: string, arrivalTime: string, duration: string)

  /** The simplified offer; `stops` is the segment count minus one. */
  datatype Offer = Offer(price: string, currency: string, duration: string, stops: int, flights: seq<Segment>)

  function ReshapeSegment(s: RawSegment): (r: Segment)
    ensures r.airline == s.carrierCode && r.flightNumber == s.number
    ensures r.departureAirport == s.departure.iataCode && r.departureTime == s.departure.at
    ensures r.arrivalAirport == s.arrival.iataCode && r.arrivalTime == s.arrival.at
    ensures r.duration == s.duration
  {
    Segment(s.carrierCode, s.number, s.departure.iataCode, s.departure.at,
            s.arrival.iataCode, s.arrival.at, s.duration)
  }

  /** An offer reshapes when it has a first itinerary; reading `itineraries[0].segments`
      of an offer with none throws. */
  predicate Reshapable(o: RawOffer) {
    |o.itineraries| > 0
  }

  /** The simplified offer built from the first itinerary only. */
  function ReshapeOffer(o: RawOffer): (r: Offer)
    requires Reshapable(o)
    ensures r.price == o.price.total && r.currency == o.price.currency
    ensures r.duration == o.itineraries[0].duration
    ensures r.stops == |o.itineraries[0].segments| - 1
    ensures |r.flights| == |o.itineraries[0].segments|
    ensures forall j :: 0 <= j < |r.flights| ==> r.flights[j] == ReshapeSegment(o.itineraries[0].segments[j])
  {
    var itinerary := o.itineraries[0];
    var segments := itinerary.segments;
    Offer(o.price.total, o.price.currency, itinerary.duration, |segments| - 1,
          seq(|segments|, j requires 0 <= j < |segments| => ReshapeSegment(segments[j])))
  }

  /** `response.data.data.map(...)`: one offer per upstream offer, in order, or a
      thrown error when any offer lacks an itinerary. */
  function Reshape(data: seq<RawOffer>): (r: Option<seq<Offer>>)
    ensures r.Some? <==> forall i :: 0 <= i < |data| ==> Reshapable(data[i])
    ensures r.Some? ==>
              && |r.value| == |data|
              && forall i :: 0 <= i < |data| ==> r.value[i] == ReshapeOffer(data[i])
  {
    if forall i :: 0 <= i < |data| ==> Reshapable(data[i]) then
      Some(seq(|data|, i requires 0 <= i < |data| => ReshapeOffer(data[i])))
    else
      None
  }

  /** Reshaping a concatenation is concatenating the reshapes. */
  lemma ReshapeAppend(a: seq<RawOffer>, b: seq<RawOffer>)
    requires Reshape(a).Some? && Reshape(b).Some?
    ensures Reshape(a + b) == Some(Reshape(a).value + Reshape(b).value)
  {
    assert forall i :: 0 <= i < |a + b| ==> Reshapable((a + b)[i]) by {
      forall i | 0 <= i < |a + b| ensures Reshapable((a + b)[i]) {
        if i >= |a| { assert (a + b)[i] == b[i - |a|]; }
      }
    }
    var r := Reshape(a + b).value;
    var q := Reshape(a).value + Reshape(b).value;
    assert |r| == |q|;
    forall i | 0 <= i < |r| ensures r[i] == q[i] {
      if i < |a| {
        assert (a + b)[i] == a[i] && q[i] == Reshape(a).value[i];
      } else {
        assert (a + b)[i] == b[i - |a|] && q[i] == Reshape(b).value[i - |a|];
      }
    }
    assert r == q;
  }

  /** A one-segment itinerary has no stops. */
  lemma DirectFlightHasNoStops(o: RawOffer)
    requires Reshapable(o) && |o.itineraries[0].segments| == 1
    ensures ReshapeOffer(o).stops == 0
  {
  }

  /** A fixed two-segment payload reshapes to exactly the expected offer. */
  lemma TwoSegmentExample()
    ensures
      var s1 := RawSegment("LA", "8084", RawPoint("GRU", "2025-07-01T08:00:00"), RawPoint("SCL", "2025-07-01T12:15:00"), "PT4H15M");
      var s2 := RawSegment("LA", "530", RawPoint("SCL", "2025-07-01T14:00:00"), RawPoint("LIM", "2025-07-01T17:30:00"), "PT3H30M");
      var raw := RawOffer(RawPrice("812.40", "USD"), [RawItinerary("PT9H30M", [s1, s2])]);
      Reshape([raw]) == Some([Offer("812.40", "USD", "PT9H30M", 1, [
        Segment("LA", "8084", "GRU", "2025-07-01T08:00:00", "SCL", "2025-07-01T12:15:00", "PT4H15M"),
        Segment("LA", "530", "SCL", "2025-07-01T14:00:00", "LIM", "2025-07-01T17:30:00", "PT3H30M")])])
  {
    var s1 := RawSegment("LA", "8084", RawPoint("GRU", "2025-07-01T08:00:00"), RawPoint("SCL", "2025-07-01T12:15:00"), "PT4H15M");
    var s2 := RawSegment("LA", "530", RawPoint("SCL", "2025-07-01T14:00:00"), RawPoint("LIM", "2025-07-01T17:30:00"), "PT3H30M");
    var raw := RawOffer(RawPrice("812.40", "USD"), [RawItinerary("PT9H30M", [s1, s2])]);
    var o := ReshapeOffer(raw);
    assert o.flights == [ReshapeSegment(s1), ReshapeSegment(s2)];
    assert Reshape([raw]).value == [o];
  }
}
