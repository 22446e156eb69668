/** The search page's controller (public/js/script.js): building the search
    request, deciding what a response shows, rendering one card per offer,
    keeping `lastOffers`, the autocomplete length guard and the summary of the
    selected offers. HTML markup is modelled by the values it displays. */
module Client {
  import opened Common
  import opened Text
  import opened Flights
  import opened Airlines
  import opened Duration
  import opened Endpoints

  /** The search form's five fields. */
  datatype SearchForm = SearchForm(
    departure: string, arrival: string, dateDeparture: string, dateReturning: string, oneWay: bool)

  /** The body posted to `/search-flights`: origin and destination trimmed, dates as typed. */
  function RequestOf(form: SearchForm): (req: SearchRequest)
    ensures req.origin == Trim(form.departure) && req.destination == Trim(form.arrival)
    ensures req.departureDate == form.dateDeparture && req.returnDate == form.dateReturning
    ensures req.oneWay == form.oneWay
  {
    SearchRequest(Trim(form.departure), Trim(form.arrival), form.dateDeparture, form.dateReturning, form.oneWay)
  }

  /** What `await response.json()` gives, or `Unreadable` when the fetch or the parse threw. */
  datatype Reply = Unreadable | Data(error: Option<string>, offers: Option<seq<Offer>>)

  /** The client's reading of a search route response. */
  function ReplyOf(r: Response): (reply: Reply)
    ensures r.Json? && r.body.OffersBody? ==> reply == Data(None, Some(r.body.offers))
    ensures r.Json? && r.body.ErrorBody? ==> reply == Data(Some(r.body.error), None)
  {
    match r
    case Json(_, OffersBody(offers)) => Data(None, Some(offers))
    case Json(_, ErrorBody(e)) => Data(Some(e), None)
    case _ => Unreadable
  }

  const FETCH_ERROR := "Error fetching flights. Check console."
  const NO_FLIGHTS := "No flights found."
  const NO_SELECTION := "No options selected."

  /** Which of the three branches of the submit handler a reply takes. */
  datatype Outcome = ShowMessage(text: string) | ShowOffers(offers: seq<Offer>)

  function Decide(reply: Reply): (o: Outcome)
    ensures o.ShowOffers? <==>
              reply.Data? && !Truthy(reply.error) && reply.offers.Some? && reply.offers.value != []
    ensures o.ShowOffers? ==> o.offers == reply.offers.value
    ensures reply.Unreadable? ==> o == ShowMessage(FETCH_ERROR)
    ensures reply.Data? && Truthy(reply.error) ==> o == ShowMessage("Error: " + reply.error.value)
    ensures reply.Data? && !Truthy(reply.error) && !o.ShowOffers? ==> o == ShowMessage(NO_FLIGHTS)
  {
    match reply
    case Unreadable => ShowMessage(FETCH_ERROR)
    case Data(error, offers) =>
      if Truthy(error) then ShowMessage("Error: " + error.value)
      else if offers.None? || offers.value == [] then ShowMessage(NO_FLIGHTS)
      else ShowOffers(offers.value)
  }

  /** What the server's search route leads the page to show: its offers exactly
      when it succeeded with a non-empty list, its error message otherwise. */
  lemma ServerOutcomeShown(token: Result<string>, req: SearchRequest, upstream: Result<seq<RawOffer>>)
    ensures var r := Search(token, req, upstream).response;
      Decide(ReplyOf(r)) ==
        if r.status == 200 && r.body.offers != [] then ShowOffers(r.body.offers)
        else if r.status == 200 then ShowMessage(NO_FLIGHTS)
        else ShowMessage("Error: " + SEARCH_FAILED)
  {
  }

  /** One segment of a result card. */
  datatype SegmentView = SegmentView(
    logoUrl: Option<string>, airlineName: string, flightNumber: string,
    departureAirport: string, arrivalAirport: string, offerDuration: string, segmentDuration: string)

  /** One result card: the checkbox value, the heading and the offer's figures. */
  datatype Card = Card(
    value: string, title: string, currency: string, price: string, duration: string, stops: int,
    segments: seq<SegmentView>)

  /** The segment block of a card. The offers the server sends have no `operating`
      field (server.js:75-83), so the fallback to `operating?.carrierCode` gives `undefined`. */
  function SegmentViewOf(offer: Offer, seg: Segment): (v: SegmentView)
    ensures seg.airline != "" ==> v.logoUrl == LogoUrl(Some(seg.airline))
    ensures seg.airline != "" ==> (v.logoUrl.Some? <==> seg.airline in DOMAINS)
    ensures seg.airline == "" ==> v.logoUrl.None? && v.airlineName == ""
    ensures seg.airline in NAMES ==> v.airlineName == NAMES[seg.airline]
    ensures seg.airline !in NAMES ==> v.airlineName == seg.airline
    ensures v.flightNumber == seg.flightNumber
    ensures v.departureAirport == seg.departureAirport && v.arrivalAirport == seg.arrivalAirport
    ensures v.offerDuration == FormatDuration(offer.duration)
    ensures v.segmentDuration == FormatDuration(seg.duration)
  {
    EmptyCodeUnlisted();
    var code := AirlineCode(seg.airline, None);
    SegmentView(LogoUrl(code), DisplayName(code), seg.flightNumber, seg.departureAirport,
                seg.arrivalAirport, FormatDuration(offer.duration), FormatDuration(seg.duration))
  }

  /** Card `index`: checkbox value `${index}`, heading `OPTION ${index + 1}`,
      `offer.price || "N/A"` and `offer.currency || "USD"`. */
  function CardOf(offer: Offer, index: nat): (c: Card)
    ensures c.value == NatToString(index) && ParseDecimal(c.value) == Some(index)
    ensures c.title == "OPTION " + NatToString(index + 1)
    ensures c.price == if offer.price != "" then offer.price else "N/A"
    ensures c.currency == if offer.currency != "" then offer.currency else "USD"
    ensures c.price != "" && c.currency != ""
    ensures c.duration == offer.duration && c.stops == offer.stops
    ensures |c.segments| == |offer.flights|
    ensures forall j :: 0 <= j < |c.segments| ==> c.segments[j] == SegmentViewOf(offer, offer.flights[j])
  {
    ParseRendered(index);
    Card(NatToString(index), "OPTION " + NatToString(index + 1),
         if offer.currency != "" then offer.currency else "USD",
         if offer.price != "" then offer.price else "N/A",
         offer.duration, offer.stops,
         seq(|offer.flights|, j requires 0 <= j < |offer.flights| => SegmentViewOf(offer, offer.flights[j])))
  }

  /** `let html = ...; offer.flights.forEach(segment => { html += ... })` for one card. */
  method RenderCard(offer: Offer, index: nat) returns (c: Card)
    ensures c == CardOf(offer, index)
  {
    var segments: seq<SegmentView> := [];
    var j := 0;
    while j < |offer.flights|
      invariant 0 <= j <= |offer.flights|
      invariant |segments| == j
      invariant forall k :: 0 <= k < j ==> segments[k] == SegmentViewOf(offer, offer.flights[k])
    {
      segments := segments + [SegmentViewOf(offer, offer.flights[j])];
      j := j + 1;
    }
    var price := if offer.price != "" then offer.price else "N/A";
    var currency := if offer.currency != "" then offer.currency else "USD";
    c := Card(NatToString(index), "OPTION " + NatToString(index + 1), currency, price,
              offer.duration, offer.stops, segments);
    assert segments == CardOf(offer, index).segments;
  }

  /** `data.offers.forEach((offer, index) => ... resultsDiv.appendChild(flight))`. */
  method RenderCards(offers: seq<Offer>) returns (cards: seq<Card>)
    ensures |cards| == |offers|
    ensures forall i :: 0 <= i < |offers| ==> cards[i] == CardOf(offers[i], i)
  {
    cards := [];
    var i := 0;
    while i < |offers|
      invariant 0 <= i <= |offers|
      invariant |cards| == i
      invariant forall k :: 0 <= k < i ==> cards[k] == CardOf(offers[k], k)
    {
      var c := RenderCard(offers[i], i);
      cards := cards + [c];
      i := i + 1;
    }
  }

  /** The cards of a list of offers are one per offer, in order, and the checkbox
      value of each is a valid index into that list. */
  lemma CardValuesIndexOffers(offers: seq<Offer>, cards: seq<Card>, i: nat)
    requires |cards| == |offers| && forall k :: 0 <= k < |offers| ==> cards[k] == CardOf(offers[k], k)
    requires i < |cards|
    ensures ParseDecimal(cards[i].value).Some?
    ensures ParseDecimal(cards[i].value).value == i < |offers|
  {
  }

  /** One line of a selected offer: `${airlineCode} ${airlineName} ${seg.flightNumber || ''}`,
      the route and the raw segment duration. */
  datatype SegmentLine = SegmentLine(
    code: string, airlineName: string, flightNumber: string,
    departureAirport: string, arrivalAirport: string, duration: string)

  /** The block of one selected offer, headed `Option ${i + 1}`. */
  datatype Block = Block(
    title: string, currency: string, price: string, duration: string, stops: int, lines: seq<SegmentLine>)

  /** The content of `selectedDetails`: the blocks, or the empty-selection message. */
  datatype Summary = Blank | NoneSelected | Blocks(blocks: seq<Block>)

  function LineOf(seg: Segment): (l: SegmentLine)
    ensures l.code == (if seg.airline != "" then seg.airline else "undefined")
    ensures l.airlineName == DisplayName(AirlineCode(seg.airline, None))
    ensures l.flightNumber == seg.flightNumber && l.duration == seg.duration
    ensures l.departureAirport == seg.departureAirport && l.arrivalAirport == seg.arrivalAirport
  {
    var code := AirlineCode(seg.airline, None);
    SegmentLine(CodeText(code), DisplayName(code), seg.flightNumber, seg.departureAirport,
                seg.arrivalAirport, seg.duration)
  }

  /** The block of the `i`-th selected offer; price and currency are shown as they are. */
  function BlockOf(offer: Offer, i: nat): (b: Block)
    ensures b.title == "Option " + NatToString(i + 1)
    ensures b.price == offer.price && b.currency == offer.currency
    ensures b.duration == offer.duration && b.stops == offer.stops
    ensures |b.lines| == |offer.flights|
    ensures forall j :: 0 <= j < |b.lines| ==> b.lines[j] == LineOf(offer.flights[j])
  {
    Block("Option " + NatToString(i + 1), offer.currency, offer.price, offer.duration, offer.stops,
          seq(|offer.flights|, j requires 0 <= j < |offer.flights| => LineOf(offer.flights[j])))
  }

  /** `selectedOffers.forEach((offer, i) => { html += ... })` and
      `html || '<em>No options selected.</em>'`. */
  method RenderSelection(offers: seq<Offer>, indexes: seq<nat>) returns (s: Summary)
    requires forall k :: 0 <= k < |indexes| ==> indexes[k] < |offers|
    ensures s.NoneSelected? <==> indexes == []
    ensures !s.NoneSelected? ==> s.Blocks? && |s.blocks| == |indexes|
    ensures s.Blocks? ==> forall k :: 0 <= k < |indexes| ==> s.blocks[k] == BlockOf(offers[indexes[k]], k)
  {
    var blocks: seq<Block> := [];
    var k := 0;
    while k < |indexes|
      invariant 0 <= k <= |indexes|
      invariant |blocks| == k
      invariant forall m :: 0 <= m < k ==> blocks[m] == BlockOf(offers[indexes[m]], m)
    {
      blocks := blocks + [BlockOf(offers[indexes[k]], k)];
      k := k + 1;
    }
    s := if blocks == [] then NoneSelected else Blocks(blocks);
  }

  /** What an input event on an autocomplete field does. */
  datatype Suggest = ClearSuggestions | Query(keyword: string)

  /** A trimmed query shorter than two UTF-16 code units clears the suggestions and sends nothing. */
  function OnInput(value: string): (a: Suggest)
    ensures a.Query? <==> Utf16Length(Trim(value)) >= 2
    ensures a.Query? ==> a.keyword == Trim(value)
  {
    var query := Trim(value);
    if Utf16Length(query) < 2 then ClearSuggestions else Query(query)
  }

  /** Every keyword the page sends passes the server's keyword check. The server
      forwards every one-character keyword. The page sends a lone character only
      when it lies above U+FFFF, since `length` then counts it twice. */
  lemma AutocompleteAsymmetry(value: string, c: char, token: string, upstream: Result<RawJson>)
    requires !IsSpace(c)
    ensures OnInput(value).Query? ==> Autocomplete(Ok(token), Some(OnInput(value).keyword), upstream).sent.Some?
    ensures c as int <= 0xFFFF ==> OnInput([c]).ClearSuggestions?
    ensures c as int > 0xFFFF ==> OnInput([c]) == Query([c])
    ensures Autocomplete(Ok(token), Some([c]), upstream).sent.Some?
  {
    TrimUntrimmed([c]);
  }

  /** The content of the results area. */
  datatype Results = Nothing | Message(text: string) | Cards(cards: seq<Card>)

  /** The mutable state of the page: `lastOffers` and the parts of the DOM the
      handlers change. */
  class Page {
    var lastOffers: seq<Offer>
    var results: Results
    var loaderShown: bool
    var showSelectedShown: bool
    var details: Summary
    var modalShown: bool

    /** The cards on the page, each carrying a checkbox. */
    function Rendered(): seq<Card>
      reads this`results
    {
      if results.Cards? then results.cards else []
    }

    /** Cards on the page are those of `lastOffers`, one per offer in order. */
    ghost predicate Valid()
      reads this`results, this`lastOffers
    {
      results.Cards? ==>
        && |results.cards| == |lastOffers|
        && forall i :: 0 <= i < |lastOffers| ==> results.cards[i] == CardOf(lastOffers[i], i)
    }

    constructor ()
      ensures Valid()
      ensures lastOffers == [] && results == Nothing
      ensures !loaderShown && !showSelectedShown && details == Blank && !modalShown
    {
      lastOffers := [];
      results := Nothing;
      loaderShown := false;
      showSelectedShown := false;
      details := Blank;
      modalShown := false;
    }

    /** Submitting the form shows the loader and posts the request built from the fields. */
    method Submit(form: SearchForm) returns (req: SearchRequest)
      modifies this`loaderShown
      ensures loaderShown && req == RequestOf(form)
    {
      loaderShown := true;
      req := RequestOf(form);
    }

    /** The rest of the submit handler, once the reply is there: a message and a
        hidden show-selected button on error or an empty list, leaving `lastOffers`
        as it was; otherwise one card per offer, `lastOffers` replaced by exactly
        those offers and the button shown. The loader is hidden either way. */
    method Receive(reply: Reply)
      requires Valid()
      modifies this`lastOffers, this`results, this`loaderShown, this`showSelectedShown
      ensures Valid() && !loaderShown
      ensures Decide(reply).ShowOffers? ==>
                lastOffers == Decide(reply).offers && results.Cards? && showSelectedShown
      ensures Decide(reply).ShowMessage? ==>
                lastOffers == old(lastOffers) && results == Message(Decide(reply).text) && !showSelectedShown
    {
      match Decide(reply)
      case ShowMessage(text) =>
        results := Message(text);
        loaderShown := false;
        showSelectedShown := false;
      case ShowOffers(offers) =>
        results := Nothing;
        var cards := RenderCards(offers);
        results := Cards(cards);
        loaderShown := false;
        lastOffers := offers;
        showSelectedShown := true;
    }

    /** `Array.from(checkboxes).map(cb => parseInt(cb.value))` for the checkboxes at
        positions `checked` among the cards: each value parses to the position of
        its card, which is a valid index into `lastOffers`. */
    function SelectedIndexes(checked: seq<nat>): (idx: seq<nat>)
      reads this`results, this`lastOffers
      requires Valid()
      requires forall k :: 0 <= k < |checked| ==> checked[k] < |Rendered()|
      ensures |idx| == |checked|
      ensures forall k :: 0 <= k < |idx| ==> idx[k] == checked[k] && idx[k] < |lastOffers|
    {
      var cards := Rendered();
      assert forall k :: 0 <= k < |checked| ==> ParseDecimal(cards[checked[k]].value) == Some(checked[k]) by {
        forall k | 0 <= k < |checked| ensures ParseDecimal(cards[checked[k]].value) == Some(checked[k]) {
          CardValuesIndexOffers(lastOffers, cards, checked[k]);
        }
      }
      seq(|checked|, k requires 0 <= k < |checked| => ParseDecimal(cards[checked[k]].value).value)
    }

    /** The show-selected handler, for the checked checkboxes at positions `checked`
        in document order: the summary of `lastOffers` at those indexes, numbered
        from 1, or the empty-selection message; the dialog opens. */
    method ShowSelected(checked: seq<nat>)
      requires Valid()
      requires forall k :: 0 <= k < |checked| ==> checked[k] < |Rendered()|
      modifies this`details, this`modalShown
      ensures Valid() && modalShown
      ensures details.NoneSelected? <==> checked == []
      ensures !details.NoneSelected? ==> details.Blocks? && |details.blocks| == |checked|
      ensures details.Blocks? ==>
                forall k :: 0 <= k < |checked| ==>
                  checked[k] < |lastOffers| && details.blocks[k] == BlockOf(lastOffers[checked[k]], k)
    {
      var indexes := SelectedIndexes(checked);
      details := RenderSelection(lastOffers, indexes);
      modalShown := true;
    }
  }
}
