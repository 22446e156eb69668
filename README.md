# travel-app in Dafny

A model of the travel-search web app's core. The Express server is a thin proxy in front of a
travel API and a logo service. It keeps one cached OAuth 2.0 access token, obtained by the
client-credentials grant (section 4.4 of RFC 6749) and sent as a bearer header (section 2.1 of
RFC 6750). It builds the flight-offers query and reshapes the upstream offers into simple
`Offer`/`Segment` records. It also guards the airport-autocomplete keyword and maps every failure
to one fixed response. The browser side covers:

- the search page: building the request, the error / empty / success decision, one card per
  offer, `lastOffers`, the autocomplete length guard and the selection summary;
- `formatDuration` and the airline lookup tables;
- the company-profile page, which saves name, phone and logo under one `localStorage` key.

The clock, the upstream answers, the DOM and `localStorage` are plain inputs and outputs:

- the clock is a natural number of milliseconds;
- an upstream call is a `Result` (a value or a failure);
- the token endpoint's answer is an `ExchangeReply`;
- `localStorage` is a `map<string, Profile>`;
- HTML is modelled by the values it displays.

Modules (one file each):

- `Common`: `Option`, `Result` and JavaScript truthiness of a string that may be missing.
- `Text`: `String.prototype.trim`, `${n}` for a natural number, and `parseInt` on digit strings.
- `Auth`: the token cache. `Get` is the specification of one `getAccessToken` call. `Run` chains
  calls. The class `TokenCache` holds the two module-level variables and counts exchanges.
- `Flights`: the search request, its query parameters and the offer reshape.
- `Endpoints`: the three proxy routes, as functions and as methods over the shared token cache.
- `Airlines`: `airlineDomains`, `airlineNames` and the lookups with their fallbacks.
- `Duration`: `formatDuration` and the pattern `/PT(\d+H)?(\d+M)?/`.
- `Client`: the search page controller. The class `Page` holds `lastOffers` and the parts of the
  DOM the handlers change.
- `CompanyProfile`: the profile editor. The class `ProfilePage` holds storage and the preview pane.

Points where the code does something other than what one might expect, and where the model
follows the code:

- `stops` is the segment count minus one. It is an `int`, so an itinerary with no segments
  gives -1, although a stop count is meant to be non-negative.
- The selection dialog shows only the offer blocks. `script.js` adds no company letterhead to it.
- A stale selected index is not skipped: the code would throw on it. The model proves that
  every rendered checkbox value is a valid index into `lastOffers` (`Page.Valid`,
  `SelectedIndexes`) and makes that the precondition of the selection handler.
- The client falls back to `segment.operating?.carrierCode`. The server never sends `operating`
  (server.js:75-83), so that fallback always gives `undefined`; the model passes `None`.

## Model

| member | source | states |
|---|---|---|
| Auth.Store | server.js:33-34 | after a granted exchange the cache holds `access_token` and expires at the reply's clock reading plus `expires_in * 1000` ms |
| Auth.Expired | server.js:39 | `Date.now() >= tokenExpiresAt`: a `null` expiry has always passed, otherwise expired iff the expiry is at or before `now` |
| Auth.NeedsRefresh | server.js:39 | the empty cache always needs a refresh; no refresh is needed exactly when a non-empty token is held and its expiry is still ahead |
| Auth.Get | server.js:38-43 | an exchange happens iff the held token is falsy or `now >= tokenExpiresAt` (null counts as 0); with no exchange the cache is unchanged and the held token is returned; a granted exchange stores and returns the new token; a refused one throws and leaves the cache as it was |
| Auth.TokenCache.constructor | server.js:19-20 | both variables start `null` and no exchange has been made |
| Auth.TokenCache.Authenticate | server.js:22-36 | counts one exchange; on success replaces token and expiry as `Store` says, on refusal changes neither |
| Auth.TokenCache.GetAccessToken | server.js:38-43 | the new state, the result and the exchange count are exactly those of `Get` on the old state |
| Auth.FirstCallExchangesOnce | server.js:19-43 | the first call on the empty cache makes exactly one exchange |
| Auth.FailedKeepsCache | server.js:24-43 | a call whose exchange is refused throws and leaves token and expiry as they were |
| Auth.TokenChangesOnlyOnRefresh | server.js:38-43 | in a run of calls, a call that makes no exchange returns the same token as the last successful call before it, with any number of refused exchanges in between |
| Auth.ReusedBeforeExpiry | server.js:33-43 | after a granted non-empty token, every later call before its expiry makes no exchange, returns that token and leaves the cache unchanged |
| Auth.SingleExchangeWithinLifetime | server.js:19-43 | from the empty cache, when all later calls come before the first token's expiry, the run makes exactly one exchange and every call returns that token |
| Auth.BearerHeader | server.js:57 | `Bearer ${token}`: the header is the seven characters `Bearer ` followed by the token (also the logo key at server.js:114) |
| Auth.BearerRoundTrip | server.js:57 | the `Authorization` value is `Bearer ` followed by the token, and the token can be read back from it unchanged |
| Flights.LookupAt | server.js:58-66 | in a query with distinct names, looking up the name at a position finds the value at that position |
| Flights.SearchParams | server.js:58-66 | distinct names; origin and destination go to `originLocationCode` and `destinationLocationCode`; `departureDate` is passed on; `returnDate` is present iff the trip is not one-way; `adults=1`, `max=10` and `currencyCode=USD` always; 6 or 7 entries |
| Flights.ReshapeSegment | server.js:75-83 | each segment field comes from its upstream source: `carrierCode`, `number`, the departure and arrival `iataCode` and `at`, and `duration` |
| Flights.ReshapeOffer | server.js:71-91 | only `itineraries[0]` is used: price and currency from `price`, the itinerary's duration, `stops` = segment count - 1, and the segments reshaped one-to-one in order |
| Flights.Reshape | server.js:71-92 | succeeds iff every offer has a first itinerary; it then gives exactly one reshaped offer per upstream offer, in the same order |
| Flights.ReshapeAppend | server.js:71-92 | reshaping a concatenation gives the concatenation of the reshapes |
| Flights.DirectFlightHasNoStops | server.js:89 | a one-segment itinerary has 0 stops |
| Flights.TwoSegmentExample | server.js:71-92 | a concrete two-segment offer reshapes to the expected record with 1 stop |
| Endpoints.Search | server.js:48-98 | the upstream call is made iff the token was obtained, to the flight-offers URL with the bearer header and `SearchParams`; status 200 iff token, call and reshape all succeed, and the body is then the reshaped offers; every failure answers 500 with the one fixed message |
| Endpoints.SearchNeverPartial | server.js:94-97 | a search answer is either all offers (one per upstream offer) or exactly `500 {error: "Failed to fetch flight offers"}` |
| Endpoints.AutocompleteParams | server.js:140-144 | exactly three parameters with distinct names: `subType=AIRPORT,CITY`, the keyword, `page[limit]=10` |
| Endpoints.Present | server.js:136 | `!keyword` is false exactly when the parameter is given and has at least one character |
| Endpoints.Autocomplete | server.js:131-152 | a failed token fetch answers 500 even when the keyword is missing; a missing or empty keyword answers 400 `Missing keyword` and calls nothing; otherwise the location search is called with the bearer header, and its body is relayed unchanged or a failure answers 500 |
| Endpoints.OneCharacterKeywordForwarded | server.js:136 | a one-character keyword passes the server's check and is forwarded as `keyword` |
| Endpoints.Logo | server.js:104-125 | the logo service is asked for the domain with the service key as bearer; success is sent as `image/png`, any failure as 404 `Logo not available` |
| Endpoints.HandleSearch | server.js:48-98 | the token is taken from the shared cache (state and exchange count as `Get`), and the answer is `Search` on that result |
| Endpoints.HandleAutocomplete | server.js:131-152 | the token is taken from the shared cache before the keyword check, and the answer is `Autocomplete` on that result |
| Airlines.TablesShareCodes | public/js/script.js:206-292 | `airlineDomains` and `airlineNames` have the same set of carrier codes |
| Airlines.NamesNonEmpty | public/js/script.js:250-292 | every name in `airlineNames` is non-empty |
| Airlines.EmptyCodeUnlisted | public/js/script.js:206-292 | the empty code has no domain and no name in the tables |
| Airlines.AirlineCode | public/js/script.js:68 | the segment's airline when it is non-empty, else the operating carrier's code |
| Airlines.DisplayName | public/js/script.js:71 | the table name when the code is listed, else the code itself, else the empty string |
| Airlines.DisplayNameEmpty | public/js/script.js:71 | the displayed name is empty exactly when there is no code or the code is empty |
| Airlines.LogoUrl | public/js/script.js:69-70 | a logo URL exists iff the code is in `airlineDomains`, and it is `/logo/` followed by the domain |
| Airlines.LogoIffNamed | public/js/script.js:69-71 | a carrier has a logo URL exactly when it has a table name |
| Airlines.CodeText | public/js/script.js:175 | a missing code renders as `undefined` |
| Duration.FindPT | public/js/script.js:149 | the first position where `PT` stands, or none if it stands nowhere |
| Duration.Group | public/js/script.js:149-151 | an optional group `(\d+X)`: a non-empty digit run followed by the designator, or no match |
| Duration.FormatDuration | public/js/script.js:148-153 | every rendering is `{digits}h {digits}m`, each part a non-empty digit string; the lemmas below give its value per input shape |
| Duration.HoursAndMinutes | public/js/script.js:148-153 | `PT{h}H{m}M` renders as `{h}h {m}m` |
| Duration.HoursOnly | public/js/script.js:148-153 | `PT{h}H` renders as `{h}h 0m` |
| Duration.MinutesOnly | public/js/script.js:148-153 | `PT{m}M` renders as `0h {m}m` |
| Duration.SecondsOnly | public/js/script.js:148-153 | `PT{s}S` renders as `0h 0m` |
| Duration.NoTimePart | public/js/script.js:148-153 | text without `PT` anywhere renders as `0h 0m` |
| Duration.DayBearingExample | public/js/script.js:148-153 | `P1DT2H` renders as `0h 0m` |
| Text.Trim | public/js/script.js:8-9 | the result is a slice with only white space cut off either end, and it has no white space at either end |
| Text.Utf16Length | public/js/script.js:115 | `length` counts UTF-16 code units: between the number of characters and twice it, and equal to it when no character lies above U+FFFF |
| Text.NatToString | public/js/script.js:59 | `${index}` is a non-empty digit string with no leading zero |
| Text.ParseDecimal | public/js/script.js:159 | `parseInt` on a digit string gives a number iff the string is non-empty and all digits |
| Text.ParseRendered | public/js/script.js:159 | parsing the rendered text of `n` gives back `n` |
| Text.RenderingInjective | public/js/script.js:59 | distinct indexes get distinct checkbox values |
| Client.RequestOf | public/js/script.js:8-20 | origin and destination are the trimmed field values; the dates and the one-way flag are passed as entered |
| Client.ReplyOf | public/js/script.js:23 | a JSON answer with offers or an error is read as those fields |
| Client.Decide | public/js/script.js:29-41 | offers are shown iff the reply is readable, its error is falsy and its offer list is non-empty; otherwise `Error: {error}`, `No flights found.` or the fetch-error message |
| Client.ServerOutcomeShown | public/js/script.js:29-41 | for any server search answer the page shows its offers when it succeeded with a non-empty list, `No flights found.` for an empty list, and `Error: Failed to fetch flight offers` otherwise |
| Client.SegmentViewOf | public/js/script.js:67-81 | for a non-empty airline the logo URL is `LogoUrl` of it, present iff the code is in `airlineDomains`; an empty airline gives no logo and an empty name; name from `airlineNames`, else the code; flight number and both airports as they are; both durations through `formatDuration` |
| Client.CardOf | public/js/script.js:50-65 | checkbox value is `${index}` and parses back to the index; heading `OPTION {index + 1}`; price is the offer's price, or `N/A` when it is empty; currency is the offer's currency, or `USD` when it is empty; duration and stops as they are; one segment view per segment, in order |
| Client.RenderCard | public/js/script.js:57-84 | the loop builds exactly `CardOf(offer, index)` |
| Client.RenderCards | public/js/script.js:50-87 | one card per offer, in order, card `i` being `CardOf(offers[i], i)` |
| Client.CardValuesIndexOffers | public/js/script.js:50-60 | every rendered checkbox value parses to a valid index into the offers it was rendered from |
| Client.LineOf | public/js/script.js:170-179 | code (or `undefined`), display name, flight number, departure and arrival airports and raw segment duration |
| Client.BlockOf | public/js/script.js:164-181 | heading `Option {i + 1}`, price and currency as they are, duration, stops and one line per segment |
| Client.RenderSelection | public/js/script.js:163-184 | the empty selection gives `No options selected.`; otherwise one block per selected index, in order, numbered from 1 |
| Client.OnInput | public/js/script.js:114-118 | a query is sent iff the trimmed input is at least 2 UTF-16 code units long, and it is the trimmed input |
| Client.AutocompleteAsymmetry | public/js/script.js:115 | every keyword the page sends passes the server check; the server forwards any one-character keyword, while the page sends a lone non-space character only when it lies above U+FFFF |
| Client.Page.constructor | public/js/script.js:155 | `lastOffers` starts empty and nothing is shown |
| Client.Page.Submit | public/js/script.js:5-21 | the loader is shown and the posted body is `RequestOf` the form |
| Client.Page.Receive | public/js/script.js:26-100 | on success `lastOffers` becomes exactly the received offers, their cards are shown and show-selected appears; on error or an empty list `lastOffers` is unchanged, the message is shown and show-selected hides; the loader hides; cards always match `lastOffers` |
| Client.Page.SelectedIndexes | public/js/script.js:158-160 | the indexes parsed from the checked checkboxes are their card positions, each a valid index into `lastOffers` |
| Client.Page.ShowSelected | public/js/script.js:157-186 | the summary lists `lastOffers` at the checked indexes in checkbox order, numbered from 1, or `No options selected.`; the dialog opens |
| CompanyProfile.MergedLogo | public/js/profile.js:12-20 | the chosen file, else the stored profile's logo exactly, else absent when nothing is stored |
| CompanyProfile.Saved | public/js/profile.js:8-25 | name and phone are the trimmed field values, the logo is `MergedLogo` |
| CompanyProfile.Save | public/js/profile.js:24-26 | the whole value under `companyProfile` is replaced by the saved profile, and no other key changes |
| CompanyProfile.LogoIsLastChosen | public/js/profile.js:12-26 | after any run of submissions the stored logo is the last chosen file, or the logo stored before them when none chose a file |
| CompanyProfile.Loaded | public/js/profile.js:31-42 | nothing changes without a stored profile; otherwise name and phone are shown and the pane appears, and the logo is set and shown only when it is truthy |
| CompanyProfile.ProfilePage.constructor | public/js/profile.js:1-44 | on load the pane starts hidden and reflects the stored profile as `Loaded` says |
| CompanyProfile.ProfilePage.LoadProfile | public/js/profile.js:31-42 | the preview becomes `Loaded` of the storage and the old preview |
| CompanyProfile.ProfilePage.SaveProfile | public/js/profile.js:24-29 | the key is overwritten with the given record and the preview reloaded |
| CompanyProfile.ProfilePage.Submit | public/js/profile.js:5-22 | storage becomes `Save` of the old storage; the preview becomes `Loaded` of the new storage and the old preview, so it shows the trimmed name and phone and the saved logo when that is truthy, and otherwise keeps the old logo |

## Left out

- Express setup, CORS, static files, the root route and `listen` (server.js:1-12, 157-165): framework plumbing.
- HTTP through axios and fetch, the `process.env` credentials and the shape of axios errors: every upstream call is a success value or a failure, and the logo key is a parameter.
- The logo bytes (server.js:111-120): only the PNG / 404 decision is modelled.
- Concurrency: overlapping requests refreshing the token together and stale in-flight searches. The model is sequential.
- `Date.now()`: the clock is a parameter. The exchange reply carries the clock reading taken after it arrived.
- Console logging on the server and the client.
- HTML markup, `innerHTML`, CSS display beyond booleans, the modal close handlers (public/js/script.js:188-196) and the outside-click handler of the suggestions (public/js/script.js:141-145).
- The rendering of the suggestion items and their click handler (public/js/script.js:124-134): the model stops at the keyword sent.
- `encodeURIComponent` of the keyword (public/js/script.js:121): the keyword is modelled as sent, before encoding.
- Clipboard copy and `alert` (public/js/script.js:198-204, public/js/profile.js:28).
- `formatTime` (public/js/script.js:44-47): it is never called and depends on the locale.
- `FileReader` asynchrony and JSON (de)serialisation in profile.js: the chosen file is its data URL and storage holds records.
- JSON fields missing from the upstream or server data, other than the ones modelled as `Option`. Every other field is a string that is present.
- An exception thrown while the cards are rendered, for example by an offer without `flights`. The catch replaces the results with the fetch-error message, hides show-selected and leaves `lastOffers` unchanged. That is the state the model gives an `Unreadable` reply, but the model has no path from a readable reply to it, because modelled offers always have their fields.
- Keys of `Object.prototype` (such as `constructor`) in the airline tables: lookups are modelled on the listed codes only.
- `req.query.keyword` given as an array or other non-string value.
- Text.ParseDecimal: models `parseInt` only on the digit strings the page renders; it does not model the leniency of `parseInt` to leading white space, signs or trailing junk.
- Airlines.TablesShareCodes: proves that both tables have the same codes but not that there are 41 of them; the count over the 41-entry string maps is too costly for the solver.
- Flights.Reshape: an offer without a first itinerary makes the whole reshape fail (500); other malformed upstream shapes, such as a missing `price`, are not modelled.
