/** The client's airline reference tables and the lookups the result cards and
    the selection summary make with them (public/js/script.js:68-71, 171-172, 206-292). */
module Airlines {
  import opened Common

  /** `airlineDomains`: carrier code to the web domain its logo is looked up by. */
  const DOMAINS: map<string, string> := map[
    "AA" := "americanairlines.com",
    "DL" := "delta.com",
    "UA" := "united.com",
    "LA" := "latam.com",
    "G3" := "voeGOL.com.br",
    "AF" := "airfrance.com",
    "BA" := "britishairways.com",
    "LH" := "lufthansa.com",
    "KL" := "klm.com",
    "EK" := "emirates.com",
    "QR" := "qatarairways.com",
    "EY" := "etihad.com",
    "CX" := "cathaypacific.com",
    "QF" := "qantas.com",
    "AC" := "aircanada.com",
    "AS" := "alaskaair.com",
    "B6" := "jetblue.com",
    "WN" := "southwest.com",
    "SK" := "flysas.com",
    "TK" := "turkishairlines.com",
    "AZ" := "ita-airways.com",
    "AI" := "airindia.com",
    "NH" := "ana.co.jp",
    "JL" := "jal.co.jp",
    "HU" := "hnair.com",
    "CA" := "airchina.com",
    "CZ" := "csair.com",
    "BR" := "evaair.com",
    "AV" := "avianca.com",
    "IB" := "iberia.com",
    "AM" := "aeromexico.com",
    "AY" := "finnair.com",
    "ET" := "ethiopianairlines.com",
    "SN" := "brusselsairlines.com",
    "SA" := "flysaa.com",
    "RJ" := "rj.com",
    "LY" := "elal.com",
    "MS" := "egyptair.com",
    "VN" := "vietnamairlines.com",
    "NZ" := "airnewzealand.com",
    "AT" := "royalairmaroc.com"
  ]

  /** `airlineNames`: carrier code to display name. */
  const NAMES: map<string, string> := map[
    "AA" := "American Airlines",
    "DL" := "Delta Air Lines",
    "UA" := "United Airlines",
    "LA" := "LATAM Airlines",
    "G3" := "Gol Linhas Aéreas",
    "AF" := "Air France",
    "BA" := "British Airways",
    "LH" := "Lufthansa",
    "KL" := "KLM Royal Dutch Airlines",
    "EK" := "Emirates",
    "QR" := "Qatar Airways",
    "EY" := "Etihad Airways",
    "CX" := "Cathay Pacific",
    "QF" := "Qantas",
    "AC" := "Air Canada",
    "AS" := "Alaska Airlines",
    "B6" := "JetBlue Airways",
    "WN" := "Southwest Airlines",
    "SK" := "Scandinavian Airlines",
    "TK" := "Turkish Airlines",
    "AZ" := "ITA Airways",
    "AI" := "Air India",
    "NH" := "All Nippon Airways",
    "JL" := "Japan Airlines",
    "HU" := "Hainan Airlines",
    "CA" := "Air China",
    "CZ" := "China Southern Airlines",
    "BR" := "EVA Air",
    "AV" := "Avianca",
    "IB" := "Iberia",
    "AM" := "Aeroméxico",
    "AY" := "Finnair",
    "ET" := "Ethiopian Airlines",
    "SN" := "Brussels Airlines",
    "SA" := "South African Airways",
    "RJ" := "Royal Jordanian",
    "LY" := "El Al Israel Airlines",
    "MS" := "EgyptAir",
    "VN" := "Vietnam Airlines",
    "NZ" := "Air New Zealand",
    "AT" := "Royal Air Maroc"
  ]

  /** `airlineDomains` and `airlineNames` list the same carrier codes. */
  lemma TablesShareCodes()
    ensures DOMAINS.Keys == NAMES.Keys
  {
  }

  /** Every carrier in `airlineNames` has a non-empty name. */
  lemma NamesNonEmpty()
    ensures forall v | v in NAMES.Values :: v != ""
  {
  }

  /** The empty code is in neither table. */
  lemma EmptyCodeUnlisted()
    ensures "" !in DOMAINS && "" !in NAMES
  {
  }

  /** `segment.airline || segment.operating?.carrierCode`; `None` stands for `undefined`. */
  function AirlineCode(airline: string, operatingCarrier: Option<string>): (code: Option<string>)
    ensures airline != "" ==> code == Some(airline)
    ensures airline == "" ==> code == operatingCarrier
  {
    if airline != "" then Some(airline) else operatingCarrier
  }

  /** `airlineNames[airlineCode] || airlineCode || ''`. */
  function DisplayName(code: Option<string>): (name: string)
    ensures code.Some? && code.value in NAMES ==> name == NAMES[code.value]
    ensures (code.None? || code.value !in NAMES) ==> name == if code.Some? then code.value else ""
  {
    match code
    case Some(c) => if c in NAMES then NAMES[c] else c
    case None => ""
  }

  /** A display name is empty exactly when there is no code or the code is empty. */
  lemma DisplayNameEmpty(code: Option<string>)
    ensures DisplayName(code) == "" <==> code.None? || code.value == ""
  {
    NamesNonEmpty();
    if code.Some? && code.value in NAMES {
      assert NAMES[code.value] in NAMES.Values;
    }
  }

  /** `airlineDomains[airlineCode]`, turned into the proxied logo URL when present. */
  function LogoUrl(code: Option<string>): (url: Option<string>)
    ensures url.Some? <==> code.Some? && code.value in DOMAINS
    ensures url.Some? ==> url.value == "/logo/" + DOMAINS[code.value]
  {
    match code
    case Some(c) => if c in DOMAINS then Some("/logo/" + DOMAINS[c]) else None
    case None => None
  }

  /** A carrier has a logo URL exactly when it has a name of its own. */
  lemma LogoIffNamed(c: string)
    ensures LogoUrl(Some(c)).Some? <==> c in NAMES
  {
    TablesShareCodes();
  }

  /** `${airlineCode}` in the selection summary: `undefined` renders as that word. */
  function CodeText(code: Option<string>): (s: string)
    ensures code.Some? ==> s == code.value
    ensures code.None? ==> s == "undefined"
  {
    if code.Some? then code.value else "undefined"
  }
}
