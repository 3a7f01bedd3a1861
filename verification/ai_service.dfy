/**
 The chat pipeline of the MoveSmart AI service.

 One request goes: intent detection -> (booking | document | general). The
 general path extracts country names, enriches the request with facts from a
 per-instance cache, assembles the message list for the generative-language
 gateway, and appends markdown action blocks to the gateway's text. Every
 failure on that path is replaced by a localized apology.

 The HTTP exchange itself is not modelled: its outcome is an input value
 (`GatewayOutcome`), and the advice function records the message list it
 would have sent.
 */
module AIService {
  import opened Text
  import opened WordMatch

  // ===========================================================================
  // Intent detection
  // ===========================================================================

  const BookingKeywords: seq<string> := [
    "book flight", "book hotel", "reserve", "purchase ticket",
    "buy ticket", "make reservation", "book travel", "book accommodation",
    "find flights", "search flights", "flight booking", "hotel booking"
  ]

  const DocumentKeywords: seq<string> := [
    "visa application", "apply for visa", "process visa",
    "submit documents", "upload documents", "visa processing",
    "immigration documents", "document verification"
  ]

  /** Some keyword occurs in the message, both sides lower-cased. */
  function MentionsAny(message: string, keywords: seq<string>): (r: bool)
    ensures r <==> exists k :: k in keywords && Contains(Lower(message), Lower(k))
  {
    if keywords == [] then false
    else Contains(Lower(message), Lower(keywords[0])) || MentionsAny(message, keywords[1..])
  }

  predicate DetectBookingIntent(message: string) {
    MentionsAny(message, BookingKeywords)
  }

  predicate DetectDocumentIntent(message: string) {
    MentionsAny(message, DocumentKeywords)
  }

  /** Intent detection does not depend on letter case. */
  lemma IntentIgnoresCase(message: string)
    ensures DetectBookingIntent(Lower(message)) == DetectBookingIntent(message)
    ensures DetectBookingIntent(Upper(message)) == DetectBookingIntent(message)
    ensures DetectDocumentIntent(Lower(message)) == DetectDocumentIntent(message)
    ensures DetectDocumentIntent(Upper(message)) == DetectDocumentIntent(message)
  {
    LowerIdempotent(message);
    LowerOfUpper(message);
  }

  /** Any text around a booking keyword, in any case, is a booking request. */
  lemma BookingKeywordInContext(before: string, keyword: string, after: string)
    requires keyword in BookingKeywords
    ensures DetectBookingIntent(before + Upper(keyword) + after)
  {
    var m := before + Upper(keyword) + after;
    LowerAppend(before + Upper(keyword), after);
    LowerAppend(before, Upper(keyword));
    LowerOfUpper(keyword);
    LowerIdempotent(keyword);
    assert Lower(keyword) == keyword;
    assert Contains(keyword, keyword) by { assert OccursAt(keyword, keyword, 0); }
    ContainsInfix(Lower(before), keyword, Lower(after), keyword);
  }

  // ===========================================================================
  // Country extraction
  // ===========================================================================

  /** One pattern per country, each a list of aliases, in the order tried. */
  const CountryPatterns: seq<seq<string>> := [
    ["canada", "canadian"],
    ["usa", "america", "united states"],
    ["uk", "britain", "united kingdom"],
    ["australia", "australian"],
    ["germany", "german"],
    ["france", "french"],
    ["spain", "spanish"],
    ["italy", "italian"],
    ["netherlands", "dutch"],
    ["sweden", "swedish"]
  ]

  /** For each pattern in order, the lower-cased alias it matched, if any. */
  function ExtractWith(message: string, patterns: seq<seq<string>>): (r: seq<string>)
    ensures |r| <= |patterns|
    ensures forall j :: 0 <= j < |r| ==> exists k :: 0 <= k < |patterns| && r[j] in patterns[k]
    ensures r == [] <==> forall k :: 0 <= k < |patterns| ==> Search(message, patterns[k]).None?
  {
    if patterns == [] then []
    else
      var here := match Search(message, patterns[0])
        case Some(f) => [f.alt]
        case None => [];
      var rest := ExtractWith(message, patterns[1..]);
      assert forall k :: 0 < k < |patterns| ==> patterns[k] == patterns[1..][k - 1];
      here + rest
  }

  function ExtractCountries(message: string): (r: seq<string>)
    ensures |r| <= 10
    ensures forall c :: c in r ==> exists k :: 0 <= k < |CountryPatterns| && c in CountryPatterns[k]
    ensures r == [] <==> forall k :: 0 <= k < |CountryPatterns| ==> Search(message, CountryPatterns[k]).None?
  {
    var r := ExtractWith(message, CountryPatterns);
    assert forall c :: c in r ==> exists j :: 0 <= j < |r| && r[j] == c;
    r
  }

  /** Extraction is pattern by pattern: splitting the pattern list splits the result. */
  lemma {:induction false} ExtractAppend(message: string, p1: seq<seq<string>>, p2: seq<seq<string>>)
    ensures ExtractWith(message, p1 + p2) == ExtractWith(message, p1) + ExtractWith(message, p2)
  {
    if p1 == [] {
      assert p1 + p2 == p2;
    } else {
      assert (p1 + p2)[0] == p1[0];
      assert (p1 + p2)[1..] == p1[1..] + p2;
      ExtractAppend(message, p1[1..], p2);
    }
  }

  /** A single pattern contributes exactly the alias it matched, or nothing. */
  lemma ExtractOne(message: string, pattern: seq<string>)
    ensures Search(message, pattern).Some? ==> ExtractWith(message, [pattern]) == [Search(message, pattern).value.alt]
    ensures Search(message, pattern).None? ==> ExtractWith(message, [pattern]) == []
  {
    assert [pattern][1..] == [];
  }

  // ===========================================================================
  // Country facts and their cache
  // ===========================================================================

  datatype VisaRequirements = VisaRequirements(processingTime: string, fees: string, requirements: seq<string>)
  datatype CostOfLiving = CostOfLiving(index: nat, rent: string, food: string, transport: string)
  datatype JobMarket = JobMarket(status: string, averageSalary: string, unemployment: string)
  datatype Healthcare = Healthcare(kind: string, cost: string, quality: string)
  datatype Education = Education(system: string, cost: string, language: string)
  datatype Culture = Culture(language: string, diversity: string, climate: string)
  datatype Immigration = Immigration(processingTime: string, fees: string, pathways: seq<string>)

  datatype CountryData = CountryData(
    visaRequirements: VisaRequirements,
    costOfLiving: CostOfLiving,
    jobMarket: JobMarket,
    healthcare: Healthcare,
    education: Education,
    culture: Culture,
    immigration: Immigration)

  /** The record synthesized for every country on a cache miss. */
  const SyntheticCountryData: CountryData := CountryData(
    VisaRequirements("2-4 weeks", "$150-500", ["Passport", "Photos", "Financial proof", "Medical exam"]),
    CostOfLiving(75, "$800-2000/month", "$300-500/month", "$100-200/month"),
    JobMarket("Strong demand for skilled workers", "$45,000-80,000", "3.2%"),
    Healthcare("Universal healthcare", "Free/Low cost", "High"),
    Education("World-class universities", "$10,000-30,000/year", "English"),
    Culture("English", "Highly multicultural", "Varies by region"),
    Immigration("6-12 months", "$1,500-3,000", ["Express Entry", "Provincial Nominee", "Family Sponsorship"]))

  /** The per-instance cache, keyed by the extracted alias. It starts empty. */
  type Cache = map<string, CountryData>

  /** What the cache yields for a key: its entry on a hit, the synthesized record on a miss. */
  function Lookup(cache: Cache, country: string): CountryData {
    if country in cache then cache[country] else SyntheticCountryData
  }

  /** `getCountryData`: read the entry, inserting the synthesized record on a miss. */
  function GetCountryData(cache: Cache, country: string): (r: (CountryData, Cache))
    ensures r.0 == Lookup(cache, country)
    ensures r.1.Keys == cache.Keys + {country}
    ensures forall k :: k in cache ==> r.1[k] == cache[k]
    ensures r.1[country] == r.0
  {
    if country in cache then (cache[country], cache)
    else (SyntheticCountryData, cache[country := SyntheticCountryData])
  }

  /** A second lookup of the same key hits, returns the same record and leaves the cache alone. */
  lemma GetCountryDataRepeat(cache: Cache, country: string)
    ensures var (d, c1) := GetCountryData(cache, country);
            GetCountryData(c1, country) == (d, c1)
  {
  }

  /** The fixed multi-line report for one country. */
  function CountryReport(country: string, d: CountryData): string {
    "\n\nReal-time data for " + country + ":\n"
    + "- Visa processing time: " + d.immigration.processingTime + "\n"
    + "- Current visa fees: " + d.immigration.fees + "\n"
    + "- Job market: " + d.jobMarket.status + "\n"
    + "- Cost of living index: " + NatToString(d.costOfLiving.index) + "\n"
    + "- Healthcare system: " + d.healthcare.kind + "\n"
  }

  /** Reference definition: the reports of the countries, each read from the cache as it was before. */
  function Reports(cache: Cache, countries: seq<string>): string {
    if countries == [] then ""
    else CountryReport(countries[0], Lookup(cache, countries[0])) + Reports(cache, countries[1..])
  }

  /** The enrichment loop: fetch each country's facts through the cache, appending its report. */
  function Enrich(cache: Cache, countries: seq<string>): (r: (string, Cache))
    ensures r.0 == Reports(cache, countries)
    ensures r.1.Keys == cache.Keys + (set c | c in countries)
    ensures forall k :: k in r.1 ==> r.1[k] == Lookup(cache, k)
    decreases |countries|
  {
    if countries == [] then ("", cache)
    else
      var (d, c1) := GetCountryData(cache, countries[0]);
      var (rest, c2) := Enrich(c1, countries[1..]);
      assert forall c :: Lookup(c1, c) == Lookup(cache, c);
      ReportsFrom(c1, cache, countries[1..]);
      assert forall c :: c in countries <==> c == countries[0] || c in countries[1..];
      (CountryReport(countries[0], d) + rest, c2)
  }

  /** There is some report text exactly when some country was named. */
  lemma ReportsEmpty(cache: Cache, countries: seq<string>)
    ensures Reports(cache, countries) == "" <==> countries == []
  {
    if countries != [] {
      assert |CountryReport(countries[0], Lookup(cache, countries[0]))| > 0;
    }
  }

  /** Two caches that answer every key alike produce the same reports. */
  lemma {:induction false} ReportsFrom(c1: Cache, c2: Cache, countries: seq<string>)
    requires forall c :: Lookup(c1, c) == Lookup(c2, c)
    ensures Reports(c1, countries) == Reports(c2, countries)
  {
    if countries != [] {
      ReportsFrom(c1, c2, countries[1..]);
    }
  }

  /** `enrichWithRealTimeData`. */
  function EnrichWithRealTimeData(cache: Cache, message: string): (r: (string, Cache))
    ensures r.0 == "" <==> ExtractCountries(message) == []
    ensures r.1.Keys == cache.Keys + (set c | c in ExtractCountries(message))
    ensures forall k :: k in cache ==> r.1[k] == cache[k]
  {
    ReportsEmpty(cache, ExtractCountries(message));
    Enrich(cache, ExtractCountries(message))
  }

  /** Every entry is the synthesized record. Holds of the empty cache and is kept by every call. */
  ghost predicate CacheInvariant(cache: Cache) {
    forall k :: k in cache ==> cache[k] == SyntheticCountryData
  }

  /** Reports of the synthesized record, one per country. */
  function FixedReports(countries: seq<string>): string {
    if countries == [] then ""
    else CountryReport(countries[0], SyntheticCountryData) + FixedReports(countries[1..])
  }

  /** With the invariant, enrichment is one fixed report per country, and the invariant is kept. */
  lemma {:induction false} EnrichFixed(cache: Cache, countries: seq<string>)
    requires CacheInvariant(cache)
    ensures Enrich(cache, countries).0 == FixedReports(countries)
    ensures CacheInvariant(Enrich(cache, countries).1)
  {
    if countries != [] {
      EnrichFixed(cache, countries[1..]);
    }
  }

  /** Repeating an enrichment gives the same text and leaves the cache as the first call left it. */
  lemma EnrichRepeat(cache: Cache, message: string)
    ensures var (text, c1) := EnrichWithRealTimeData(cache, message);
            EnrichWithRealTimeData(c1, message) == (text, c1)
  {
    var cs := ExtractCountries(message);
    var c1 := Enrich(cache, cs).1;
    assert forall c :: Lookup(c1, c) == Lookup(cache, c);
    ReportsFrom(c1, cache, cs);
    EnrichKnownKeys(c1, cs);
  }

  /** Enriching countries that are all cached already leaves the cache as it is. */
  lemma EnrichKnownKeys(cache: Cache, countries: seq<string>)
    requires forall c :: c in countries ==> c in cache
    ensures Enrich(cache, countries).1 == cache
  {
    var c2 := Enrich(cache, countries).1;
    assert c2.Keys == cache.Keys;
    assert forall k :: k in c2 ==> c2[k] == cache[k];
  }

  // ===========================================================================
  // Prompts, fixed replies and the fallback
  // ===========================================================================

  /** The English persona prompt, before and after the enrichment text. */
  const EnPromptHead: string :=
    "Hi! I’m MoveSmart AI, your all-in-one immigration and relocation assistant.\n**What I Can Do for You:**\n- Book flights, hotels, and transport\n- Process visas and immigration documents\n- Give live updates on visa times, fees, and requirements\n- Guide you with step-by-step instructions and virtual tours\n\n**How I Work:**\n- I complete tasks within the platform and redirect to external websites if needed\n- I provide full, actionable solutions with details\n- I can perform tasks immediately if you give permission\n\n**Enhanced Context:** "

  const EnPromptTail: string :=
    "\n\nLet’s make your immigration and relocation smooth and stress-free!"

  /** The Spanish persona prompt, before and after the enrichment text. */
  const EsPromptHead: string :=
    "¡Hola! Soy MoveSmart AI, tu asistente completo para inmigración y reubicación.\n    \n**Qué Puedo Hacer:**\n- Reservar vuelos, hoteles y transporte\n- Procesar visas y documentos de inmigración\n- Dar información en tiempo real sobre tiempos, tarifas y requisitos de visas\n- Guiarte paso a paso y ofrecer recorridos virtuales\n\n**Contexto Mejorado:** "

  const EsPromptTail: string :=
    "\n\n¡Vamos a hacer tu proceso de inmigración y reubicación fácil y sin estrés!"

  /** The apologies shown when the request fails. */
  const FallbackEn: string :=
    "🤖 MoveSmart AI is having a brief hiccup, but I’m still here!  \nI can help with visas, flights, hotels, documents, and immigration info.  \nTry asking again or tell me what you need most!"

  const FallbackEs: string :=
    "🤖 MoveSmart AI tiene un pequeño inconveniente, ¡pero sigo aquí!  \nPuedo ayudarte con visas, vuelos, hoteles, documentos e información de inmigración.  \nIntenta preguntar de nuevo o dime qué necesitas."

  /** The fixed model turn that follows the persona prompt. */
  const Acknowledgement: string :=
    "Got it! I’m MoveSmart AI, your go-to for immigration and relocation. I can help book flights, handle visa applications, give real-time country info, and guide you step by step. I can even complete tasks with your permission. What would you like to do first?"

  /** The fixed reply to a document-processing request. */
  const VisaApplicationReply: string :=
    "# 📋 Visa Application\n- I can check documents, complete forms, and submit.  \n- Supported: Canada, USA, UK, Australia, Germany, more.  \n\n👉 Reply with \"Start visa for [Country]\" to begin."

  /** Appended when the message mentions flights or booking. */
  const FlightActionsBlock: string :=
    "\n\n## 🚀 **Instant Actions:**\n- **[📱 Book This Flight Now](/travel?action=book&type=flight)** - Complete booking in 2 minutes\n- **[🗺️ Airport Navigation Guide](/maps?category=airports)** - Step-by-step airport guidance\n- **[📋 Visa Requirements Check](/guide?action=visa-check)** - Verify your travel documents\n- **[🏨 Book Arrival Hotel](/travel?action=book&type=hotel)** - Secure accommodation\n"

  /** Appended when the message mentions visas or immigration. */
  const VisaCenterBlock: string :=
    "\n\n## 📋 **Visa Processing Center:**\n- **[📤 Start Visa Application](/guide?action=visa-apply)** - I'll process your application\n- **[📷 Upload Documents](/profile?section=documents)** - Secure document processing\n- **[🏛️ Find Immigration Offices](/maps?category=immigration)** - Locate nearest offices\n- **[📊 Track Application Status](/profile?section=applications)** - Monitor progress\n"

  /**
   `getEnhancedSystemPrompt`: the Spanish template exactly for "es", the
   English one for every other code, each embedding the enrichment text.
   */
  function SystemPrompt(language: string, context: string): (r: string)
    ensures r == EsPromptHead + context + EsPromptTail <==> language == "es"
    ensures language != "es" ==> r == EnPromptHead + context + EnPromptTail
    ensures Contains(r, context)
  {
    assert |EnPromptHead| + |EnPromptTail| != |EsPromptHead| + |EsPromptTail|;
    assert Contains(context, context) by { assert OccursAt(context, context, 0); }
    if language == "es" then
      ContainsInfix(EsPromptHead, context, EsPromptTail, context);
      EsPromptHead + context + EsPromptTail
    else
      ContainsInfix(EnPromptHead, context, EnPromptTail, context);
      EnPromptHead + context + EnPromptTail
  }

  /** `getFallbackResponse`: the Spanish apology exactly for "es", the English one for every other code. */
  function Fallback(language: string): (r: string)
    ensures r == FallbackEs <==> language == "es"
    ensures language != "es" ==> r == FallbackEn
  {
    assert |FallbackEn| != |FallbackEs|;
    if language == "es" then FallbackEs else FallbackEn
  }

  // ===========================================================================
  // Message assembly
  // ===========================================================================

  datatype Role = UserRole | ModelRole

  /** One entry of the gateway's `contents` list (its single text part). */
  datatype GeminiMessage = GeminiMessage(role: Role, text: string)

  /** One caller-supplied history entry; any role string may appear. */
  datatype Turn = Turn(role: string, content: string)

  predicate IsChatTurn(t: Turn) {
    t.role == "user" || t.role == "assistant"
  }

  function ToGemini(t: Turn): GeminiMessage
    requires IsChatTurn(t)
  {
    GeminiMessage(if t.role == "user" then UserRole else ModelRole, t.content)
  }

  /** History mapping: user -> user, assistant -> model, any other role dropped. */
  function MapHistory(history: seq<Turn>): (r: seq<GeminiMessage>)
    ensures |r| <= |history|
    ensures (forall t :: t in history ==> IsChatTurn(t)) ==>
              |r| == |history| && forall i :: 0 <= i < |r| ==> r[i] == ToGemini(history[i])
  {
    if history == [] then []
    else if IsChatTurn(history[0]) then [ToGemini(history[0])] + MapHistory(history[1..])
    else MapHistory(history[1..])
  }

  /** History mapping works entry by entry, so it keeps the history's order. */
  lemma {:induction false} MapHistoryAppend(h1: seq<Turn>, h2: seq<Turn>)
    ensures MapHistory(h1 + h2) == MapHistory(h1) + MapHistory(h2)
  {
    if h1 == [] {
      assert h1 + h2 == h2;
    } else {
      assert (h1 + h2)[0] == h1[0];
      assert (h1 + h2)[1..] == h1[1..] + h2;
      MapHistoryAppend(h1[1..], h2);
    }
  }

  /** An entry with a role other than user or assistant is dropped without a trace. */
  lemma MapHistoryDropsOtherRoles(history: seq<Turn>, t: Turn)
    requires !IsChatTurn(t)
    ensures MapHistory(history + [t]) == MapHistory(history)
    ensures MapHistory([t] + history) == MapHistory(history)
  {
    MapHistoryAppend(history, [t]);
    assert [t][1..] == [];
    assert ([t] + history)[1..] == history;
  }

  /** The text of the final user turn. */
  function CurrentTurnText(message: string, enrichment: string): string {
    message + "\n\nContext: " + enrichment
  }

  /** The ordered `contents` list: persona prompt, acknowledgement, mapped history, current turn. */
  function AssembleMessages(systemPrompt: string, history: seq<Turn>, message: string, enrichment: string): (r: seq<GeminiMessage>)
    ensures |r| == 3 + |MapHistory(history)|
    ensures r[0] == GeminiMessage(UserRole, systemPrompt)
    ensures r[1] == GeminiMessage(ModelRole, Acknowledgement)
    ensures r[2..|r| - 1] == MapHistory(history)
    ensures r[|r| - 1] == GeminiMessage(UserRole, CurrentTurnText(message, enrichment))
  {
    [GeminiMessage(UserRole, systemPrompt), GeminiMessage(ModelRole, Acknowledgement)]
    + MapHistory(history)
    + [GeminiMessage(UserRole, CurrentTurnText(message, enrichment))]
  }

  // ===========================================================================
  // The gateway's outcome
  // ===========================================================================

  /**
   What the HTTP call produced. `candidates` is the response's candidate list
   (None when absent), each reduced to the text of its first part (None when
   any link of `candidates[i].content.parts[0].text` is missing).
   */
  datatype GatewayOutcome =
    | TransportFailure
    | Response(status: int, candidates: Option<seq<Option<string>>>)

  predicate IsOk(status: int) {
    200 <= status <= 299
  }

  /** The generated text, when the call succeeded and produced a non-empty first text. */
  function GeneratedText(outcome: GatewayOutcome): (r: Option<string>)
    ensures r.Some? ==> r.value != ""
    ensures r.Some? <==> outcome.Response? && IsOk(outcome.status) && outcome.candidates.Some?
                         && |outcome.candidates.value| > 0 && Truthy(outcome.candidates.value[0])
    ensures r.Some? ==> r == outcome.candidates.value[0]
  {
    match outcome
    case TransportFailure => None
    case Response(status, candidates) =>
      if !IsOk(status) then None
      else if candidates.None? || |candidates.value| == 0 then None
      else if candidates.value[0].None? || candidates.value[0].value == "" then None
      else candidates.value[0]
  }

  // ===========================================================================
  // Action blocks
  // ===========================================================================

  /** The countries the location-specific block reacts to. */
  const HubCountries: seq<string> := ["canada", "usa", "uk", "germany", "australia", "france", "spain", "italy"]

  datatype ActionBlock = FlightActions | VisaCenter | CountryHub(country: string)

  function Rank(b: ActionBlock): nat {
    match b
    case FlightActions => 0
    case VisaCenter => 1
    case CountryHub(_) => 2
  }

  predicate WantsFlightActions(message: string) {
    Contains(Lower(message), "flight") || Contains(Lower(message), "book")
  }

  predicate WantsVisaCenter(message: string) {
    Contains(Lower(message), "visa") || Contains(Lower(message), "immigration")
  }

  /** The blocks a message triggers. */
  function ActionBlocks(message: string): (r: seq<ActionBlock>)
    ensures |r| <= 3
    ensures forall i, j :: 0 <= i < j < |r| ==> Rank(r[i]) < Rank(r[j])
    ensures FlightActions in r <==> WantsFlightActions(message)
    ensures VisaCenter in r <==> WantsVisaCenter(message)
    ensures forall c :: CountryHub(c) in r <==>
              Search(message, HubCountries).Some? && c == Search(message, HubCountries).value.alt
    ensures forall c :: CountryHub(c) in r ==> c in HubCountries
  {
    (if WantsFlightActions(message) then [FlightActions] else [])
    + (if WantsVisaCenter(message) then [VisaCenter] else [])
    + (match Search(message, HubCountries)
       case Some(f) => [CountryHub(f.alt)]
       case None => [])
  }

  /** The location-specific block; every link carries the lower-cased country. */
  function CountryHubBlock(country: string): string {
    "\n\n## 🌍 **" + Upper(country) + " Immigration Hub:**\n"
    + "- **[📖 Complete " + country + " Guide](/guide?country=" + country + ")** - Everything you need to know\n"
    + "- **[🗺️ Explore " + country + " Cities](/maps?country=" + country + ")** - Virtual tours and navigation\n"
    + "- **[✈️ Book Travel to " + country + "](/travel?destination=" + country + ")** - Immigration-friendly bookings\n"
    + "- **[👥 Connect with " + country + " Community](/profile?section=community&country=" + country + ")** - Meet other immigrants\n"
  }

  function Render(b: ActionBlock): (r: string)
    ensures r != ""
  {
    match b
    case FlightActions => FlightActionsBlock
    case VisaCenter => VisaCenterBlock
    case CountryHub(c) => CountryHubBlock(c)
  }

  function RenderAll(bs: seq<ActionBlock>): (r: string)
    ensures r == "" <==> bs == []
  {
    if bs == [] then "" else Render(bs[0]) + RenderAll(bs[1..])
  }

  /** `enhanceResponseWithActionableButtons`: purely additive post-processing. */
  function Augment(text: string, message: string): (r: string)
    ensures StartsWith(r, text)
    ensures r == text <==> ActionBlocks(message) == []
    ensures r[|text|..] == RenderAll(ActionBlocks(message))
  {
    text + RenderAll(ActionBlocks(message))
  }

  /** What is appended depends on the user's message only, never on the model's text. */
  lemma AugmentSuffixIgnoresText(t1: string, t2: string, message: string)
    ensures Augment(t1, message)[|t1|..] == Augment(t2, message)[|t2|..]
  {
  }

  // ===========================================================================
  // The advice request
  // ===========================================================================

  /** The reply shown to the user, the cache afterwards, and the message list sent, if any. */
  datatype Advice = Advice(reply: string, cache: Cache, request: Option<seq<GeminiMessage>>)

  /**
   `getImmigrationAdvice`. A booking request ends in the apology, because the
   booking handler throws and the top-level catch replaces the exception. A
   document request gets the fixed visa-application text. Only the general
   path enriches, assembles and consults the gateway.
   */
  function GetImmigrationAdvice(cache: Cache, message: string, language: string,
                                history: seq<Turn>, outcome: GatewayOutcome): (r: Advice)
    ensures DetectBookingIntent(message) ==> r == Advice(Fallback(language), cache, None)
    ensures !DetectBookingIntent(message) && DetectDocumentIntent(message) ==>
              r == Advice(VisaApplicationReply, cache, None)
    ensures r.request.Some? <==> !DetectBookingIntent(message) && !DetectDocumentIntent(message)
    ensures r.request.Some? ==>
              var (enrichment, cache') := EnrichWithRealTimeData(cache, message);
              && r.cache == cache'
              && r.request.value == AssembleMessages(SystemPrompt(language, enrichment), history, message, enrichment)
              && (GeneratedText(outcome).Some? ==> r.reply == Augment(GeneratedText(outcome).value, message))
              && (GeneratedText(outcome).None? ==> r.reply == Fallback(language))
    ensures cache.Keys <= r.cache.Keys
    ensures forall k :: k in cache ==> r.cache[k] == cache[k]
  {
    if DetectBookingIntent(message) then Advice(Fallback(language), cache, None)
    else if DetectDocumentIntent(message) then Advice(VisaApplicationReply, cache, None)
    else
      var (enrichment, cache') := EnrichWithRealTimeData(cache, message);
      var request := AssembleMessages(SystemPrompt(language, enrichment), history, message, enrichment);
      var reply := match GeneratedText(outcome)
        case Some(text) => Augment(text, message)
        case None => Fallback(language);
      Advice(reply, cache', Some(request))
  }

  /** Booking wins over document: a message with both kinds of keyword gets the apology. */
  lemma BookingBeforeDocument(cache: Cache, message: string, language: string,
                              history: seq<Turn>, outcome: GatewayOutcome)
    requires DetectBookingIntent(message) && DetectDocumentIntent(message)
    ensures GetImmigrationAdvice(cache, message, language, history, outcome).reply == Fallback(language)
  {
  }

  /** On the general path every gateway failure yields the localized apology. */
  lemma GatewayFailureFallsBack(cache: Cache, message: string, language: string,
                                history: seq<Turn>, status: int, candidates: Option<seq<Option<string>>>)
    requires !DetectBookingIntent(message) && !DetectDocumentIntent(message)
    requires !IsOk(status) || candidates.None? || candidates == Some([])
    ensures GetImmigrationAdvice(cache, message, language, history, TransportFailure).reply == Fallback(language)
    ensures GetImmigrationAdvice(cache, message, language, history, Response(status, candidates)).reply == Fallback(language)
  {
  }

  /** On the general path a successful call's text always survives, as a prefix of the reply. */
  lemma SuccessKeepsModelText(cache: Cache, message: string, language: string,
                              history: seq<Turn>, text: string, rest: seq<Option<string>>)
    requires !DetectBookingIntent(message) && !DetectDocumentIntent(message)
    requires text != ""
    ensures StartsWith(GetImmigrationAdvice(cache, message, language, history,
                                            Response(200, Some([Some(text)] + rest))).reply, text)
  {
  }

  // ===========================================================================
  // Internal booking links
  // ===========================================================================

  datatype BookingType = FlightBooking | HotelBooking | TransportBooking | VisaBooking

  /** The fields `generateBookingLink` reads; each may be absent. */
  datatype BookingRequest = BookingRequest(kind: BookingType, from: Option<string>, to: Option<string>, date: Option<string>)

  function BaseUrl(kind: BookingType): string {
    match kind
    case FlightBooking => "/travel?service=flights&action=book"
    case HotelBooking => "/travel?service=hotels&action=book"
    case TransportBooking => "/travel?service=transport&action=book"
    case VisaBooking => "/guide?action=visa-apply"
  }

  /** One `&name=value` parameter the link may carry; it is appended only when `present`. */
  datatype QueryField = QueryField(name: string, present: bool, value: string)

  /** The query fields of a request, in the order they are appended: from, to (both encoded), date (raw). */
  function RequestFields(request: BookingRequest, encode: string -> string): seq<QueryField> {
    [ QueryField("from", Truthy(request.from), if Truthy(request.from) then encode(request.from.value) else ""),
      QueryField("to", Truthy(request.to), if Truthy(request.to) then encode(request.to.value) else ""),
      QueryField("date", Truthy(request.date), if Truthy(request.date) then request.date.value else "") ]
  }

  /** The appended text: `&name=value` for every present field. */
  function QueryText(fields: seq<QueryField>): string {
    if fields == [] then ""
    else
      var f := fields[0];
      (if f.present then "&" + f.name + "=" + f.value else "") + QueryText(fields[1..])
  }

  /** `generateBookingLink`, with `encodeURIComponent` passed in; the date is not encoded. */
  function GenerateBookingLink(request: BookingRequest, encode: string -> string): (url: string)
    ensures StartsWith(url, BaseUrl(request.kind))
  {
    BaseUrl(request.kind) + QueryText(RequestFields(request, encode))
  }

  /** Index of the first '&' at or after `i`, or the length. */
  function NextAmp(s: string, i: nat): (r: nat)
    requires i <= |s|
    ensures i <= r <= |s|
    ensures forall k :: i <= k < r ==> s[k] != '&'
    ensures r < |s| ==> s[r] == '&'
    decreases |s| - i
  {
    if i == |s| || s[i] == '&' then i else NextAmp(s, i + 1)
  }

  /** Index of the first '=' in `s`, or the length. */
  function FirstEq(s: string): (r: nat)
    ensures r <= |s|
    ensures forall k :: 0 <= k < r ==> s[k] != '='
    ensures r < |s| ==> s[r] == '='
  {
    if s == [] then 0 else if s[0] == '=' then 0 else 1 + FirstEq(s[1..])
  }

  /** Splits one `name=value` segment at its first '='. */
  function SplitParam(segment: string): (string, string) {
    var e := FirstEq(segment);
    (segment[..e], if e < |segment| then segment[e + 1..] else "")
  }

  /** Reads back the `&name=value` parameters appended to a base URL. */
  function QueryParams(s: string): seq<(string, string)>
    decreases |s|
  {
    if s == [] || s[0] != '&' then []
    else
      var e := NextAmp(s, 1);
      [SplitParam(s[1..e])] + QueryParams(s[e..])
  }

  /** The (name, value) pairs of the present fields, in order. */
  function PresentParams(fields: seq<QueryField>): seq<(string, string)> {
    if fields == [] then []
    else (if fields[0].present then [(fields[0].name, fields[0].value)] else []) + PresentParams(fields[1..])
  }

  /** A field is readable back when neither its name nor its value can end the segment early. */
  predicate Readable(f: QueryField) {
    '&' !in f.name && '=' !in f.name && '&' !in f.value
  }

  lemma ReadParam(name: string, value: string, rest: string)
    requires '&' !in name && '=' !in name && '&' !in value
    requires rest == [] || rest[0] == '&'
    ensures QueryParams("&" + name + "=" + value + rest) == [(name, value)] + QueryParams(rest)
  {
    var s := "&" + name + "=" + value + rest;
    var seg := name + "=" + value;
    assert s == "&" + seg + rest;
    assert '&' !in seg;
    assert forall k :: 1 <= k < 1 + |seg| ==> s[k] == seg[k - 1];
    assert forall k :: 1 <= k < 1 + |seg| ==> s[k] != '&';
    assert 1 + |seg| < |s| ==> s[1 + |seg|] == '&';
    var e := NextAmp(s, 1);
    assert e == 1 + |seg|;
    assert s[1..e] == seg;
    assert s[e..] == rest;
    assert seg[|name|] == '=';
    assert forall k :: 0 <= k < |name| ==> seg[k] == name[k];
    assert FirstEq(seg) == |name|;
    assert seg[..|name|] == name;
    assert seg[|name| + 1..] == value;
  }

  /** Reading back the appended text gives the present fields, in order. */
  lemma {:induction false} ReadQuery(fields: seq<QueryField>)
    requires forall i :: 0 <= i < |fields| ==> Readable(fields[i])
    ensures QueryText(fields) == [] || QueryText(fields)[0] == '&'
    ensures QueryParams(QueryText(fields)) == PresentParams(fields)
  {
    if fields != [] {
      var f := fields[0];
      var rest := QueryText(fields[1..]);
      ReadQuery(fields[1..]);
      if f.present {
        ReadParam(f.name, f.value, rest);
        assert QueryText(fields) == "&" + f.name + "=" + f.value + rest;
      } else {
        assert QueryText(fields) == rest;
      }
    }
  }

  /** The parameters a request should carry, in the order they are appended. */
  function ExpectedParams(request: BookingRequest, encode: string -> string): seq<(string, string)> {
    (if Truthy(request.from) then [("from", encode(request.from.value))] else [])
    + (if Truthy(request.to) then [("to", encode(request.to.value))] else [])
    + (if Truthy(request.date) then [("date", request.date.value)] else [])
  }

  /** The present fields of a request are exactly the expected parameters. */
  lemma PresentRequestFields(request: BookingRequest, encode: string -> string)
    ensures PresentParams(RequestFields(request, encode)) == ExpectedParams(request, encode)
  {
    var fields := RequestFields(request, encode);
    var e1: seq<(string, string)> := if Truthy(request.from) then [("from", encode(request.from.value))] else [];
    var e2: seq<(string, string)> := if Truthy(request.to) then [("to", encode(request.to.value))] else [];
    var e3: seq<(string, string)> := if Truthy(request.date) then [("date", request.date.value)] else [];
    assert fields[1..][1..][1..] == [];
    assert PresentParams(fields[1..][1..]) == e3 + [];
    assert PresentParams(fields[1..]) == e2 + (e3 + []);
    assert e1 + (e2 + (e3 + [])) == e1 + e2 + e3;
  }

  /**
   Round trip: after the base URL, the link carries exactly the truthy fields,
   in the order from, to, date, each readable back, provided the encoder never
   emits '&' (encodeURIComponent escapes it) and the unencoded date has none.
   */
  lemma BookingLinkRoundTrip(request: BookingRequest, encode: string -> string)
    requires forall s :: '&' !in encode(s)
    requires request.date.Some? ==> '&' !in request.date.value
    ensures var url := GenerateBookingLink(request, encode);
            QueryParams(url[|BaseUrl(request.kind)|..]) == ExpectedParams(request, encode)
  {
    var fields := RequestFields(request, encode);
    var base := BaseUrl(request.kind);
    assert (base + QueryText(fields))[|base|..] == QueryText(fields);
    assert forall i :: 0 <= i < |fields| ==> Readable(fields[i]);
    ReadQuery(fields);
    PresentRequestFields(request, encode);
  }
}
