# MoveSmart core in Dafny

MoveSmart is a relocation assistant: a React single-page app around an AI
chat service. This project models its deterministic core and proves
properties of it. The core is:

- **AI service** (`AIService`, with `WordMatch` for its country regexes):
  - keyword intent detection and the dispatch on it;
  - country extraction and the per-instance country fact cache;
  - the enrichment text built from that cache;
  - the ordered message list sent to the model;
  - the handling of the gateway's outcome and the language fallback;
  - the markdown action blocks appended to a reply;
  - internal booking-link construction.
- **Opportunities page** (`Opportunities`, `Favorites`):
  - the generated catalogue, with every field that does not come from randomness or the clock;
  - the three filters and the featured-then-score ordering;
  - the favourites toggle;
  - the classification of application links.
- **Travel page** (`Travel`): the URL parameters, search results, stops label, savings badge and stay total, favourites and the booking guard.
- **Maps page** (`Maps`):
  - place filters, marker colours and the URL category whitelist;
  - the loading-flag bookkeeping around a geocoding search.
- **Passport locator** (`PassportLocator`): the office table, its search, and the map link.
- **Guide page** (`Guide`):
  - the chat list bookkeeping of a send;
  - the history handed to the service;
  - the URL topic query and the Enter key.
- **Language context** (`Language`): the translation lookup chain, and language restore and set.
- **Auth context** (`Auth`): session id selection, login, logout and restoring a stored user.

Shared helpers live in `Text` and `Seqs`:

- `Text` models JavaScript's string truthiness, ASCII case mapping, `includes`, `startsWith`, `trim` and decimal printing.
- `Seqs` models `Array.prototype.filter`.

Every handler is one pure state transition. Whatever the handler would get from outside becomes an input value:

- the network, the geocoder and JSON;
- randomness and the clock;
- cookies and `localStorage`.

Two behaviours of the code are kept exactly as written:

- **Booking messages get the apology.** A message with booking intent gets the fallback apology. The booking handler always throws, and `getImmigrationAdvice` catches the error.
- **The cache key is the alias matched.** The key is the lower-cased alias as written in the message (`match[1].toLowerCase()` at src/services/AIService.ts:296), so "Canadian" and "Canada" fill two cache entries.

## Model

| member | source | states |
|---|---|---|
| AIService.MentionsAny | src/services/AIService.ts:185-207 | intent holds iff some keyword of the list occurs in the message, both sides lower-cased |
| AIService.IntentIgnoresCase | src/services/AIService.ts:185-207 | booking and document intent are the same for a message and its lower- and upper-cased forms |
| AIService.BookingKeywordInContext | src/services/AIService.ts:185-195 | any booking keyword, in any case and surrounded by any text, triggers booking intent |
| WordMatch.Search | src/services/AIService.ts:294 | a `/\b(alts)\b/i` match is at the leftmost position where some alternative matches between word boundaries, and there it is the first alternative in the order written; there is no match iff no alternative matches anywhere |
| AIService.ExtractWith | src/services/AIService.ts:278-301 | at most one alias per pattern; every entry is one of the aliases; empty iff no pattern matches |
| AIService.ExtractCountries | src/services/AIService.ts:278-301 | at most ten entries, each an alias of one of the country patterns; empty iff none of the ten patterns matches |
| AIService.ExtractAppend | src/services/AIService.ts:292-298 | extraction goes pattern by pattern, in the order of the list: splitting the pattern list splits the result |
| AIService.ExtractOne | src/services/AIService.ts:294-297 | a single pattern adds exactly the lower-cased alias it matched, or nothing |
| AIService.GetCountryData | src/services/AIService.ts:303-350 | a hit returns the stored record; a miss adds exactly that key with the synthesized record; other entries are untouched |
| AIService.GetCountryDataRepeat | src/services/AIService.ts:303-306 | a second lookup of the same country returns the same record and leaves the cache as it is |
| AIService.Enrich | src/services/AIService.ts:262-275 | the text is the reference concatenation of per-country reports read from the starting cache; the cache gains exactly the extracted keys |
| AIService.ReportsEmpty | src/services/AIService.ts:263-275 | the report text is empty iff there are no countries |
| AIService.EnrichWithRealTimeData | src/services/AIService.ts:260-276 | enrichment is "" iff no country is extracted; cache keys only grow and old entries are kept |
| AIService.EnrichFixed | src/services/AIService.ts:260-350 | while every cached record is the synthesized one, enrichment is one fixed five-line block per country, and that stays true |
| AIService.EnrichRepeat | src/services/AIService.ts:260-276 | enriching the same message twice gives the same text and leaves the cache as the first run left it |
| AIService.SystemPrompt | src/services/AIService.ts:453-485 | the prompt is the Spanish template iff the language is "es", the English template for every other code, and it always contains the enrichment text |
| AIService.Fallback | src/services/AIService.ts:502-514 | the apology is the Spanish one iff the language is "es", else the English one |
| AIService.MapHistory | src/services/AIService.ts:100-112 | history maps user to user and assistant to model, in order; when every turn is a chat turn nothing is dropped |
| AIService.MapHistoryAppend | src/services/AIService.ts:100-112 | history mapping distributes over concatenation |
| AIService.MapHistoryDropsOtherRoles | src/services/AIService.ts:100-112 | a turn with another role contributes nothing |
| AIService.AssembleMessages | src/services/AIService.ts:84-118 | the list has length 3 + the mapped history: the prompt as a user turn, the fixed acknowledgement, the mapped history, then the message with its context |
| AIService.GeneratedText | src/services/AIService.ts:157-173 | the model text is present only for an ok status with a non-empty first candidate text |
| AIService.ActionBlocks | src/services/AIService.ts:418-448 | flight block iff "flight" or "book" occurs; visa block iff "visa" or "immigration" occurs; country block iff a hub country matches, carrying the matched lower-cased alias; blocks come in that order |
| AIService.Augment | src/services/AIService.ts:418-451 | the reply starts with the model text, is unchanged iff nothing triggers, and continues with exactly the triggered blocks |
| AIService.AugmentSuffixIgnoresText | src/services/AIService.ts:418-451 | what is appended depends only on the user's message, not on the model text |
| AIService.GetImmigrationAdvice | src/services/AIService.ts:61-180 | booking intent gives the apology; otherwise document intent gives the visa reply; neither reaches the gateway or the cache. Otherwise the request is the assembled list, a present model text is augmented, and any gateway failure gives the apology |
| AIService.BookingBeforeDocument | src/services/AIService.ts:68-183 | a message with both intents is treated as a booking and ends in the apology |
| AIService.GatewayFailureFallsBack | src/services/AIService.ts:157-179 | a transport failure, a non-ok status, or missing or empty candidates give the apology in the request's language |
| AIService.SuccessKeepsModelText | src/services/AIService.ts:169-175 | a successful call's reply starts with the model text |
| AIService.GenerateBookingLink | src/services/AIService.ts:570-586 | the link starts with the base URL of the request type |
| AIService.ReadQuery | src/services/AIService.ts:581-583 | the appended text reads back as exactly the present fields' name and value pairs, in order |
| AIService.BookingLinkRoundTrip | src/services/AIService.ts:570-586 | after the base URL the link carries from, to (encoded) and date, in that order, each iff the field is non-empty |
| Favorites.Toggle | src/pages/Opportunities.tsx:345-350 | the id's membership flips and no other id's does; an absent id is appended at the end |
| Favorites.ToggleRemoves | src/pages/Opportunities.tsx:347-348 | removing keeps the other ids in order and as often as before |
| Favorites.ToggleKeepsDistinct | src/pages/Opportunities.tsx:345-350 | a list without duplicates stays without duplicates |
| Favorites.ToggleTwice | src/pages/Opportunities.tsx:345-350 | adding an id and then toggling it again restores the list |
| Opportunities.MakeOpportunity | src/pages/Opportunities.tsx:133-216 | item i has id `type-(i+1)` and template i mod 10; it is featured iff i < 3, has difficulty i mod 3, is Remote iff the template country is Global, has the type's duration and a score in 70..99 |
| Opportunities.GenerateMockOpportunities | src/pages/Opportunities.tsx:82-220 | exactly `count` items, item i being the i-th generated one |
| Opportunities.MockOpportunities | src/pages/Opportunities.tsx:224-228 | 300 items: 100 scholarships, then 100 fellowships, then 100 jobs, the first three of each featured |
| Opportunities.MockIdsDistinct | src/pages/Opportunities.tsx:198-228 | the 300 ids are pairwise distinct |
| Opportunities.StagesAreOneFilter | src/pages/Opportunities.tsx:263-275 | the three optional filter stages keep exactly the items passing every active filter, in order |
| Opportunities.InsertOrdered | src/pages/Opportunities.tsx:278-282 | inserting into an ordered list keeps it ordered |
| Opportunities.SortOrdered | src/pages/Opportunities.tsx:278-282 | the sort puts featured items first and otherwise decreasing scores |
| Opportunities.ApplyFilters | src/pages/Opportunities.tsx:262-285 | the result is ordered and is a permutation of exactly the items passing every active filter |
| Opportunities.NoFiltersKeepsAll | src/pages/Opportunities.tsx:262-282 | with every filter set to "all" the result is a permutation of the whole list |
| Opportunities.CountryFilterIgnoresCase | src/pages/Opportunities.tsx:269-271 | the country filter ignores the case of its value |
| Opportunities.HandleApply | src/pages/Opportunities.tsx:299-320 | signed-out users are refused; an empty link is unavailable; a trimmed link starting with http:// or https://, in any case, opens outside; any other link navigates inside, trimmed |
| Language.T | src/contexts/LanguageContext.tsx:115-118 | the current table's non-empty entry, else the English one, else the key itself |
| Language.TablelessIsEnglish | src/contexts/LanguageContext.tsx:116-117 | a language without a table translates as English |
| Language.TablesShareKeys | src/contexts/LanguageContext.tsx:30-90 | the English and Spanish tables have the same keys |
| Language.SpanishCoversEnglish | src/contexts/LanguageContext.tsx:115-118 | every English key has Spanish text under "es" |
| Language.UnknownKeyIsItself | src/contexts/LanguageContext.tsx:117 | a key missing from English is shown as itself |
| Language.CodesDistinct | src/contexts/LanguageContext.tsx:17-28 | ten supported languages with pairwise distinct codes |
| Language.RestoreLanguage | src/contexts/LanguageContext.tsx:97-108 | a saved code that names a supported language selects it; anything else leaves English |
| Language.SetLanguage | src/contexts/LanguageContext.tsx:110-113 | the language becomes current and its code is stored under the language key; other entries are untouched |
| Language.RestoreAfterSet | src/contexts/LanguageContext.tsx:100-113 | after choosing a supported language, restoring from storage selects it again |
| Auth.SelectSessionId | src/contexts/AuthContext.tsx:26-29 | the stored session id when non-empty, else the fresh id |
| Auth.Mount | src/contexts/AuthContext.tsx:31-45 | the session cookie is written; a stored user that parses is signed in; one that does not parse is removed and nobody is signed in |
| Auth.Login | src/contexts/AuthContext.tsx:47-57 | the user carries the given name, email and avatar and the provider's session, and is stored |
| Auth.Logout | src/contexts/AuthContext.tsx:59-63 | nobody is signed in, the stored user is gone, the session and other cookies stay |
| Auth.LoginSurvivesReload | src/contexts/AuthContext.tsx:26-57 | remounting after a login restores the same user in the same session |
| Auth.LogoutSurvivesReload | src/contexts/AuthContext.tsx:26-63 | remounting after a logout signs nobody in and keeps the session |
| Auth.AuthenticatedLifecycle | src/contexts/AuthContext.tsx:36-70 | `isAuthenticated` holds after mounting iff the stored user parses to a user; login sets it and logout clears it |
| Guide.SendText | src/pages/Guide.tsx:128-129 | explicit text is sent untrimmed; otherwise the trimmed input, and nothing when it is blank |
| Guide.NothingSentIffBlank | src/pages/Guide.tsx:128-129 | nothing is sent iff no explicit text is given and the input is blank |
| Guide.HistoryOf | src/pages/Guide.tsx:152-155 | every message but the first, in order, user as "user" and anything else as "assistant" |
| Guide.HistoryFullyForwarded | src/pages/Guide.tsx:152-155 | every history entry reaches the model, since all carry a chat role |
| Guide.Settle | src/pages/Guide.tsx:163-178 | the placeholder is replaced by one assistant message carrying the reply, or the translated error |
| Guide.SendMessage | src/pages/Guide.tsx:127-183 | a send keeps the list as a prefix, adds the user message and the reply, clears the input and updates the service's cache; a blank send changes nothing |
| Guide.SendKeepsNoPlaceholders | src/pages/Guide.tsx:146-178 | after a send no loading placeholder is left |
| Guide.UrlQuery | src/pages/Guide.tsx:63-77 | "visa" and "housing" topics give their queries, topic before country; else a country gives the immigrating query; else nothing |
| Guide.HandleKeyPress | src/pages/Guide.tsx:127-190 | Enter without Shift on a non-blank input adds the trimmed input and a settled reply and empties the box; Enter on a blank input and every other key leave the page unchanged |
| Travel.ApplyServiceParam | src/pages/Travel.tsx:105-110 | the service changes only to one of flights, hotels, transport or shipping |
| Travel.ApplyDestinationParam | src/pages/Travel.tsx:112-114 | a destination sets only the `to` field |
| Travel.HandleSearch | src/pages/Travel.tsx:235-257 | flights give the mock flights, hotels the mock hotels, any other service nothing |
| Travel.StopsLabelRoundTrip | src/pages/Travel.tsx:335 | the stops label reads back as the number of stops |
| Travel.DiscountShowsSaving | src/pages/Travel.tsx:388-390 | a hotel shows a positive saving iff its original price is non-zero and above its price, so every discount on a non-negative price does |
| Travel.MockBadges | src/pages/Travel.tsx:194-233 | the three mock hotels show savings of 40, none, and 70; an original price of 0 prints a bare 0 |
| Travel.MockStayTotals | src/pages/Travel.tsx:759 | the booking summary totals three nights: 540, 360 and 1050 for the three mock hotels |
| Travel.ToggleFavorite | src/pages/Travel.tsx:289-294 | the id's membership flips, no other id's does, nothing else changes |
| Travel.HandleBooking | src/pages/Travel.tsx:259-267 | signed out, nothing changes; signed in, the item is selected and the modal opens |
| Travel.ConfirmBooking | src/pages/Travel.tsx:269-287 | the modal closes, the selection is cleared and searching ends; the service, results, favourites and booking form stay |
| Travel.BookThenConfirm | src/pages/Travel.tsx:259-287 | from a page with the modal closed and nothing selected, booking then confirming returns to that page with the search flag cleared |
| Maps.FilterPlaces | src/pages/Maps.tsx:250-263 | a place is shown iff it is in the category (all for "all") and a non-empty query occurs in its lower-cased name, address or description |
| Maps.FilterPlacesKeepsOrder | src/pages/Maps.tsx:250-263 | the shown places are a subsequence of the table |
| Maps.NoFilterShowsAll | src/pages/Maps.tsx:252-256 | category "all" with no query shows the whole table |
| Maps.QueryIgnoresCase | src/pages/Maps.tsx:256-263 | the query ignores letter case |
| Maps.UpdateMapPlaces | src/pages/Maps.tsx:240-285 | with the map loaded only the shown places change, to exactly the table places in the active category that match the query; without the map nothing changes |
| Maps.MarkerColor | src/pages/Maps.tsx:287-298 | a mapped category gets its colour; anything else gets the grey default |
| Maps.ApplyCategoryParam | src/pages/Maps.tsx:145-150 | the category changes only to the id of a listed category |
| Maps.ApplyUrlParams | src/pages/Maps.tsx:143-155 | the category changes only to a listed id; a non-empty country starts a country search that recentres at zoom 10 on a result; places, query and selection stay |
| Maps.SettleGeocode | src/pages/Maps.tsx:311-351 | a first result recentres at the given zoom and clears loading; a missing library or failed lookup only clears loading; a resolved empty list changes nothing |
| Maps.HandleCountrySearch | src/pages/Maps.tsx:308-352 | a found country recentres the map at zoom 10; loading stays on only when the geocoder resolves with no results |
| Maps.HandleSearch | src/pages/Maps.tsx:354-399 | a blank query changes nothing; otherwise a found place recentres at zoom 15, with the same loading rule |
| Maps.SelectThenClose | src/pages/Maps.tsx:401-428 | selecting a place and closing its details returns to the state before |
| PassportLocator.FilterOffices | src/pages/PassportLocator.tsx:102-105 | an office is listed iff the lower-cased query occurs in its lower-cased state or address |
| PassportLocator.FilterKeepsOrder | src/pages/PassportLocator.tsx:102-105 | the listed offices are a subsequence of the table |
| PassportLocator.EmptyQueryListsAll | src/pages/PassportLocator.tsx:102-105 | the empty query lists every office in table order |
| PassportLocator.HandleViewMap | src/pages/PassportLocator.tsx:107-111 | it navigates iff both coordinates are truthy, to the maps path with lat, lng and the encoded state name |
| PassportLocator.TableFacts | src/pages/PassportLocator.tsx:19-57 | 37 passport offices, each with coordinates and so with a map link |

## Left out

- Network calls are not modelled. These are the model API request, the flight search API and the Google Maps script, map, markers, info window and geocoder. The gateway's and the geocoder's answers are input values.
- The dead booking code is not modelled: `processFlightBooking`, `processHotelBooking`, `searchHotels`, `searchFlights` and `getBookingErrorResponse`. The booking dispatcher is commented out and `handleBookingRequest` always throws.
- `getPersonalizedOpportunities`, `getLocationInfo` and `getVirtualTour` are not modelled. They only forward a prompt to `getImmigrationAdvice` or return canned data.
- Randomness and the clock are inputs. These are opportunity deadlines, match scores (a draw in 0..29), booking references, message ids and timestamps, and fresh user and session ids.
- Timers, promises and React's asynchronous state updates are not modelled. Each handler is one sequential step on the state it reads, so stale closures are not modelled either.
- Cookies and `localStorage` are maps from names to values. Expiry dates are not modelled.
- `JSON.stringify` and `JSON.parse` are inputs. A parsed value other than a user or `null` is not modelled.
- Floating point: ratings and coordinates are exact decimals. Number-to-string formatting is an input. The model request's generation settings are not modelled.
- `encodeURIComponent` is an input function.
- Case mapping is ASCII-only, and regex `\b` looks only at ASCII word characters. This is exact for the `/i` country patterns. It differs from `toLowerCase` on non-ASCII letters.
- Lookups by key use a map of the listed keys. Keys inherited from the object prototype are not modelled: `translations`, the marker colour table, prompts and fallbacks.
- Rendering, styling, animation, toasts, speech and clipboard are not modelled.
- `Opportunities.SortOpportunities`: the ordering and the permutation are proved; stability of the sort is not.
- `Opportunities.ApplyFilters`: when every filter is "all", the source sorts the page's opportunity list itself in place (src/pages/Opportunities.tsx:263, 278). The model returns a sorted copy. The in-place update is not modelled. Because the browser sort is stable, later results come out in the same order either way.
- Opportunity filter fields other than type, country and difficulty are not modelled. They are never read by `applyFilters`.
- The `link` field of opportunities, always `undefined`, is not modelled.
- `Travel.StopsLabel`: stops are a natural number, since the mock data holds none other.
- `AIService.BookingLinkRoundTrip` is stated for encoders that never produce `&` and dates without `&`. `encodeURIComponent` has that property.
- Pages outside the core are not part of this model: home, profile, login, navigation bar, language selector and routing.
- `Maps.HandleSearch` and `Maps.HandleCountrySearch` model `isLoading` staying on when the geocoder resolves "OK" with an empty list. This is exactly what the code does. The geocoder reports that case with a different status, so it is not claimed as a defect.
