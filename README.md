# AI Service Agent — a verified model of the search pipeline

AI Service Agent is an Android app that helps a user find local service providers in
Indian cities: plumbers, tutors, gyms and the like. The user sets a location and either
chats with a keyword-driven assistant or picks a category. This project is a Dafny model
of the part of the app that decides what the user sees. It covers:

- **Catalogue** (`Catalog`, catalog.dfy). The built-in table of 24 provider records in seven
  city groups. It chooses a group from free address text (first match, ignoring case),
  filters it by category (ignoring case), lists the categories of a city, and looks records
  up by id.
- **Assistant** (`Assistant`, assistant.dfy). The rule-based assistant `RunAnywhereSDK`:
  - detects intent from priority-ordered word groups;
  - detects the service category from a keyword table, where the last match wins;
  - detects the price tier from priority-ordered word groups;
  - generates follow-up suggestions;
  - scores providers and keeps the ten best;
  - words the chat reply in one of three ways.
- **Provider search** (`ApiClient`, api_client.dfy). `ServiceApiClient`:
  - takes the catalogue hits at their recomputed distance;
  - tops them up with generated stand-in providers when fewer than three hits are found;
  - filters by radius and price and sorts nearest first;
  - returns detail records, with a placeholder when the id is unknown.
- **Repository** (`Repository`, repository.dfy). `ServiceRepository`, which chains the steps:
  read the query, search only when both a service and a location are known, rank, and
  word the reply. It also holds the ten popular categories.
- **View model** (`ViewModel`, view_model.dfy). The screen state holder `ServiceViewModel`,
  as a Dafny class with the fields the Kotlin class updates: the chat transcript, the
  providers on show, the location, the selected provider, the filters and the UI state.
- **City picker** (`CityPicker`, city_picker.dfy). The 63-city table of the location
  screen, its search filter, and how a picked or typed city becomes a `Location`.
- **City facts** (`CityFacts`, city_facts.dfy). Facts about the concrete city table.
  Searching for "Rajasthan" lists exactly the ten Rajasthan cities. Picking one of the
  seven catalogue cities selects that city's provider group.

Shared pieces:

- models.dfy: the records (`ServiceProvider`, `PriceLevel`, `Location`, `ChatMessage`).
- text.dfy: ASCII lower-casing, substring search, blank test, decimal text.
- lists.dfy: the stable sorts that model Kotlin `sortedBy`/`sortedByDescending`, plus `take`,
  subsequences and `distinct`.
- random.dfy: Kotlin's random numbers, random UUIDs and the clock, as nondeterministic
  methods whose contracts say only what the library guarantees.

Ratings, distances and scores are `real`. The haversine distance is a function parameter
(`ApiClient.DistanceFn`), and so is Kotlin's `Float.toString` (`Assistant.FloatText`). The
view model holds both as constants. Each coroutine the view model launches is modelled as
running to completion inside the call that launches it.

Three facts about the code that the model relies on:
- Stand-in ratings are `nextFloat() * 2 + 3`. In exact arithmetic they lie in [3, 5); with
  Float rounding the largest `nextFloat()` values give exactly 5.0, which the exact-real model
  does not reproduce.
- `getAvailableCategories` returns a list (the output of `distinct()`), in first-appearance
  order.
- Nothing is assumed about the distance function (symmetry, zero at equal points), because
  the provider search never relies on it.

## Model

| member | source | states |
|---|---|---|
| Catalog.CityProvidersIsFirstMatch | app/src/main/java/com/example/myapplication/data/IndianServiceProvidersData.kt:509-518 | The group of city i (Jaipur, Kota, Ajmer, Bundi, Delhi, Mumbai, Bangalore, in that order) is chosen exactly when city i's name occurs in the text ignoring case and no earlier city's name does; no group is chosen when no name occurs |
| Catalog.FilterCategory | app/src/main/java/com/example/myapplication/data/IndianServiceProvidersData.kt:521 | The filtered list is an order-preserving sublist of the input, and a record is in it iff it is in the input with a category equal to the requested one, ignoring case |
| Catalog.FilterCategoryCounts | app/src/main/java/com/example/myapplication/data/IndianServiceProvidersData.kt:521 | Each record of the requested category is kept as many times as the input holds it; every other record is dropped |
| Catalog.ProvidersByLocation | app/src/main/java/com/example/myapplication/data/IndianServiceProvidersData.kt:505-525 | The result is an order-preserving sublist of the chosen city group; a record is in it iff it is in the group and, when a category is given, matches it ignoring case; with no category it is the whole group |
| Catalog.AvailableCategories | app/src/main/java/com/example/myapplication/data/IndianServiceProvidersData.kt:530-534 | A category is listed iff some record of the city group has it, and no category is listed twice |
| Catalog.AvailableCategoriesOrder | app/src/main/java/com/example/myapplication/data/IndianServiceProvidersData.kt:530-534 | The listed categories are exactly the group's categories, in the order of their first appearance in the group |
| Catalog.KotaCategories | app/src/main/java/com/example/myapplication/data/IndianServiceProvidersData.kt:115-216 | The categories of the Kota group are exactly tutor, gym, plumber, in order of first appearance |
| Catalog.FindById | app/src/main/java/com/example/myapplication/data/IndianServiceProvidersData.kt:542 | The result is nothing iff no record has the id; otherwise it is the record at the first position holding the id |
| Catalog.ProviderByIdFindsRecord | app/src/main/java/com/example/myapplication/data/IndianServiceProvidersData.kt:539-543 | The lookup scans the same concatenation `getAllProviders` returns; it succeeds iff the id is one of the catalogue ids, and the id of any catalogue record yields that record |
| Catalog.AllProviders | app/src/main/java/com/example/myapplication/data/IndianServiceProvidersData.kt:548-551 | The whole catalogue holds 24 records |
| Catalog.CatalogIdsDistinct | app/src/main/java/com/example/myapplication/data/IndianServiceProvidersData.kt:13-500 | No two catalogue records share an id |
| Catalog.CatalogCategories | app/src/main/java/com/example/myapplication/data/IndianServiceProvidersData.kt:13-500 | Every catalogue record is a plumber, a tutor or a gym |
| Catalog.CatalogRatings | app/src/main/java/com/example/myapplication/data/IndianServiceProvidersData.kt:13-500 | Every catalogue record is rated between 0 and 5 stars |
| Catalog.CityProvidersInCatalog | app/src/main/java/com/example/myapplication/data/IndianServiceProvidersData.kt:509-518 | Whatever the text, the records of the chosen group are catalogue records |
| Assistant.ExtractIntent | app/src/main/java/com/example/myapplication/data/api/RunAnywhereSDK.kt:122-133 | The intent is one of search, booking, compare and help; booking, compare and help are each chosen iff their words occur in the lower-cased query and no higher-priority group's words do; search is chosen otherwise |
| Assistant.IntentIgnoresCase | app/src/main/java/com/example/myapplication/data/api/RunAnywhereSDK.kt:122-123 | Two queries with the same lower-case form have the same intent |
| Assistant.NeedToBookIsSearch | app/src/main/java/com/example/myapplication/data/api/RunAnywhereSDK.kt:124-128 | "I need to book" is a search, because search words outrank booking words |
| Assistant.ShowMeIsHelp | app/src/main/java/com/example/myapplication/data/api/RunAnywhereSDK.kt:124-131 | "show me a plumber" is read as a request for help, because "how" occurs inside "show" |
| Assistant.LastMatch | app/src/main/java/com/example/myapplication/data/api/RunAnywhereSDK.kt:140-144 | No category is found iff no entry's keyword occurs in the query; a found category belongs to a matching entry after which no entry matches (the last match wins) |
| Assistant.DetectedService | app/src/main/java/com/example/myapplication/data/api/RunAnywhereSDK.kt:137-144 | A detected service is always one of the keyword table's categories |
| Assistant.CoachingReadsAsRepair | app/src/main/java/com/example/myapplication/data/api/RunAnywhereSDK.kt:140-144 | "iit coaching" is detected as repair, not tutor: "ac" is a repair keyword and the repair entry comes later in the table |
| Assistant.DetectedPrice | app/src/main/java/com/example/myapplication/data/api/RunAnywhereSDK.kt:147-155 | The tag is cheap iff a cheap word occurs; premium iff no cheap word but a premium word (including "best") occurs; mediocre iff only a medium word occurs; absent iff none does |
| Assistant.ParametersShape | app/src/main/java/com/example/myapplication/data/api/RunAnywhereSDK.kt:135-158 | The parameter map has no keys other than serviceType and priceLevel; each key is present iff its value was detected, and it holds the detected value; a price tag is always cheap, premium or mediocre |
| Assistant.ExtractParameters | app/src/main/java/com/example/myapplication/data/api/RunAnywhereSDK.kt:135-158 | The map built holds "serviceType" for the last keyword category the query matches and "priceLevel" for the price tag the `when` block picks, each only when found |
| Assistant.ScanServiceKeywords | app/src/main/java/com/example/myapplication/data/api/RunAnywhereSDK.kt:139-144 | The loop that overwrites serviceType for every matching table entry ends holding exactly the last matching entry's category, or no key when none matches |
| Assistant.PriceFromTag | app/src/main/java/com/example/myapplication/data/api/RunAnywhereSDK.kt:37-44 | A tag maps to Cheap, Mediocre or Premium exactly when its lower-case form is one of that level's three tags |
| Assistant.AnalysePrice | app/src/main/java/com/example/myapplication/data/api/RunAnywhereSDK.kt:37-44 | The reported price level is Cheap, Premium or Mediocre exactly under the priority rules of price detection, and absent iff no price word occurs; every tag the parameters can hold is understood |
| Assistant.AnalyseServiceAndLocation | app/src/main/java/com/example/myapplication/data/api/RunAnywhereSDK.kt:31-47 | The reading's service type is the detected service, its intent the extracted intent, and its location the one passed in |
| Assistant.ProcessQuery | app/src/main/java/com/example/myapplication/data/api/RunAnywhereSDK.kt:24-48 | The assistant's reading is the intent, the parameters with the price tag mapped to a level, confidence 0.95, and the suggestions for them |
| Assistant.SuggestionsCases | app/src/main/java/com/example/myapplication/data/api/RunAnywhereSDK.kt:160-184 | The suggestions hold 1, 3 or 4 entries and are never empty; each question appears exactly under its own rule; the starter questions appear exactly when no rule applies |
| Assistant.GenerateSuggestions | app/src/main/java/com/example/myapplication/data/api/RunAnywhereSDK.kt:160-184 | The list built by appending question by question equals the suggestions the rules describe |
| Assistant.ScoreBounds | app/src/main/java/com/example/myapplication/data/api/RunAnywhereSDK.kt:71-90 | For a rating in [0, 5] and a non-negative distance and review count, the score lies in [0, 205] |
| Assistant.ScoreRewards | app/src/main/java/com/example/myapplication/data/api/RunAnywhereSDK.kt:71-90 | A higher rating, or a distance that is smaller and under 10 km, strictly raises the score; verification adds exactly 15; a price match adds exactly 30 |
| Assistant.RecommendationsAreTheBest | app/src/main/java/com/example/myapplication/data/api/RunAnywhereSDK.kt:64-92 | The recommendations number min(n, 10), are a sub-multiset of the input, and are in non-increasing score order; no provider left out, counting copies of the same record, scores above one that was kept; among providers with equal scores, the kept ones are the first in input order (the sort is stable) |
| Assistant.ChatResponseOpening | app/src/main/java/com/example/myapplication/data/api/RunAnywhereSDK.kt:102-106 | The reply to an empty list is the fixed apology; any other reply opens with "I found " |
| Assistant.ChatResponseNamesSingleFind | app/src/main/java/com/example/myapplication/data/api/RunAnywhereSDK.kt:107-111 | The reply to a single find contains its name, its lower-case price level and its distance to one decimal |
| Assistant.ChatResponseSummarisesFinds | app/src/main/java/com/example/myapplication/data/api/RunAnywhereSDK.kt:112-118 | The reply to several finds contains their count, their average rating to one decimal and the first one's distance to one decimal |
| Text.RoundTenths | app/src/main/java/com/example/myapplication/data/api/RunAnywhereSDK.kt:110 | `%.1f` rounds to the nearest tenth: the count of tenths is within half a tenth of the value |
| Text.TenthsTextValue | app/src/main/java/com/example/myapplication/data/api/RunAnywhereSDK.kt:115-116 | The one-decimal text is all digits around its point, and reading them back gives the count of tenths |
| ApiClient.WithDistance | app/src/main/java/com/example/myapplication/data/api/ServiceApiClient.kt:43-49 | Each hit is its catalogue record with only the distance replaced, by the distance from the query coordinates to the record's coordinates |
| ApiClient.CatalogHitsAreCatalogueRecords | app/src/main/java/com/example/myapplication/data/api/ServiceApiClient.kt:37-49 | Every hit is a catalogue record, apart from its distance, and has the requested category ignoring case |
| ApiClient.FilterKept | app/src/main/java/com/example/myapplication/data/api/ServiceApiClient.kt:59-61 | The kept list is an order-preserving sublist of the input, and a provider is in it iff it is in the input, within the radius and, when a price level is given, at that level |
| ApiClient.FilterKeptCounts | app/src/main/java/com/example/myapplication/data/api/ServiceApiClient.kt:59-61 | Each provider that passes the radius and price test is kept as many times as the input holds it; every other provider is dropped |
| ApiClient.ArrangeCorrect | app/src/main/java/com/example/myapplication/data/api/ServiceApiClient.kt:59-62 | The search result is sorted nearest first; it is a permutation of the kept providers, holding each provider that passes the filter as often as the pool does and no other; none is beyond the radius; providers at equal distance keep their order in the pool (the sort is stable) |
| ApiClient.ProviderNameEndsInPosition | app/src/main/java/com/example/myapplication/data/api/ServiceApiClient.kt:210-214 | A stand-in's name ends in a space and its one-based position in decimal |
| ApiClient.GenerateProviderName | app/src/main/java/com/example/myapplication/data/api/ServiceApiClient.kt:210-214 | The name is one of the six prefixes, the capitalised service type, one of the five suffixes and the one-based position |
| ApiClient.GenerateAddress | app/src/main/java/com/example/myapplication/data/api/ServiceApiClient.kt:216-220 | The address is a house number in [100, 9999) and one of the five streets |
| ApiClient.QualityDistinguishesLevels | app/src/main/java/com/example/myapplication/data/api/ServiceApiClient.kt:233-237 | Different price levels get different quality phrases |
| ApiClient.DescriptionMentions | app/src/main/java/com/example/myapplication/data/api/ServiceApiClient.kt:231-239 | The description names the service type, the years of experience and the price level's quality phrase |
| ApiClient.GenerateDescription | app/src/main/java/com/example/myapplication/data/api/ServiceApiClient.kt:231-239 | The description is the template for some experience in [5, 30) years |
| ApiClient.GenerateServicesCases | app/src/main/java/com/example/myapplication/data/api/ServiceApiClient.kt:252-277 | A service type whose lower-case form is one of the ten keys gets that key's four- or five-item menu; any other type gets the two-item general menu |
| ApiClient.MakeStandIn | app/src/main/java/com/example/myapplication/data/api/ServiceApiClient.kt:118-141 | A stand-in has the requested category and price level, rating in [3, 5), reviews in [10, 500), distance in [0.5, 15), coordinates within [-0.1, 0.1) of the location, founding year in [1990, 2023), the generated name, description and menu |
| ApiClient.GetMockProviders | app/src/main/java/com/example/myapplication/data/api/ServiceApiClient.kt:109-145 | Exactly `count` stand-ins (none for a negative count), the one at position i named for position i |
| ApiClient.StandInKept | app/src/main/java/com/example/myapplication/data/api/ServiceApiClient.kt:117-139 | A stand-in always passes the filter for a radius of 15 km or more |
| ApiClient.SearchProviders | app/src/main/java/com/example/myapplication/data/api/ServiceApiClient.kt:27-68 | There are no stand-ins when three or more catalogue hits are found, otherwise 5 - k of them; the result is the pool of hits and stand-ins, filtered and sorted nearest first |
| ApiClient.SearchKeepsStandIns | app/src/main/java/com/example/myapplication/data/api/ServiceApiClient.kt:54-62 | With k < 3 hits and a radius of 15 km or more, every stand-in survives, so the result holds at least 5 - k providers |
| ApiClient.MockProviderDetails | app/src/main/java/com/example/myapplication/data/api/ServiceApiClient.kt:147-167 | The placeholder record carries the requested id |
| ApiClient.ProviderDetailsCases | app/src/main/java/com/example/myapplication/data/api/ServiceApiClient.kt:73-83 | Details are always found and carry the requested id; a catalogue id yields its record, any other id the placeholder |
| Repository.Preferences | app/src/main/java/com/example/myapplication/data/repository/ServiceRepository.kt:43-44 | The preference map holds the key priceLevel iff a price level was understood, with that level as its value, and no other key |
| Repository.SearchProvidersWithAI | app/src/main/java/com/example/myapplication/data/repository/ServiceRepository.kt:22-59 | The providers are searched only when a service and a location are known, otherwise the list is empty; the result ranks a non-empty list, words the reply on the ranked list, passes the suggestions through, and sets needsMoreInfo |
| Repository.NeedsMoreInfoCases | app/src/main/java/com/example/myapplication/data/repository/ServiceRepository.kt:31-57 | More information is needed iff the query names no service or no location is set; then nothing is recommended and the reply is the apology |
| Repository.AnswerRanksSearched | app/src/main/java/com/example/myapplication/data/repository/ServiceRepository.kt:42-56 | The result holds min(n, 10) of the searched providers, best score first under the understood price; none left out, counting copies of the same record, outscores one kept; among equal scores the earlier searched providers are kept; the suggestions are the assistant's |
| Repository.SearchWithFewHitsStillRecommends | app/src/main/java/com/example/myapplication/data/repository/ServiceRepository.kt:31-51 | A query naming a service, with a location set and fewer than three catalogue hits, gets at least three recommendations, needs no more information and a reply that opens with "I found " |
| Repository.GetProviderDetails | app/src/main/java/com/example/myapplication/data/repository/ServiceRepository.kt:64-66 | Details are always found and carry the requested id |
| Repository.SearchByCategory | app/src/main/java/com/example/myapplication/data/repository/ServiceRepository.kt:71-77 | A category search is the provider search with the default 50 km radius |
| Repository.PopularCategoriesAgree | app/src/main/java/com/example/myapplication/data/repository/ServiceRepository.kt:82-95 | The ten popular category ids are the keyword table's categories in the same order, all distinct, and each has its own generated menu |
| ViewModel.LocationSetText | app/src/main/java/com/example/myapplication/ui/viewmodel/ServiceViewModel.kt:65-66 | The confirmation names the address that was set |
| ViewModel.ShownProviders | app/src/main/java/com/example/myapplication/ui/viewmodel/ServiceViewModel.kt:111 | A reply bubble carries no providers for an empty result, otherwise 1 to 3 providers taken from the front of the result; all of them when there are at most 3 |
| ViewModel.SearchOutcome | app/src/main/java/com/example/myapplication/ui/viewmodel/ServiceViewModel.kt:116-122 | The state is Success with the providers iff there are providers; NeedsMoreInfo iff there are none and more information is needed; NoResults iff there are none and none is needed |
| ViewModel.CategoryOutcome | app/src/main/java/com/example/myapplication/ui/viewmodel/ServiceViewModel.kt:153-157 | The state is Success with the providers iff any were found, NoResults otherwise |
| ViewModel.ListOfNotNull | app/src/main/java/com/example/myapplication/ui/viewmodel/ServiceViewModel.kt:174 | The list is empty for no value and the one value otherwise |
| ViewModel.ChatOutcome | app/src/main/java/com/example/myapplication/ui/viewmodel/ServiceViewModel.kt:96-122 | A chat query ends in NeedsMoreInfo iff it names no service or no location is set; with a service, a location and fewer than three catalogue hits it ends in Success with at least three providers |
| ViewModel.CategoryOutcomeWithFewHits | app/src/main/java/com/example/myapplication/ui/viewmodel/ServiceViewModel.kt:151-157 | A category search with fewer than three catalogue hits ends in Success with at least three providers |
| ViewModel.ServiceViewModel.constructor | app/src/main/java/com/example/myapplication/ui/viewmodel/ServiceViewModel.kt:23-57 | The state is Initial, the transcript holds exactly the welcome message, and nothing is on show, located, selected or filtered |
| ViewModel.ServiceViewModel.AddBotMessage | app/src/main/java/com/example/myapplication/ui/viewmodel/ServiceViewModel.kt:204-213 | Exactly one assistant bubble with the text and suggestions is appended, and nothing else changes |
| ViewModel.ServiceViewModel.SetLocation | app/src/main/java/com/example/myapplication/ui/viewmodel/ServiceViewModel.kt:62-74 | The location is stored and exactly one confirmation bubble naming it is appended; nothing else changes |
| ViewModel.ServiceViewModel.SendMessage | app/src/main/java/com/example/myapplication/ui/viewmodel/ServiceViewModel.kt:79-132 | A blank message changes nothing; otherwise the user's bubble and the reply bubble (at most three providers) are appended, the repository's providers go on show, and the state follows SearchOutcome; location, selection and filters are unchanged |
| ViewModel.ServiceViewModel.AddUserMessage | app/src/main/java/com/example/myapplication/ui/viewmodel/ServiceViewModel.kt:83-89 | Exactly one user bubble with the message is appended, and nothing else changes |
| ViewModel.ServiceViewModel.ShowAnswer | app/src/main/java/com/example/myapplication/ui/viewmodel/ServiceViewModel.kt:103-122 | Exactly one reply bubble is appended; the result's providers go on show; the state follows SearchOutcome |
| ViewModel.ServiceViewModel.SearchByCategory | app/src/main/java/com/example/myapplication/ui/viewmodel/ServiceViewModel.kt:137-162 | The category and price filters are recorded first; with no location the state is the location error and the providers stay as they were; otherwise the search result goes on show and the state follows CategoryOutcome |
| ViewModel.ServiceViewModel.LoadProviderDetails | app/src/main/java/com/example/myapplication/ui/viewmodel/ServiceViewModel.kt:167-179 | The provider with the id is selected and shown alone as a Success |
| ViewModel.ServiceViewModel.SetPriceLevel | app/src/main/java/com/example/myapplication/ui/viewmodel/ServiceViewModel.kt:184-189 | The price filter is recorded; the selected category is searched again only when one is selected, and otherwise nothing else changes |
| ViewModel.ServiceViewModel.ClearFilters | app/src/main/java/com/example/myapplication/ui/viewmodel/ServiceViewModel.kt:194-197 | Both the category and the price filter are cleared, and nothing else changes |
| ViewModel.ServiceViewModel.PopularCategories | app/src/main/java/com/example/myapplication/ui/viewmodel/ServiceViewModel.kt:202 | The screen's categories are the repository's ten popular categories |
| CityPicker.FilterCities | app/src/main/java/com/example/myapplication/ui/screens/LocationScreen.kt:147-150 | The filtered list is an order-preserving sublist of the input, and a city is in it iff it is in the input and its name or state contains the query, ignoring case |
| CityPicker.FilterCitiesCounts | app/src/main/java/com/example/myapplication/ui/screens/LocationScreen.kt:147-150 | Each matching city is kept as many times as the input holds it; every other city is dropped |
| CityPicker.FilteredCities | app/src/main/java/com/example/myapplication/ui/screens/LocationScreen.kt:143-152 | A blank query lists the whole table unchanged; any other query lists an order-preserving sublist of it holding exactly the matching cities |
| CityPicker.CityLocation | app/src/main/java/com/example/myapplication/ui/screens/LocationScreen.kt:316-321 | A picked city gives its own coordinates and an address that starts with "name, ", contains the state and ends with ", India" |
| CityPicker.ManualLocation | app/src/main/java/com/example/myapplication/ui/screens/LocationScreen.kt:396-403 | A typed address is accepted iff it is not blank, and then it is taken as typed at (28.6139, 77.2090) |
| Text.SeparatorsAreBlank | app/src/main/java/com/example/myapplication/ui/screens/LocationScreen.kt:397 | Blankness follows Kotlin's whitespace test: the separators U+001C to U+001F and the no-break and ideographic spaces are blank; the next-line control and the zero-width space are not |
| CityPicker.ManualEntryIsPlacedAtNewDelhi | app/src/main/java/com/example/myapplication/ui/screens/LocationScreen.kt:399-402 | A typed address is placed at the coordinates of New Delhi's entry in the city table |
| CityFacts.RajasthanQuery | app/src/main/java/com/example/myapplication/ui/screens/LocationScreen.kt:143-152 | Searching for "Rajasthan" lists exactly the ten Rajasthan cities, in table order |
| CityFacts.PickedCatalogueCitiesRoute | app/src/main/java/com/example/myapplication/ui/screens/LocationScreen.kt:316-321 | Each of the seven catalogue cities is in the picker's table, and picking it sets an address from which the catalogue chooses exactly that city's provider group |

## Left out

- The haversine `calculateDistance` (ServiceApiClient.kt:88-104) is floating-point trigonometry. It is the parameter `ApiClient.DistanceFn`, and no numeric fact about it is assumed.
- Float/Double arithmetic is modelled as exact `real` arithmetic: ratings, distances, the score, the average rating and the 0.95 confidence. One visible effect: a stand-in rating is always below 5.0 in the model (`ApiClient.IsStandIn`), while Float rounding of `nextFloat() * 2 + 3` can give exactly 5.0.
- Kotlin `Float.toString` for the rating in the single-find reply is the parameter `Assistant.FloatText`.
- `String.format("%.1f")` is modelled as round-half-up to one decimal with a point separator. The device locale's decimal separator is not modelled.
- Lower-casing, `contains(ignoreCase = true)` and `equals(ignoreCase = true)` fold only the ASCII letters A to Z. `capitalize()` upper-cases the first character by ASCII letters only, where Kotlin uses title case and the locale. `isBlank` uses Kotlin's full whitespace set (`Text.IsWhitespace`).
- The `catch` branches of `searchProviders`, `getProviderDetails`, `processQuery` and the view-model coroutines are not modelled. No operation of the model can fail: the catalogue, the generators and the parameters are total.
- `Log.e` is logging only.
- Coroutines (`withContext`, `viewModelScope.launch`) and `StateFlow` publication are not modelled, because each launched job runs to completion inside the launching call. The transient `Loading` state is therefore never observable after a call returns, and interleavings of several jobs are not modelled.
- `scrapeWebProviders` (ServiceApiClient.kt:173-206) is a stub that returns an empty list and is never called.
- The `phone`, `availability` and `imageUrl` fields are display-only, and so are `generatePhoneNumber` and `generateAvailability`. Each is left out of the records.
- Stand-in ids (`UUID.randomUUID`) and message timestamps (`System.currentTimeMillis`) are unconstrained nondeterministic values.
- `conversationHistory` (processQuery) and `query` (generateRecommendations) are accepted and not consulted, as in the source. This is why `ViewModel.ServiceViewModel.SendMessage` states nothing about which history it passes.
- The `apiKey` and `Context` of `RunAnywhereSDK` are unused.
- The Compose screens, permissions and navigation are not modelled: DashboardScreen.kt, ProviderDetailsScreen.kt, MainActivity.kt, and everything in LocationScreen.kt beyond the city table, its filter and the two ways of building a `Location`.
- CityFacts.PickedCatalogueCitiesRoute: covers the seven cities the catalogue holds. For the other 56 picker cities, which group they select (often none) is left to `Catalog.CityProvidersIsFirstMatch`.
- Assistant.ChatResponseNamesSingleFind: states the reply's contents as containment facts. The exact full reply text is `Assistant.ChatResponse`'s definition.
- BookingRequest (ServiceProvider.kt:51-57) is not used by any modelled operation.
