/** The repository the screen talks to (`ServiceRepository`): it reads the query with the
    assistant, searches only when both a service and a location are known, ranks what it found
    and words the reply. */
module Repository {
  import opened Models
  import opened Lists
  import opened Assistant
  import ApiClient
  import Catalog

  datatype SearchResult = SearchResult(
    providers: seq<ServiceProvider>,
    aiResponse: string,
    suggestions: seq<string>,
    needsMoreInfo: bool
  )

  datatype ServiceCategory = ServiceCategory(id: string, name: string, description: string)

  /** The ranking preferences: the price level, when one was understood. */
  function Preferences(priceLevel: Option<PriceLevel>): (prefs: map<string, PriceLevel>)
    ensures "priceLevel" in prefs <==> priceLevel.Some?
    ensures priceLevel.Some? ==> prefs["priceLevel"] == priceLevel.value
    ensures forall key :: key in prefs ==> key == "priceLevel"
  {
    if priceLevel.Some? then map["priceLevel" := priceLevel.value] else map[]
  }

  /** A search is made only when the query named a service and a location is known. */
  predicate CanSearch(reading: AIResponse, location: Option<Location>) {
    reading.serviceType.Some? && location.Some?
  }

  /** The result for a query, given the list the provider search returned (`searched`, empty
      when no search was made). */
  function Answer(query: string, location: Option<Location>, searched: seq<ServiceProvider>,
                  floatText: FloatText): SearchResult {
    var reading := Analyse(query, location);
    var recommendations :=
      if searched != [] then GenerateRecommendations(searched, Preferences(reading.priceLevel), query)
      else searched;
    SearchResult(
      providers := recommendations,
      aiResponse := ChatResponse(query, recommendations, location, floatText),
      suggestions := reading.suggestedQuestions,
      needsMoreInfo := !CanSearch(reading, location))
  }

  /** What the provider search of `searchProvidersWithAI` returns: nothing when no search is made,
      otherwise the arranged catalogue hits and stand-ins for the understood service and price. */
  ghost predicate Searched(query: string, location: Option<Location>, distance: ApiClient.DistanceFn,
                           searched: seq<ServiceProvider>, mocks: seq<ServiceProvider>) {
    var reading := Analyse(query, location);
    if CanSearch(reading, location) then
      var hits := ApiClient.CatalogHits(reading.serviceType.value, location.value, distance);
      ApiClient.TopUp(mocks, hits, reading.serviceType.value, location.value, reading.priceLevel) &&
      searched == ApiClient.Arrange(hits + mocks, ApiClient.DefaultRadius, reading.priceLevel)
    else
      searched == [] && mocks == []
  }

  /** `searchProvidersWithAI`. `searched` and `mocks` name the search's list and its generated
      stand-ins. */
  method SearchProvidersWithAI(query: string, location: Option<Location>, conversationHistory: seq<ChatMessage>,
                               distance: ApiClient.DistanceFn, floatText: FloatText)
    returns (result: SearchResult, ghost searched: seq<ServiceProvider>, ghost mocks: seq<ServiceProvider>)
    ensures Searched(query, location, distance, searched, mocks)
    ensures result == Answer(query, location, searched, floatText)
  {
    var aiResponse := ProcessQuery(query, location, conversationHistory);
    var providers: seq<ServiceProvider>;
    if aiResponse.serviceType.Some? && location.Some? {
      providers, mocks := ApiClient.SearchProviders(aiResponse.serviceType.value, location.value,
                                                    aiResponse.priceLevel, distance);
    } else {
      providers := [];
      mocks := [];
    }
    searched := providers;
    var recommendations: seq<ServiceProvider>;
    if providers != [] {
      var preferences := map[];
      if aiResponse.priceLevel.Some? {
        preferences := preferences["priceLevel" := aiResponse.priceLevel.value];
      }
      assert preferences == Preferences(aiResponse.priceLevel);
      recommendations := GenerateRecommendations(providers, preferences, query);
    } else {
      recommendations := providers;
    }
    var responseText := ChatResponse(query, recommendations, location, floatText);
    result := SearchResult(
      providers := recommendations,
      aiResponse := responseText,
      suggestions := aiResponse.suggestedQuestions,
      needsMoreInfo := aiResponse.serviceType.None? || location.None?);
  }

  /** More information is asked for exactly when the query named no service or no location is
      known; then nothing is recommended and the reply is the apology. */
  lemma NeedsMoreInfoCases(query: string, location: Option<Location>, distance: ApiClient.DistanceFn,
                           searched: seq<ServiceProvider>, mocks: seq<ServiceProvider>, floatText: FloatText)
    requires Searched(query, location, distance, searched, mocks)
    ensures var r := Answer(query, location, searched, floatText);
      (r.needsMoreInfo <==> DetectedService(query).None? || location.None?) &&
      (r.needsMoreInfo ==> r.providers == [] && r.aiResponse == NoResultsReply)
  {
    AnalyseServiceAndLocation(query, location);
    var r := Answer(query, location, searched, floatText);
    if r.needsMoreInfo {
      ChatResponseOpening(query, r.providers, location, floatText);
    }
  }

  /** The recommendations are at most ten of the searched providers, best score first under the
      understood price preference, none left out of them (counting copies) outscores one kept, and among equal
      scores the earlier searched providers are the ones kept; the suggestions are the
      assistant's. */
  lemma {:induction false} AnswerRanksSearched(query: string, location: Option<Location>,
                                               searched: seq<ServiceProvider>, floatText: FloatText)
    ensures var r := Answer(query, location, searched, floatText);
      var prefs := Preferences(Analyse(query, location).priceLevel);
      |r.providers| == (if |searched| < 10 then |searched| else 10) &&
      multiset(r.providers) <= multiset(searched) &&
      (forall i, j :: 0 <= i < j < |r.providers| ==> Score(r.providers[i], prefs) >= Score(r.providers[j], prefs)) &&
      (forall p, q :: p in searched && p !in r.providers && q in r.providers ==> Score(p, prefs) <= Score(q, prefs)) &&
      (forall p, q :: multiset(r.providers)[p] < multiset(searched)[p] && q in r.providers ==>
        Score(p, prefs) <= Score(q, prefs)) &&
      (forall k :: WithKey(r.providers, ScoreKey(prefs), k) <= WithKey(searched, ScoreKey(prefs), k)) &&
      r.suggestions == Analyse(query, location).suggestedQuestions
  {
    var prefs := Preferences(Analyse(query, location).priceLevel);
    if searched != [] {
      RecommendationsAreTheBest(searched, prefs, query);
    }
  }

  /** A query that names a service, asked with a known location, is never turned away when the
      catalogue has fewer than three matching records: the stand-ins guarantee at least three
      recommendations and a reply that reports finds. */
  lemma {:induction false} SearchWithFewHitsStillRecommends(query: string, location: Option<Location>,
                                                            distance: ApiClient.DistanceFn,
                                                            searched: seq<ServiceProvider>,
                                                            mocks: seq<ServiceProvider>, floatText: FloatText)
    requires Searched(query, location, distance, searched, mocks)
    requires DetectedService(query).Some? && location.Some?
    requires |ApiClient.CatalogHits(DetectedService(query).value, location.value, distance)| < 3
    ensures |Answer(query, location, searched, floatText).providers| >= 3
    ensures !Answer(query, location, searched, floatText).needsMoreInfo
    ensures "I found " <= Answer(query, location, searched, floatText).aiResponse
  {
    AnalyseServiceAndLocation(query, location);
    var reading := Analyse(query, location);
    var hits := ApiClient.CatalogHits(reading.serviceType.value, location.value, distance);
    ApiClient.SearchKeepsStandIns(hits, mocks, reading.serviceType.value, location.value, reading.priceLevel,
                                  ApiClient.DefaultRadius);
    AnswerRanksSearched(query, location, searched, floatText);
    var r := Answer(query, location, searched, floatText);
    ChatResponseOpening(query, r.providers, location, floatText);
  }

  /** `getProviderDetails`: always found, and always the record with the requested id. */
  function GetProviderDetails(providerId: string): (r: Option<ServiceProvider>)
    ensures r.Some? && r.value.id == providerId
  {
    ApiClient.ProviderDetailsCases(providerId);
    ApiClient.ProviderDetails(providerId)
  }

  /** `searchByCategory`: a provider search within the default radius. */
  method SearchByCategory(category: string, location: Location, priceLevel: Option<PriceLevel>,
                          distance: ApiClient.DistanceFn)
    returns (result: seq<ServiceProvider>, ghost mocks: seq<ServiceProvider>)
    ensures ApiClient.TopUp(mocks, ApiClient.CatalogHits(category, location, distance), category, location, priceLevel)
    ensures result == ApiClient.Arrange(ApiClient.CatalogHits(category, location, distance) + mocks,
                                        ApiClient.DefaultRadius, priceLevel)
  {
    result, mocks := ApiClient.SearchProviders(category, location, priceLevel, distance);
  }

  /** `getPopularCategories`. */
  const PopularCategories: seq<ServiceCategory> := [
    ServiceCategory("plumber", "🔧 Plumbing", "Pipes, leaks, and water systems"),
    ServiceCategory("tutor", "📚 Coaching/Tutoring", "IIT-JEE, NEET, school tuition"),
    ServiceCategory("gym", "💪 Fitness & Gyms", "Gyms, yoga, and personal training"),
    ServiceCategory("electrician", "⚡ Electrical", "Wiring and electrical work"),
    ServiceCategory("repair", "🔨 Repairs", "AC, appliances, and maintenance"),
    ServiceCategory("cleaner", "🧹 Cleaning", "House and office cleaning"),
    ServiceCategory("mechanic", "🚗 Auto Repair", "Car and vehicle service"),
    ServiceCategory("carpenter", "🪚 Carpentry", "Woodwork and furniture"),
    ServiceCategory("painter", "🎨 Painting", "Interior and exterior painting"),
    ServiceCategory("locksmith", "🔐 Locksmith", "Lock and security services")
  ]

  function CategoryIds(cs: seq<ServiceCategory>): (r: seq<string>)
    ensures |r| == |cs| && forall i :: 0 <= i < |cs| ==> r[i] == cs[i].id
  {
    seq(|cs|, i requires 0 <= i < |cs| => cs[i].id)
  }

  /** The popular categories are the assistant's keyword categories, in the same order, each
      once, and each has its own menu of generated services. */
  lemma PopularCategoriesAgree()
    ensures CategoryIds(PopularCategories) == KeywordCategories(ServiceKeywords)
    ensures forall i, j :: 0 <= i < j < |PopularCategories| ==> PopularCategories[i].id != PopularCategories[j].id
    ensures forall c :: c in PopularCategories ==> c.id in ApiClient.ServiceMenus
  {
    assert CategoryIds(PopularCategories) ==
      ["plumber", "tutor", "gym", "electrician", "repair", "cleaner", "mechanic", "carpenter", "painter", "locksmith"];
  }
}
