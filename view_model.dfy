/** The screen state holder (`ServiceViewModel`): the chat transcript, the providers on show,
    the user's location and filters, and the state the screen renders. Each launched coroutine
    is modelled as running to completion inside the call that launches it. */
module ViewModel {
  import opened Models
  import opened Text
  import opened Lists
  import Random
  import Assistant
  import ApiClient
  import Repository

  /** What the screen shows. */
  datatype UIState =
    | Initial
    | Loading
    | NeedsMoreInfo
    | NoResults
    | Success(providers: seq<ServiceProvider>)
    | Error(message: string)

  const WelcomeText: string :=
    "👋 Namaste! I'm your AI assistant for finding local service providers across India. " +
    "I can help you find services in cities like Jaipur, Kota, Delhi, Mumbai, Bangalore, and many more. " +
    "First, please set your location to get started."

  const WelcomeSuggestions: seq<string> := ["Set my location", "Browse Indian cities"]

  const LocationSuggestions: seq<string> := [
    "Find a plumber near me",
    "Show me coaching institutes",
    "I need a gym membership",
    "Find electricians nearby"
  ]

  const LocationFirstText: string := "Please set your location first"

  /** The confirmation sent when a location is set; it names the address. */
  function LocationSetText(address: string): (r: string)
    ensures Contains(r, address)
  {
    ContainsMiddle("Great! I've set your location to ", address, ". What kind of service are you looking for?");
    "Great! I've set your location to " + address + ". What kind of service are you looking for?"
  }

  predicate IsUserMessage(m: ChatMessage, text: string) {
    m.isUser && m.text == text && m.providers.None? && m.suggestions.None?
  }

  predicate IsBotMessage(m: ChatMessage, text: string, providers: Option<seq<ServiceProvider>>,
                         suggestions: Option<seq<string>>) {
    !m.isUser && m.text == text && m.providers == providers && m.suggestions == suggestions
  }

  /** The providers a reply bubble carries: none for an empty result, else the first three. */
  function ShownProviders(ps: seq<ServiceProvider>): (r: Option<seq<ServiceProvider>>)
    ensures r.None? <==> ps == []
    ensures r.Some? ==> 1 <= |r.value| <= 3 && r.value <= ps
    ensures r.Some? && |ps| <= 3 ==> r.value == ps
  {
    if ps != [] then Some(Take(ps, 3)) else None
  }

  /** The screen state after a chat search. */
  function SearchOutcome(result: Repository.SearchResult): (s: UIState)
    ensures s.Success? <==> result.providers != []
    ensures s.Success? ==> s.providers == result.providers
    ensures s == NeedsMoreInfo <==> result.providers == [] && result.needsMoreInfo
    ensures s == NoResults <==> result.providers == [] && !result.needsMoreInfo
  {
    if result.providers != [] then Success(result.providers)
    else if result.needsMoreInfo then NeedsMoreInfo
    else NoResults
  }

  /** The screen state after a category search. */
  function CategoryOutcome(found: seq<ServiceProvider>): (s: UIState)
    ensures s.Success? <==> found != []
    ensures s.Success? ==> s.providers == found
    ensures !s.Success? ==> s == NoResults
  {
    if found != [] then Success(found) else NoResults
  }

  /** Kotlin `listOfNotNull`. */
  function ListOfNotNull<T>(o: Option<T>): (r: seq<T>)
    ensures o.None? ==> r == []
    ensures o.Some? ==> r == [o.value]
  {
    if o.Some? then [o.value] else []
  }

  /** A chat query ends in "needs more info" exactly when it names no service or no location is
      set, and a query naming a service with a location set and fewer than three catalogue hits
      always ends in success. */
  lemma {:induction false} ChatOutcome(query: string, location: Option<Location>, distance: ApiClient.DistanceFn,
                                       searched: seq<ServiceProvider>, mocks: seq<ServiceProvider>,
                                       floatText: Assistant.FloatText)
    requires Repository.Searched(query, location, distance, searched, mocks)
    ensures var s := SearchOutcome(Repository.Answer(query, location, searched, floatText));
      (s == NeedsMoreInfo <==> Assistant.DetectedService(query).None? || location.None?) &&
      (Assistant.DetectedService(query).Some? && location.Some? &&
       |ApiClient.CatalogHits(Assistant.DetectedService(query).value, location.value, distance)| < 3
       ==> s.Success? && |s.providers| >= 3)
  {
    Repository.NeedsMoreInfoCases(query, location, distance, searched, mocks, floatText);
    if Assistant.DetectedService(query).Some? && location.Some? &&
       |ApiClient.CatalogHits(Assistant.DetectedService(query).value, location.value, distance)| < 3 {
      Repository.SearchWithFewHitsStillRecommends(query, location, distance, searched, mocks, floatText);
    }
  }

  /** A category search with a location set and fewer than three catalogue hits always shows at
      least three providers. */
  lemma {:induction false} CategoryOutcomeWithFewHits(category: string, location: Location,
                                                      priceLevel: Option<PriceLevel>, distance: ApiClient.DistanceFn,
                                                      mocks: seq<ServiceProvider>)
    requires ApiClient.TopUp(mocks, ApiClient.CatalogHits(category, location, distance), category, location, priceLevel)
    requires |ApiClient.CatalogHits(category, location, distance)| < 3
    ensures var s := CategoryOutcome(ApiClient.Arrange(ApiClient.CatalogHits(category, location, distance) + mocks,
                                                       ApiClient.DefaultRadius, priceLevel));
      s.Success? && |s.providers| >= 3
  {
    ApiClient.SearchKeepsStandIns(ApiClient.CatalogHits(category, location, distance), mocks, category, location,
                                  priceLevel, ApiClient.DefaultRadius);
  }

  class ServiceViewModel {
    var uiState: UIState
    var chatMessages: seq<ChatMessage>
    var providers: seq<ServiceProvider>
    var currentLocation: Option<Location>
    var selectedProvider: Option<ServiceProvider>
    var selectedPriceLevel: Option<PriceLevel>
    var selectedCategory: Option<string>
    /** The great-circle distance the provider search uses. */
    const distance: ApiClient.DistanceFn
    /** How the reply renders a Float. */
    const floatText: Assistant.FloatText

    /** The transcript opens with the welcome, a bubble never carries more than three providers
        (nor an empty list), and a success state always has something to show. */
    predicate Valid()
      reads this
    {
      |chatMessages| > 0 &&
      IsBotMessage(chatMessages[0], WelcomeText, None, Some(WelcomeSuggestions)) &&
      (forall m :: m in chatMessages && m.providers.Some? ==> 1 <= |m.providers.value| <= 3) &&
      (uiState.Success? ==> uiState.providers != [])
    }

    /** The state after `searchByCategory(category, priceLevel)` ran with `location` set as the
        current location and `previous` on show. */
    ghost predicate CategorySearched(location: Option<Location>, previous: seq<ServiceProvider>, category: string,
                                     priceLevel: Option<PriceLevel>, mocks: seq<ServiceProvider>)
      reads this
    {
      selectedCategory == Some(category) && selectedPriceLevel == priceLevel && currentLocation == location &&
      if location.None? then
        uiState == Error(LocationFirstText) && providers == previous && mocks == []
      else
        var hits := ApiClient.CatalogHits(category, location.value, distance);
        var found := ApiClient.Arrange(hits + mocks, ApiClient.DefaultRadius, priceLevel);
        ApiClient.TopUp(mocks, hits, category, location.value, priceLevel) &&
        providers == found && uiState == CategoryOutcome(found)
    }

    /** The `init` block: an empty screen and the welcome message. */
    constructor (distance: ApiClient.DistanceFn, floatText: Assistant.FloatText)
      ensures Valid()
      ensures this.distance == distance && this.floatText == floatText
      ensures uiState == Initial && |chatMessages| == 1 && providers == []
      ensures currentLocation.None? && selectedProvider.None?
      ensures selectedPriceLevel.None? && selectedCategory.None?
    {
      this.distance := distance;
      this.floatText := floatText;
      uiState := Initial;
      chatMessages := [];
      providers := [];
      currentLocation := None;
      selectedProvider := None;
      selectedPriceLevel := None;
      selectedCategory := None;
      new;
      AddBotMessage(WelcomeText, WelcomeSuggestions);
    }

    /** `addBotMessage`: appends one assistant bubble with the given suggestions. */
    method AddBotMessage(text: string, suggestions: seq<string>)
      modifies this
      ensures |chatMessages| == |old(chatMessages)| + 1 && chatMessages[..|old(chatMessages)|] == old(chatMessages)
      ensures IsBotMessage(chatMessages[|old(chatMessages)|], text, None, Some(suggestions))
      ensures uiState == old(uiState) && providers == old(providers) && currentLocation == old(currentLocation)
      ensures selectedProvider == old(selectedProvider) && selectedPriceLevel == old(selectedPriceLevel)
      ensures selectedCategory == old(selectedCategory)
    {
      var id := Random.RandomUuid();
      var timestamp := Random.CurrentTimeMillis();
      var botMessage := ChatMessage(id, text, false, timestamp, None, Some(suggestions));
      chatMessages := chatMessages + [botMessage];
    }

    /** `setLocation`: stores the location and confirms it in the chat. */
    method SetLocation(location: Location)
      requires Valid()
      modifies this
      ensures Valid()
      ensures currentLocation == Some(location)
      ensures |chatMessages| == |old(chatMessages)| + 1 && chatMessages[..|old(chatMessages)|] == old(chatMessages)
      ensures IsBotMessage(chatMessages[|old(chatMessages)|], LocationSetText(location.address), None,
                           Some(LocationSuggestions))
      ensures uiState == old(uiState) && providers == old(providers) && selectedProvider == old(selectedProvider)
      ensures selectedPriceLevel == old(selectedPriceLevel) && selectedCategory == old(selectedCategory)
    {
      currentLocation := Some(location);
      AddBotMessage(LocationSetText(location.address), LocationSuggestions);
    }

    /** `sendMessage`: a blank message is ignored; otherwise the user's bubble and the reply are
        appended, the recommendations go on show and the screen state follows the result.
        `searched`, `mocks` and `reply` name what the provider search returned and generated and
        the repository's result. */
    method SendMessage(message: string)
      returns (ghost searched: seq<ServiceProvider>, ghost mocks: seq<ServiceProvider>, ghost reply: Repository.SearchResult)
      requires Valid()
      modifies this
      ensures Valid()
      ensures IsBlank(message) ==>
        uiState == old(uiState) && chatMessages == old(chatMessages) && providers == old(providers)
      ensures !IsBlank(message) ==> Repository.Searched(message, old(currentLocation), distance, searched, mocks)
      ensures !IsBlank(message) ==> reply == Repository.Answer(message, old(currentLocation), searched, floatText)
      ensures !IsBlank(message) ==>
        var n := |old(chatMessages)|;
        |chatMessages| == n + 2 && chatMessages[..n] == old(chatMessages) &&
        IsUserMessage(chatMessages[n], message) &&
        IsBotMessage(chatMessages[n + 1], reply.aiResponse, ShownProviders(reply.providers), Some(reply.suggestions))
      ensures !IsBlank(message) ==> providers == reply.providers && uiState == SearchOutcome(reply)
      ensures currentLocation == old(currentLocation) && selectedProvider == old(selectedProvider)
      ensures selectedPriceLevel == old(selectedPriceLevel) && selectedCategory == old(selectedCategory)
    {
      if IsBlank(message) {
        searched, mocks, reply := [], [], Repository.SearchResult([], "", [], true);
        return;
      }
      AddUserMessage(message);
      uiState := Loading;
      var result;
      result, searched, mocks := Repository.SearchProvidersWithAI(message, currentLocation, chatMessages,
                                                                   distance, floatText);
      reply := result;
      ghost var asked := chatMessages;
      ShowAnswer(result);
      assert chatMessages[..|asked|] == asked;
    }

    /** The start of `sendMessage`: the user's bubble. */
    method AddUserMessage(message: string)
      requires Valid()
      modifies this
      ensures Valid()
      ensures |chatMessages| == |old(chatMessages)| + 1 && chatMessages[..|old(chatMessages)|] == old(chatMessages)
      ensures IsUserMessage(chatMessages[|old(chatMessages)|], message)
      ensures uiState == old(uiState) && providers == old(providers) && currentLocation == old(currentLocation)
      ensures selectedProvider == old(selectedProvider) && selectedPriceLevel == old(selectedPriceLevel)
      ensures selectedCategory == old(selectedCategory)
    {
      var id := Random.RandomUuid();
      var timestamp := Random.CurrentTimeMillis();
      var userMessage := ChatMessage(id, message, true, timestamp, None, None);
      chatMessages := chatMessages + [userMessage];
      assert chatMessages[0] == old(chatMessages)[0];
      assert forall m :: m in chatMessages ==> m in old(chatMessages) || m == userMessage;
    }

    /** The end of `sendMessage`'s coroutine: the reply bubble, the providers on show and the
        screen state for `result`. */
    method ShowAnswer(result: Repository.SearchResult)
      requires Valid()
      modifies this
      ensures Valid()
      ensures |chatMessages| == |old(chatMessages)| + 1 && chatMessages[..|old(chatMessages)|] == old(chatMessages)
      ensures IsBotMessage(chatMessages[|old(chatMessages)|], result.aiResponse, ShownProviders(result.providers),
                           Some(result.suggestions))
      ensures providers == result.providers && uiState == SearchOutcome(result)
      ensures currentLocation == old(currentLocation) && selectedProvider == old(selectedProvider)
      ensures selectedPriceLevel == old(selectedPriceLevel) && selectedCategory == old(selectedCategory)
    {
      providers := result.providers;
      var botId := Random.RandomUuid();
      var botTime := Random.CurrentTimeMillis();
      var botMessage := ChatMessage(botId, result.aiResponse, false, botTime, ShownProviders(result.providers),
                                    Some(result.suggestions));
      chatMessages := chatMessages + [botMessage];
      uiState := if result.providers != [] then Success(result.providers)
                 else if result.needsMoreInfo then NeedsMoreInfo
                 else NoResults;
      assert chatMessages[0] == old(chatMessages)[0];
      assert forall m :: m in chatMessages ==> m in old(chatMessages) || m == botMessage;
    }

    /** `searchByCategory`: records the filters, then searches around the current location, or
        reports that a location is needed first. */
    method SearchByCategory(category: string, priceLevel: Option<PriceLevel>) returns (ghost mocks: seq<ServiceProvider>)
      requires Valid()
      modifies this
      ensures Valid()
      ensures CategorySearched(old(currentLocation), old(providers), category, priceLevel, mocks)
      ensures chatMessages == old(chatMessages) && selectedProvider == old(selectedProvider)
    {
      selectedCategory := Some(category);
      selectedPriceLevel := priceLevel;
      var location := currentLocation;
      if location.None? {
        uiState := Error(LocationFirstText);
        mocks := [];
        return;
      }
      uiState := Loading;
      var found;
      found, mocks := Repository.SearchByCategory(category, location.value, priceLevel, distance);
      providers := found;
      uiState := if found != [] then Success(found) else NoResults;
    }

    /** `loadProviderDetails`: selects the provider with that id and shows it alone. */
    method LoadProviderDetails(providerId: string)
      requires Valid()
      modifies this
      ensures Valid()
      ensures selectedProvider == Repository.GetProviderDetails(providerId)
      ensures selectedProvider.Some? && selectedProvider.value.id == providerId
      ensures uiState == Success(ListOfNotNull(selectedProvider))
      ensures chatMessages == old(chatMessages) && providers == old(providers)
      ensures currentLocation == old(currentLocation) && selectedPriceLevel == old(selectedPriceLevel)
      ensures selectedCategory == old(selectedCategory)
    {
      uiState := Loading;
      var provider := Repository.GetProviderDetails(providerId);
      selectedProvider := provider;
      uiState := Success(ListOfNotNull(provider));
    }

    /** `setPriceLevel`: records the price filter and, when a category is selected, searches it
        again with the new filter. */
    method SetPriceLevel(priceLevel: Option<PriceLevel>) returns (ghost mocks: seq<ServiceProvider>)
      requires Valid()
      modifies this
      ensures Valid()
      ensures selectedPriceLevel == priceLevel
      ensures old(selectedCategory).None? ==>
        selectedCategory.None? && uiState == old(uiState) && providers == old(providers) &&
        currentLocation == old(currentLocation)
      ensures old(selectedCategory).Some? ==>
        CategorySearched(old(currentLocation), old(providers), old(selectedCategory).value, priceLevel, mocks)
      ensures chatMessages == old(chatMessages) && selectedProvider == old(selectedProvider)
    {
      selectedPriceLevel := priceLevel;
      if selectedCategory.Some? {
        mocks := SearchByCategory(selectedCategory.value, priceLevel);
      } else {
        mocks := [];
      }
    }

    /** `clearFilters`: drops the price and category filters and nothing else. */
    method ClearFilters()
      requires Valid()
      modifies this
      ensures Valid()
      ensures selectedPriceLevel.None? && selectedCategory.None?
      ensures uiState == old(uiState) && chatMessages == old(chatMessages) && providers == old(providers)
      ensures currentLocation == old(currentLocation) && selectedProvider == old(selectedProvider)
    {
      selectedPriceLevel := None;
      selectedCategory := None;
    }

    /** `getPopularCategories`. */
    method PopularCategories() returns (categories: seq<Repository.ServiceCategory>)
      ensures categories == Repository.PopularCategories
    {
      categories := Repository.PopularCategories;
    }
  }
}
