/** The on-device assistant (`RunAnywhereSDK`): keyword-based understanding of a chat query,
    the ranking of providers and the wording of the bot's reply. */
module Assistant {
  import opened Models
  import opened Text
  import opened Lists

  /** The assistant's reading of one query. `confidence` is a Kotlin Float, exact here. */
  datatype AIResponse = AIResponse(
    intent: string,
    serviceType: Option<string>,
    priceLevel: Option<PriceLevel>,
    location: Option<Location>,
    confidence: real,
    suggestedQuestions: seq<string>
  )

  /** Kotlin `Float.toString()`, used for a provider's rating in the reply; supplied by the caller. */
  type FloatText = real -> string

  // ---------------------------------------------------------------- intent

  const SearchWords: seq<string> := ["find", "search", "looking for", "need"]
  const BookingWords: seq<string> := ["book", "schedule", "appointment"]
  const CompareWords: seq<string> := ["compare", "difference"]
  const HelpWords: seq<string> := ["help", "how"]

  /** `extractIntent`: the first word group found in the lower-cased query decides the intent, in
      the order search, booking, compare, help; a query with none of them is a search. */
  function ExtractIntent(query: string): (intent: string)
    ensures intent in {"search", "booking", "compare", "help"}
    ensures var q := ToLower(query);
      (intent == "booking" <==> !ContainsAny(q, SearchWords) && ContainsAny(q, BookingWords)) &&
      (intent == "compare" <==> !ContainsAny(q, SearchWords) && !ContainsAny(q, BookingWords) &&
                                ContainsAny(q, CompareWords)) &&
      (intent == "help" <==> !ContainsAny(q, SearchWords) && !ContainsAny(q, BookingWords) &&
                             !ContainsAny(q, CompareWords) && ContainsAny(q, HelpWords))
  {
    var q := ToLower(query);
    ContainsAnyOfFour(q, "find", "search", "looking for", "need");
    ContainsAnyOfThree(q, "book", "schedule", "appointment");
    ContainsAnyOfTwo(q, "compare", "difference");
    ContainsAnyOfTwo(q, "help", "how");
    if Contains(q, "find") || Contains(q, "search") || Contains(q, "looking for") || Contains(q, "need") then
      "search"
    else if Contains(q, "book") || Contains(q, "schedule") || Contains(q, "appointment") then
      "booking"
    else if Contains(q, "compare") || Contains(q, "difference") then
      "compare"
    else if Contains(q, "help") || Contains(q, "how") then
      "help"
    else
      "search"
  }

  /** The intent depends only on the lower-cased query. */
  lemma IntentIgnoresCase(a: string, b: string)
    requires ToLower(a) == ToLower(b)
    ensures ExtractIntent(a) == ExtractIntent(b)
  {
  }

  /** "show me a plumber" asks for help: "how" occurs inside "show". */
  lemma {:induction false} ShowMeIsHelp()
    ensures ExtractIntent("show me a plumber") == "help"
  {
    var q := "show me a plumber";
    ToLowerOfLower(q);
    ShowMeHasNoSearchOrBookingWord(q);
    ShowMeHasOnlyHelpWords(q);
  }

  lemma {:induction false} ShowMeHasNoSearchOrBookingWord(q: string)
    requires q == "show me a plumber"
    ensures !ContainsAny(q, SearchWords) && !ContainsAny(q, BookingWords)
  {
    NoneContained(q, SearchWords, ['f', 'c', 'k', 'n']);
    NoneContained(q, BookingWords, ['k', 'c', 'i']);
  }

  lemma {:induction false} ShowMeHasOnlyHelpWords(q: string)
    requires q == "show me a plumber"
    ensures !ContainsAny(q, CompareWords) && ContainsAny(q, HelpWords)
  {
    NoneContained(q, CompareWords, ['c', 'f']);
    assert OccursAt(q, "how", 1);
    assert HelpWords[1] == "how";
  }

  /** "I need to book" is a search: search words take priority over booking words. */
  lemma {:induction false} NeedToBookIsSearch()
    ensures ExtractIntent("I need to book") == "search"
  {
    var q := ToLower("I need to book");
    assert q == "i need to book";
    assert OccursAt(q, "need", 2);
    assert SearchWords[3] == "need";
  }

  // ---------------------------------------------------------------- parameters

  /** `serviceKeywords`: each category with the words that reveal it, in declaration order (the
      order a Kotlin `mapOf` iterates in). */
  const PlumberWords: seq<string> := [
    "plumber", "plumbing", "pipe", "leak", "drain", "water tank", "tap", "bathroom fitting"
  ]
  const TutorWords: seq<string> := [
    "tutor", "tutoring", "teacher", "education", "lessons", "coaching", "iit", "jee", "neet",
    "allen", "resonance", "classes", "academy", "institute", "preparation"
  ]
  const GymWords: seq<string> := [
    "gym", "fitness", "workout", "exercise", "training", "yoga", "zumba", "crossfit",
    "health club", "gymnasium"
  ]
  const ElectricianWords: seq<string> := [
    "electrician", "electrical", "wiring", "electric", "voltage", "circuit", "inverter"
  ]
  const RepairWords: seq<string> := [
    "repair", "fix", "service", "maintenance", "ac", "refrigerator", "washing machine", "appliance"
  ]
  const CleanerWords: seq<string> := [
    "cleaning", "cleaner", "maid", "housekeeping", "sanitization", "deep clean"
  ]
  const MechanicWords: seq<string> := [
    "mechanic", "auto", "car repair", "vehicle", "garage", "automobile", "bike service"
  ]
  const CarpenterWords: seq<string> := ["carpenter", "woodwork", "furniture", "sofa", "wardrobe"]
  const PainterWords: seq<string> := ["painter", "painting", "paint job", "whitewash", "colour"]
  const LocksmithWords: seq<string> := ["locksmith", "lock", "key", "door lock", "security"]

  const ServiceKeywords: seq<(string, seq<string>)> := [
    ("plumber", PlumberWords),
    ("tutor", TutorWords),
    ("gym", GymWords),
    ("electrician", ElectricianWords),
    ("repair", RepairWords),
    ("cleaner", CleanerWords),
    ("mechanic", MechanicWords),
    ("carpenter", CarpenterWords),
    ("painter", PainterWords),
    ("locksmith", LocksmithWords)
  ]

  /** The categories of the keyword table, in order. */
  function KeywordCategories(table: seq<(string, seq<string>)>): (r: seq<string>)
    ensures |r| == |table| && forall k :: 0 <= k < |table| ==> r[k] == table[k].0
  {
    seq(|table|, k requires 0 <= k < |table| => table[k].0)
  }

  /** The category of the LAST table entry with a keyword in `q`: every matching entry overwrites
      the one before it. */
  function LastMatch(table: seq<(string, seq<string>)>, q: string): (r: Option<string>)
    ensures r.None? <==> forall k :: 0 <= k < |table| ==> !ContainsAny(q, table[k].1)
    ensures r.Some? ==> exists k :: 0 <= k < |table| && table[k].0 == r.value && ContainsAny(q, table[k].1) &&
                                    forall j :: k < j < |table| ==> !ContainsAny(q, table[j].1)
    decreases |table|
  {
    if table == [] then None
    else if ContainsAny(q, table[|table| - 1].1) then Some(table[|table| - 1].0)
    else
      var r := LastMatch(table[..|table| - 1], q);
      if r.Some? then
        var init := table[..|table| - 1];
        var k :| 0 <= k < |init| && init[k].0 == r.value && ContainsAny(q, init[k].1) &&
          forall j :: k < j < |init| ==> !ContainsAny(q, init[j].1);
        assert table[k] == init[k];
        assert forall j :: k < j < |table| ==> !ContainsAny(q, table[j].1) by {
          forall j | k < j < |table| ensures !ContainsAny(q, table[j].1) {
            if j < |table| - 1 { assert table[j] == init[j]; }
          }
        }
        r
      else
        assert forall k :: 0 <= k < |table| - 1 ==> table[k] == table[..|table| - 1][k];
        r
  }

  /** The service found in a query: the last category of `ServiceKeywords` with a keyword in it. */
  function DetectedService(query: string): (r: Option<string>)
    ensures r.Some? ==> r.value in KeywordCategories(ServiceKeywords)
  {
    var r := LastMatch(ServiceKeywords, ToLower(query));
    if r.Some? then
      var k :| 0 <= k < |ServiceKeywords| && ServiceKeywords[k].0 == r.value;
      assert KeywordCategories(ServiceKeywords)[k] == r.value;
      r
    else r
  }

  const CheapWords: seq<string> := ["cheap", "affordable", "budget"]
  const PremiumWords: seq<string> := ["premium", "expensive", "high-end", "best"]
  const MediumWords: seq<string> := ["medium", "moderate", "mediocre"]

  /** The price tag found in a query: cheap words win over premium words, which win over medium
      words. */
  function DetectedPrice(query: string): (r: Option<string>)
    ensures var q := ToLower(query);
      (r == Some("cheap") <==> ContainsAny(q, CheapWords)) &&
      (r == Some("premium") <==> !ContainsAny(q, CheapWords) && ContainsAny(q, PremiumWords)) &&
      (r == Some("mediocre") <==> !ContainsAny(q, CheapWords) && !ContainsAny(q, PremiumWords) &&
                                  ContainsAny(q, MediumWords)) &&
      (r.None? <==> !ContainsAny(q, CheapWords) && !ContainsAny(q, PremiumWords) &&
                    !ContainsAny(q, MediumWords))
  {
    var q := ToLower(query);
    ContainsAnyOfThree(q, "cheap", "affordable", "budget");
    ContainsAnyOfFour(q, "premium", "expensive", "high-end", "best");
    ContainsAnyOfThree(q, "medium", "moderate", "mediocre");
    if Contains(q, "cheap") || Contains(q, "affordable") || Contains(q, "budget") then Some("cheap")
    else if Contains(q, "premium") || Contains(q, "expensive") || Contains(q, "high-end") || Contains(q, "best") then
      Some("premium")
    else if Contains(q, "medium") || Contains(q, "moderate") || Contains(q, "mediocre") then Some("mediocre")
    else None
  }

  /** The parameter map `extractParameters` builds: "serviceType" and "priceLevel", each present
      only when detected. */
  function Parameters(query: string): map<string, string> {
    var m := if DetectedService(query).Some? then map["serviceType" := DetectedService(query).value] else map[];
    if DetectedPrice(query).Some? then m["priceLevel" := DetectedPrice(query).value] else m
  }

  /** The parameter map has at most the two keys, each exactly when detected, with the values
      detected; a price is always one of the three tags. */
  lemma ParametersShape(query: string)
    ensures forall key :: key in Parameters(query) ==> key == "serviceType" || key == "priceLevel"
    ensures "serviceType" in Parameters(query) <==> DetectedService(query).Some?
    ensures "serviceType" in Parameters(query) ==> Parameters(query)["serviceType"] == DetectedService(query).value
    ensures "priceLevel" in Parameters(query) <==> DetectedPrice(query).Some?
    ensures "priceLevel" in Parameters(query) ==>
      Parameters(query)["priceLevel"] == DetectedPrice(query).value &&
      Parameters(query)["priceLevel"] in {"cheap", "premium", "mediocre"}
  {
  }

  /** `extractParameters`: the keyword table is scanned in order and every category with a keyword
      in the query overwrites "serviceType"; then the price tag of the `when` block is added. */
  method ExtractParameters(query: string) returns (params: map<string, string>)
    ensures params == Parameters(query)
  {
    var lowerQuery := ToLower(query);
    params := ScanServiceKeywords(ServiceKeywords, lowerQuery);
    var priceTag := DetectedPrice(query);
    if priceTag.Some? {
      params := params["priceLevel" := priceTag.value];
    }
  }

  /** The `forEach` over the keyword table in `extractParameters`: every entry with a keyword in
      the query overwrites "serviceType", so the last matching entry is kept. */
  method ScanServiceKeywords(table: seq<(string, seq<string>)>, lowerQuery: string)
    returns (params: map<string, string>)
    ensures params == match LastMatch(table, lowerQuery)
      case None => map[]
      case Some(s) => map["serviceType" := s]
  {
    params := map[];
    for i := 0 to |table|
      invariant params == match LastMatch(table[..i], lowerQuery)
        case None => map[]
        case Some(s) => map["serviceType" := s]
    {
      var (service, keywords) := table[i];
      LastMatchStep(table, lowerQuery, i);
      if ContainsAny(lowerQuery, keywords) {
        params := params["serviceType" := service];
      }
    }
    assert table[..|table|] == table;
  }

  /** One more table entry: it decides when it matches, otherwise the earlier entries do. */
  lemma LastMatchStep(table: seq<(string, seq<string>)>, q: string, i: nat)
    requires i < |table|
    ensures LastMatch(table[..i + 1], q) ==
      if ContainsAny(q, table[i].1) then Some(table[i].0) else LastMatch(table[..i], q)
  {
    assert table[..i + 1][..i] == table[..i];
  }

  /** The last matching entry decides: if entry `k` matches and no later entry does, the
      result is entry `k`'s category. */
  lemma LastMatchIs(table: seq<(string, seq<string>)>, q: string, k: nat)
    requires k < |table| && ContainsAny(q, table[k].1)
    requires forall j :: k < j < |table| ==> !ContainsAny(q, table[j].1)
    ensures LastMatch(table, q) == Some(table[k].0)
  {
    var r := LastMatch(table, q);
    var m :| 0 <= m < |table| && table[m].0 == r.value && ContainsAny(q, table[m].1) &&
      forall j :: m < j < |table| ==> !ContainsAny(q, table[j].1);
    assert m == k;
  }

  lemma CoachingHasAc()
    ensures ContainsAny("iit coaching", RepairWords)
  {
    assert OccursAt("iit coaching", "ac", 6);
    assert RepairWords[4] == "ac";
  }

  lemma {:induction false} CoachingMatchesNothingLater()
    ensures forall j :: 4 < j < |ServiceKeywords| ==> !ContainsAny("iit coaching", ServiceKeywords[j].1)
  {
    var q := "iit coaching";
    CoachingLacksCleanerOrMechanicWords(q);
    CoachingLacksCarpenterWords(q);
    CoachingLacksPainterOrLocksmithWords(q);
    assert ServiceKeywords[5].1 == CleanerWords && ServiceKeywords[6].1 == MechanicWords;
    assert ServiceKeywords[7].1 == CarpenterWords && ServiceKeywords[8].1 == PainterWords;
    assert ServiceKeywords[9].1 == LocksmithWords;
  }

  lemma CoachingLacksCleanerOrMechanicWords(q: string)
    requires q == "iit coaching"
    ensures !ContainsAny(q, CleanerWords) && !ContainsAny(q, MechanicWords)
  {
    NoneContained(q, CleanerWords, ['l', 'l', 'm', 'u', 's', 'l']);
    NoneContained(q, MechanicWords, ['m', 'u', 'r', 'v', 'r', 'u', 'b']);
  }

  lemma CoachingLacksCarpenterWords(q: string)
    requires q == "iit coaching"
    ensures !ContainsAny(q, CarpenterWords)
  {
    NoneContained(q, CarpenterWords, ['r', 'w', 'f', 's', 'w']);
  }

  lemma CoachingLacksPainterOrLocksmithWords(q: string)
    requires q == "iit coaching"
    ensures !ContainsAny(q, PainterWords) && !ContainsAny(q, LocksmithWords)
  {
    NoneContained(q, PainterWords, ['p', 'p', 'p', 'w', 'l']);
    NoneContained(q, LocksmithWords, ['l', 'l', 'k', 'd', 's']);
  }

  /** Because later categories overwrite earlier ones and "ac" is a repair keyword, a query about
      IIT coaching is read as a request for a repair. */
  lemma {:induction false} CoachingReadsAsRepair()
    ensures DetectedService("iit coaching") == Some("repair")
  {
    ToLowerOfLower("iit coaching");
    CoachingHasAc();
    CoachingMatchesNothingLater();
    LastMatchIs(ServiceKeywords, "iit coaching", 4);
  }

  // ---------------------------------------------------------------- query processing

  /** The `when (it.lowercase())` that turns a price tag into a price level. */
  function PriceFromTag(tag: string): (r: Option<PriceLevel>)
    ensures r == Some(Cheap) <==> ToLower(tag) in {"cheap", "affordable", "budget"}
    ensures r == Some(Mediocre) <==> ToLower(tag) in {"mediocre", "medium", "moderate"}
    ensures r == Some(Premium) <==> ToLower(tag) in {"premium", "expensive", "high-end"}
  {
    var t := ToLower(tag);
    if t == "cheap" || t == "affordable" || t == "budget" then Some(Cheap)
    else if t == "mediocre" || t == "medium" || t == "moderate" then Some(Mediocre)
    else if t == "premium" || t == "expensive" || t == "high-end" then Some(Premium)
    else None
  }

  /** The reading `processQuery` returns for a query. */
  function Analyse(query: string, location: Option<Location>): AIResponse {
    var params := Parameters(query);
    var intent := ExtractIntent(query);
    AIResponse(
      intent := intent,
      serviceType := if "serviceType" in params then Some(params["serviceType"]) else None,
      priceLevel := if "priceLevel" in params then PriceFromTag(params["priceLevel"]) else None,
      location := location,
      confidence := 0.95,
      suggestedQuestions := Suggestions(intent, params))
  }

  /** A price level is reported exactly when a price word occurs, and it is the level of the word
      group that won: every tag the parameters can hold is understood. */
  lemma {:induction false} AnalysePrice(query: string, location: Option<Location>)
    ensures var q := ToLower(query); var pl := Analyse(query, location).priceLevel;
      (pl == Some(Cheap) <==> ContainsAny(q, CheapWords)) &&
      (pl == Some(Premium) <==> !ContainsAny(q, CheapWords) && ContainsAny(q, PremiumWords)) &&
      (pl == Some(Mediocre) <==> !ContainsAny(q, CheapWords) && !ContainsAny(q, PremiumWords) &&
                                 ContainsAny(q, MediumWords)) &&
      (pl.None? <==> !ContainsAny(q, CheapWords) && !ContainsAny(q, PremiumWords) &&
                     !ContainsAny(q, MediumWords))
  {
    ParametersShape(query);
    ToLowerOfLower("cheap");
    ToLowerOfLower("premium");
    ToLowerOfLower("mediocre");
  }

  /** The service type is the detected category, and the location is passed through unchanged. */
  lemma AnalyseServiceAndLocation(query: string, location: Option<Location>)
    ensures Analyse(query, location).serviceType == DetectedService(query)
    ensures Analyse(query, location).location == location
    ensures Analyse(query, location).intent == ExtractIntent(query)
  {
    ParametersShape(query);
  }

  /** `processQuery`. The conversation history is accepted and not consulted. */
  method ProcessQuery(query: string, location: Option<Location>, conversationHistory: seq<ChatMessage>)
    returns (response: AIResponse)
    ensures response == Analyse(query, location)
  {
    var intent := ExtractIntent(query);
    var parameters := ExtractParameters(query);
    var priceLevel := if "priceLevel" in parameters then PriceFromTag(parameters["priceLevel"]) else None;
    var suggestions := GenerateSuggestions(intent, parameters);
    response := AIResponse(
      intent := intent,
      serviceType := if "serviceType" in parameters then Some(parameters["serviceType"]) else None,
      priceLevel := priceLevel,
      location := location,
      confidence := 0.95,
      suggestedQuestions := suggestions);
  }

  // ---------------------------------------------------------------- suggestions

  const AskPrice := "Would you prefer cheap, mediocre, or premium options?"
  const AskService := "What type of service are you looking for?"
  const FollowUps: seq<string> := ["Show me the top rated options", "What's available this week?",
                                   "Compare the best 3 providers"]
  const StarterQuestions: seq<string> := ["Find plumbers near me", "Show cheap gym memberships",
                                          "Premium tutors in my area"]

  /** The follow-up questions offered for a reading of a query. */
  function Suggestions(intent: string, parameters: map<string, string>): seq<string> {
    var asks :=
      (if "serviceType" in parameters && "priceLevel" !in parameters then [AskPrice] else []) +
      (if "priceLevel" in parameters && "serviceType" !in parameters then [AskService] else []) +
      (if intent == "search" && |parameters| > 0 then FollowUps else []);
    if asks == [] then StarterQuestions else asks
  }

  /** There is always something to suggest; the price question comes exactly when a service but
      no price was understood, the service question exactly in the opposite case, the follow-ups
      exactly for a search that understood something, and the starter questions otherwise. */
  lemma SuggestionsCases(intent: string, parameters: map<string, string>)
    ensures var s := Suggestions(intent, parameters);
      |s| in {1, 3, 4} &&
      (AskPrice in s <==> "serviceType" in parameters && "priceLevel" !in parameters) &&
      (AskService in s <==> "priceLevel" in parameters && "serviceType" !in parameters) &&
      (FollowUps[0] in s <==> intent == "search" && |parameters| > 0) &&
      (s == StarterQuestions <==>
        !("serviceType" in parameters && "priceLevel" !in parameters) &&
        !("priceLevel" in parameters && "serviceType" !in parameters) &&
        !(intent == "search" && |parameters| > 0))
  {
  }

  /** `generateSuggestions`: questions are appended one rule at a time, and the starter questions
      replace an empty list. */
  method GenerateSuggestions(intent: string, parameters: map<string, string>) returns (suggestions: seq<string>)
    ensures suggestions == Suggestions(intent, parameters)
  {
    suggestions := [];
    if "serviceType" in parameters && "priceLevel" !in parameters {
      suggestions := suggestions + [AskPrice];
    }
    if "priceLevel" in parameters && "serviceType" !in parameters {
      suggestions := suggestions + [AskService];
    }
    if intent == "search" && |parameters| > 0 {
      suggestions := suggestions + [FollowUps[0]];
      suggestions := suggestions + [FollowUps[1]];
      suggestions := suggestions + [FollowUps[2]];
    }
    if suggestions == [] {
      suggestions := StarterQuestions;
    }
  }

  // ---------------------------------------------------------------- ranking

  /** The ranking score of a provider: 20 per rating star, 30 for the preferred price level, up
      to 50 for closeness (5 per km under 10 km), 15 for verification and up to 10 for reviews
      (one per ten reviews). */
  function Score(p: ServiceProvider, preferences: map<string, PriceLevel>): real {
    var priceBonus := if "priceLevel" in preferences && preferences["priceLevel"] == p.priceLevel then 30.0 else 0.0;
    var verifiedBonus := if p.isVerified then 15.0 else 0.0;
    p.rating * 20.0 + priceBonus + (10.0 - Min(p.distance, 10.0)) * 5.0 + verifiedBonus +
      Min(p.reviewCount as real / 10.0, 10.0)
  }

  /** Kotlin `coerceAtMost`. */
  function Min(x: real, bound: real): real {
    if x <= bound then x else bound
  }

  /** For a rating in [0, 5], a non-negative distance and review count, the score lies in
      [0, 205]. */
  lemma ScoreBounds(p: ServiceProvider, preferences: map<string, PriceLevel>)
    requires 0.0 <= p.rating <= 5.0 && p.distance >= 0.0 && p.reviewCount >= 0
    ensures 0.0 <= Score(p, preferences) <= 205.0
  {
  }

  /** Each part of the score rewards what it should: a higher rating, a nearer provider (within
      10 km), a price match and verification each raise the score, everything else equal. */
  lemma ScoreRewards(p: ServiceProvider, preferences: map<string, PriceLevel>)
    ensures forall r :: r > p.rating ==> Score(p.(rating := r), preferences) > Score(p, preferences)
    ensures forall d :: d < p.distance && d < 10.0 ==> Score(p.(distance := d), preferences) > Score(p, preferences)
    ensures !p.isVerified ==> Score(p.(isVerified := true), preferences) == Score(p, preferences) + 15.0
    ensures "priceLevel" in preferences && p.priceLevel != preferences["priceLevel"] ==>
      Score(p.(priceLevel := preferences["priceLevel"]), preferences) == Score(p, preferences) + 30.0
  {
  }

  /** The key the recommendations are ranked by. */
  function ScoreKey(preferences: map<string, PriceLevel>): ServiceProvider -> real {
    p => Score(p, preferences)
  }

  /** `generateRecommendations`: the ten best-scoring providers, best first (a stable sort, so
      equal scores keep their order). The query is accepted and not consulted. */
  function GenerateRecommendations(providers: seq<ServiceProvider>, preferences: map<string, PriceLevel>,
                                   query: string): seq<ServiceProvider> {
    Take(SortByDescending(providers, ScoreKey(preferences)), 10)
  }

  /** The recommendations are at most ten of the given providers, best score first, and no
      provider left out (counting copies of the same record) scores above one that was kept; of the providers with any one score, the
      ones kept are the first in input order, so a tie at the cut keeps the earlier provider. */
  lemma {:induction false} RecommendationsAreTheBest(providers: seq<ServiceProvider>,
                                                     preferences: map<string, PriceLevel>, query: string)
    ensures var r := GenerateRecommendations(providers, preferences, query);
      |r| == (if |providers| < 10 then |providers| else 10) &&
      multiset(r) <= multiset(providers) &&
      (forall i, j :: 0 <= i < j < |r| ==> Score(r[i], preferences) >= Score(r[j], preferences)) &&
      (forall p, q :: p in providers && p !in r && q in r ==> Score(p, preferences) <= Score(q, preferences)) &&
      (forall p, q :: multiset(r)[p] < multiset(providers)[p] && q in r ==> Score(p, preferences) <= Score(q, preferences)) &&
      (forall k :: WithKey(r, ScoreKey(preferences), k) <= WithKey(providers, ScoreKey(preferences), k))
  {
    var key := ScoreKey(preferences);
    assert forall p :: key(p) == Score(p, preferences);
    TopByDescending(providers, key, 10);
  }

  // ---------------------------------------------------------------- reply

  const NoResultsReply := "I couldn't find any service providers matching your criteria in your area. " +
                          "Would you like to try a different location or service type?"

  function Sum(xs: seq<real>): real {
    if xs == [] then 0.0 else Sum(xs[..|xs| - 1]) + xs[|xs| - 1]
  }

  /** Kotlin `map { it.rating }.average()`. */
  function AverageRating(providers: seq<ServiceProvider>): real
    requires providers != []
  {
    Sum(seq(|providers|, i requires 0 <= i < |providers| => providers[i].rating)) / (|providers| as real)
  }

  /** `generateChatResponse`. The user's message and location are accepted and not consulted. */
  function ChatResponse(userMessage: string, providers: seq<ServiceProvider>, location: Option<Location>,
                        floatText: FloatText): string {
    if providers == [] then NoResultsReply else "I found " + FindsText(providers, floatText)
  }

  /** What follows "I found " in the reply to a non-empty list. */
  function FindsText(providers: seq<ServiceProvider>, floatText: FloatText): string
    requires providers != []
  {
    if |providers| == 1 then
      var p := providers[0];
      p.name + (", a " + (ToLower(PriceLevelName(p.priceLevel)) + (" option with " +
      floatText(p.rating) + " stars. " + "They're located " + (OneDecimal(p.distance) +
      "km away. Would you like to see more details?"))))
    else
      NatToString(|providers|) + (" service providers near you with an average rating of " +
      (OneDecimal(AverageRating(providers)) + (" stars. The closest one is " +
      (OneDecimal(providers[0].distance) + ("km away. " +
      "Would you like me to show you the top recommendations?")))))
  }

  /** The reply is the apology when nothing was found, and otherwise opens with "I found ". */
  lemma ChatResponseOpening(userMessage: string, providers: seq<ServiceProvider>,
                            location: Option<Location>, floatText: FloatText)
    ensures providers == [] ==> ChatResponse(userMessage, providers, location, floatText) == NoResultsReply
    ensures providers != [] ==> "I found " <= ChatResponse(userMessage, providers, location, floatText)
  {
  }

  /** A single find is named, with its price level and its distance. */
  lemma {:induction false} ChatResponseNamesSingleFind(userMessage: string, providers: seq<ServiceProvider>,
                                                       location: Option<Location>, floatText: FloatText)
    requires |providers| == 1
    ensures var r := ChatResponse(userMessage, providers, location, floatText);
      Contains(r, providers[0].name) &&
      Contains(r, ToLower(PriceLevelName(providers[0].priceLevel))) &&
      Contains(r, OneDecimal(providers[0].distance))
  {
    var p := providers[0];
    var level := ToLower(PriceLevelName(p.priceLevel));
    var c := " option with " + floatText(p.rating) + " stars. " + "They're located ";
    var d := OneDecimal(p.distance);
    var r4 := d + "km away. Would you like to see more details?";
    var r3 := c + r4;
    var r2 := level + r3;
    var r1 := ", a " + r2;
    var r0 := p.name + r1;
    ContainsFront(d, "km away. Would you like to see more details?");
    ContainsPrepend(r4, d, c);
    ContainsFront(level, r3);
    ContainsPrepend(r2, level, ", a ");
    ContainsPrepend(r3, d, level);
    ContainsPrepend(r2, d, ", a ");
    ContainsFront(p.name, r1);
    ContainsPrepend(r1, level, p.name);
    ContainsPrepend(r1, d, p.name);
    assert FindsText(providers, floatText) == r0;
    ContainsPrepend(r0, p.name, "I found ");
    ContainsPrepend(r0, level, "I found ");
    ContainsPrepend(r0, d, "I found ");
  }

  /** Several finds are counted, with their average rating and the first one's distance. */
  lemma {:induction false} ChatResponseSummarisesFinds(userMessage: string, providers: seq<ServiceProvider>,
                                                       location: Option<Location>, floatText: FloatText)
    requires |providers| > 1
    ensures var r := ChatResponse(userMessage, providers, location, floatText);
      Contains(r, NatToString(|providers|)) &&
      Contains(r, OneDecimal(AverageRating(providers))) &&
      Contains(r, OneDecimal(providers[0].distance))
  {
    var n := NatToString(|providers|);
    var avg := OneDecimal(AverageRating(providers));
    var first := OneDecimal(providers[0].distance);
    var r5 := "km away. " + "Would you like me to show you the top recommendations?";
    var r4 := first + r5;
    var r3 := " stars. The closest one is " + r4;
    var r2 := avg + r3;
    var r1 := " service providers near you with an average rating of " + r2;
    var r0 := n + r1;
    ContainsFront(first, r5);
    ContainsPrepend(r4, first, " stars. The closest one is ");
    ContainsPrepend(r3, first, avg);
    ContainsFront(avg, r3);
    ContainsPrepend(r2, first, " service providers near you with an average rating of ");
    ContainsPrepend(r2, avg, " service providers near you with an average rating of ");
    ContainsPrepend(r1, first, n);
    ContainsPrepend(r1, avg, n);
    ContainsFront(n, r1);
    assert FindsText(providers, floatText) == r0;
    ContainsPrepend(r0, first, "I found ");
    ContainsPrepend(r0, avg, "I found ");
    ContainsPrepend(r0, n, "I found ");
  }
}
