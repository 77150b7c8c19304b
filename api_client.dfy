/** The provider search behind the repository (`ServiceApiClient`): catalogue hits with their
    distance recomputed, topped up with generated stand-in providers when fewer than three are
    found, then filtered by radius and price and sorted nearest first. */
module ApiClient {
  import opened Models
  import opened Text
  import opened Lists
  import Random
  import Catalog

  /** The great-circle distance in km between two (latitude, longitude) points; the haversine
      formula is computed in floating point by the caller's platform. */
  type DistanceFn = (real, real, real, real) -> real

  /** The search radius used when the caller gives none, in km. */
  const DefaultRadius: real := 50.0

  // ---------------------------------------------------------------- catalogue hits

  /** Each record copied with its distance from `location`. */
  function WithDistance(ps: seq<ServiceProvider>, location: Location, distance: DistanceFn): (r: seq<ServiceProvider>)
    ensures |r| == |ps|
    ensures forall i :: 0 <= i < |ps| ==>
      r[i].distance == distance(location.latitude, location.longitude, ps[i].latitude, ps[i].longitude) &&
      r[i].(distance := ps[i].distance) == ps[i]
  {
    seq(|ps|, i requires 0 <= i < |ps| =>
      ps[i].(distance := distance(location.latitude, location.longitude, ps[i].latitude, ps[i].longitude)))
  }

  /** The catalogue records for the location's address and the service type, at their distance
      from the location. */
  function CatalogHits(serviceType: string, location: Location, distance: DistanceFn): seq<ServiceProvider> {
    WithDistance(Catalog.ProvidersByLocation(location.address, Some(serviceType)), location, distance)
  }

  /** Every catalogue hit is a catalogue record of the requested category (ignoring case), moved
      to its distance from the location. */
  lemma {:induction false} CatalogHitsAreCatalogueRecords(serviceType: string, location: Location,
                                                          distance: DistanceFn, i: nat)
    requires i < |CatalogHits(serviceType, location, distance)|
    ensures var h := CatalogHits(serviceType, location, distance)[i];
      h.(distance := Catalog.ProvidersByLocation(location.address, Some(serviceType))[i].distance) in
        Catalog.AllProviders() &&
      EqualsIgnoreCase(h.category, serviceType)
  {
    var ps := Catalog.ProvidersByLocation(location.address, Some(serviceType));
    assert ps[i] in ps;
    Catalog.CityProvidersInCatalog(location.address, ps[i]);
  }

  // ---------------------------------------------------------------- filter and order

  /** A provider is kept when it is within the radius and, if a price level was asked for, at
      that level. */
  predicate Keep(p: ServiceProvider, radius: real, priceLevel: Option<PriceLevel>) {
    p.distance <= radius && (priceLevel.None? || p.priceLevel == priceLevel.value)
  }

  /** Kotlin `filter { Keep(it) }`. */
  function FilterKept(ps: seq<ServiceProvider>, radius: real, priceLevel: Option<PriceLevel>): (r: seq<ServiceProvider>)
    ensures IsSubsequence(r, ps)
    ensures forall p :: p in r <==> p in ps && Keep(p, radius, priceLevel)
    decreases |ps|
  {
    if ps == [] then []
    else
      var rest := FilterKept(ps[1..], radius, priceLevel);
      assert forall p :: p in ps <==> p == ps[0] || p in ps[1..];
      if Keep(ps[0], radius, priceLevel) then [ps[0]] + rest else rest
  }

  /** The filter keeps every kept provider as often as the input holds it, and drops the rest. */
  lemma {:induction false} FilterKeptCounts(ps: seq<ServiceProvider>, radius: real, priceLevel: Option<PriceLevel>)
    ensures forall p ::
      multiset(FilterKept(ps, radius, priceLevel))[p] == (if Keep(p, radius, priceLevel) then multiset(ps)[p] else 0)
    decreases |ps|
  {
    if ps != [] {
      FilterKeptCounts(ps[1..], radius, priceLevel);
      assert ps == [ps[0]] + ps[1..];
    }
  }

  lemma {:induction false} FilterKeptAppend(a: seq<ServiceProvider>, b: seq<ServiceProvider>, radius: real,
                                            priceLevel: Option<PriceLevel>)
    ensures FilterKept(a + b, radius, priceLevel) == FilterKept(a, radius, priceLevel) + FilterKept(b, radius, priceLevel)
    decreases |a|
  {
    if a != [] {
      assert (a + b)[1..] == a[1..] + b;
      FilterKeptAppend(a[1..], b, radius, priceLevel);
    } else {
      assert a + b == b;
    }
  }

  lemma {:induction false} FilterKeptAll(ps: seq<ServiceProvider>, radius: real, priceLevel: Option<PriceLevel>)
    requires forall p :: p in ps ==> Keep(p, radius, priceLevel)
    ensures FilterKept(ps, radius, priceLevel) == ps
    decreases |ps|
  {
    if ps != [] {
      assert forall p :: p in ps[1..] ==> p in ps;
      FilterKeptAll(ps[1..], radius, priceLevel);
    }
  }

  function ByDistance(p: ServiceProvider): real { p.distance }

  /** The last step of `searchProviders`: keep the providers within the radius and at the price
      level, nearest first. */
  function Arrange(pool: seq<ServiceProvider>, radius: real, priceLevel: Option<PriceLevel>): seq<ServiceProvider> {
    SortBy(FilterKept(pool, radius, priceLevel), ByDistance)
  }

  /** The arranged list is nearest first, holds exactly the pool's providers that pass the
      filter, each as often as the pool holds it, and nothing else; providers at the same distance
      keep their order in the pool (`sortedBy` is stable). */
  lemma {:induction false} ArrangeCorrect(pool: seq<ServiceProvider>, radius: real, priceLevel: Option<PriceLevel>)
    ensures var r := Arrange(pool, radius, priceLevel);
      SortedBy(r, ByDistance) &&
      multiset(r) == multiset(FilterKept(pool, radius, priceLevel)) &&
      (forall p :: multiset(r)[p] == if Keep(p, radius, priceLevel) then multiset(pool)[p] else 0) &&
      (forall p :: p in r <==> p in pool && Keep(p, radius, priceLevel)) &&
      (forall p :: p in r ==> p.distance <= radius) &&
      (forall d :: WithKey(r, ByDistance, d) == WithKey(FilterKept(pool, radius, priceLevel), ByDistance, d))
  {
    var f := FilterKept(pool, radius, priceLevel);
    SortBySorted(f, ByDistance);
    FilterKeptCounts(pool, radius, priceLevel);
    forall d ensures WithKey(SortBy(f, ByDistance), ByDistance, d) == WithKey(f, ByDistance, d) {
      SortByStable(f, ByDistance, d);
    }
    var r := Arrange(pool, radius, priceLevel);
    forall p ensures p in r <==> p in f {
      assert p in r <==> p in multiset(r);
      assert p in f <==> p in multiset(f);
    }
  }

  // ---------------------------------------------------------------- generated stand-ins

  const Prefixes: seq<string> := ["Pro", "Expert", "Quality", "Reliable", "Premier", "Elite"]
  const Suffixes: seq<string> := ["Services", "Solutions", "Professionals", "Experts", "Co."]
  const Streets: seq<string> := ["Main St", "Oak Ave", "Park Blvd", "Center Dr", "Mill Rd"]

  /** The name of the stand-in at `index`: prefix, capitalised service type, suffix, and the
      one-based position. */
  function ProviderName(prefix: string, serviceType: string, suffix: string, index: nat): string {
    prefix + " " + Capitalize(serviceType) + " " + suffix + " " + NatToString(index + 1)
  }

  /** A stand-in's name ends in its one-based position, written in decimal after a space. */
  lemma {:induction false} ProviderNameEndsInPosition(prefix: string, serviceType: string, suffix: string, index: nat)
    ensures var name := ProviderName(prefix, serviceType, suffix, index);
      var digits := NatToString(index + 1);
      |name| > |digits| && name[|name| - |digits|..] == digits && name[|name| - |digits| - 1] == ' ' &&
      DigitsValue(digits) == index + 1
  {
    var front := prefix + " " + Capitalize(serviceType) + " " + suffix;
    var digits := NatToString(index + 1);
    var name := ProviderName(prefix, serviceType, suffix, index);
    assert name == front + " " + digits;
    assert name[|name| - |digits|..] == digits;
    NatToStringValue(index + 1);
  }

  /** `generateProviderName`. */
  method GenerateProviderName(serviceType: string, index: nat) returns (name: string)
    ensures exists prefix, suffix ::
      prefix in Prefixes && suffix in Suffixes && name == ProviderName(prefix, serviceType, suffix, index)
  {
    var prefix := Random.Pick(Prefixes);
    var suffix := Random.Pick(Suffixes);
    name := ProviderName(prefix, serviceType, suffix, index);
  }

  /** `generateAddress`: a house number and a street; the location and distance are not used. */
  method GenerateAddress(location: Location, distance: real) returns (address: string)
    ensures exists number, street ::
      100 <= number < 9999 && street in Streets && address == NatToString(number) + " " + street
  {
    var number := Random.NextInt(100, 9999);
    var street := Random.Pick(Streets);
    address := NatToString(number) + " " + street;
  }

  /** The quality phrase for a price level. */
  function Quality(priceLevel: PriceLevel): string {
    match priceLevel
    case Cheap => "affordable and reliable"
    case Mediocre => "quality"
    case Premium => "premium, top-rated"
  }

  /** The three price levels are described by three different phrases. */
  lemma QualityDistinguishesLevels(a: PriceLevel, b: PriceLevel)
    requires a != b
    ensures Quality(a) != Quality(b)
  {
    assert 'q' !in Quality(Cheap) && 'q' in Quality(Mediocre);
    assert 'p' !in Quality(Mediocre) && 'p' in Quality(Premium);
    assert 'f' !in Quality(Premium) && 'f' in Quality(Cheap);
  }

  /** The description of a stand-in with `experience` years. */
  function Description(serviceType: string, priceLevel: PriceLevel, experience: nat): string {
    "Professional " + (serviceType + (" service with " + (NatToString(experience) +
    (" years of experience. We provide " + (Quality(priceLevel) + " services to our customers.")))))
  }

  /** The description names the service type, the years of experience and the level's phrase. */
  lemma {:induction false} DescriptionMentions(serviceType: string, priceLevel: PriceLevel, experience: nat)
    ensures var d := Description(serviceType, priceLevel, experience);
      Contains(d, serviceType) && Contains(d, NatToString(experience)) && Contains(d, Quality(priceLevel))
  {
    var years := NatToString(experience);
    var q := Quality(priceLevel);
    var d4 := q + " services to our customers.";
    var d3 := " years of experience. We provide " + d4;
    var d2 := years + d3;
    var d1 := " service with " + d2;
    var d0 := serviceType + d1;
    ContainsFront(q, " services to our customers.");
    ContainsPrepend(d4, q, " years of experience. We provide ");
    ContainsPrepend(d3, q, years);
    ContainsFront(years, d3);
    ContainsPrepend(d2, q, " service with ");
    ContainsPrepend(d2, years, " service with ");
    ContainsPrepend(d1, q, serviceType);
    ContainsPrepend(d1, years, serviceType);
    ContainsFront(serviceType, d1);
    ContainsPrepend(d0, q, "Professional ");
    ContainsPrepend(d0, years, "Professional ");
    ContainsPrepend(d0, serviceType, "Professional ");
  }

  /** `generateDescription`. */
  method GenerateDescription(serviceType: string, priceLevel: PriceLevel) returns (description: string)
    ensures exists experience: nat ::
      5 <= experience < 30 && description == Description(serviceType, priceLevel, experience)
  {
    var experience := Random.NextInt(5, 30);
    description := Description(serviceType, priceLevel, experience);
  }

  /** The services offered per lower-case service type. */
  const ServiceMenus: map<string, seq<string>> := map[
    "plumber" := ["Emergency Repairs", "Installation", "Drain Cleaning", "Water Heater"],
    "tutor" := ["Math", "Science", "English", "Test Prep", "Homework Help"],
    "gym" := ["Personal Training", "Group Classes", "Cardio", "Weight Training"],
    "electrician" := ["Wiring", "Installation", "Repairs", "Inspection"],
    "repair" := ["Diagnostics", "Repairs", "Maintenance", "Warranty Work"],
    "cleaner" := ["House Cleaning", "Deep Cleaning", "Move-in/out", "Office Cleaning"],
    "mechanic" := ["Oil Change", "Brake Service", "Engine Repair", "Diagnostics"],
    "carpenter" := ["Custom Furniture", "Repairs", "Installation", "Renovation"],
    "painter" := ["Interior Painting", "Exterior Painting", "Touch-ups", "Wallpaper"],
    "locksmith" := ["Lock Installation", "Emergency Lockout", "Rekeying", "Security"]
  ]

  const GeneralServices: seq<string> := ["General Services", "Consultation"]

  /** `generateServices`: the menu of the service type, looked up ignoring case, or a general
      menu for an unknown type. */
  function GenerateServices(serviceType: string): seq<string> {
    var key := ToLower(serviceType);
    if key in ServiceMenus then ServiceMenus[key] else GeneralServices
  }

  /** A known service type gets its own four- or five-item menu, an unknown one the general
      two-item menu. */
  lemma GenerateServicesCases(serviceType: string)
    ensures ToLower(serviceType) in ServiceMenus ==>
      GenerateServices(serviceType) == ServiceMenus[ToLower(serviceType)] && 4 <= |GenerateServices(serviceType)| <= 5
    ensures ToLower(serviceType) !in ServiceMenus ==> GenerateServices(serviceType) == GeneralServices
  {
  }

  /** What every generated stand-in at position `index` satisfies. */
  ghost predicate IsStandIn(p: ServiceProvider, serviceType: string, location: Location,
                            priceLevel: Option<PriceLevel>, index: nat) {
    (exists prefix, suffix :: prefix in Prefixes && suffix in Suffixes &&
      p.name == ProviderName(prefix, serviceType, suffix, index)) &&
    p.category == serviceType &&
    3.0 <= p.rating < 5.0 &&
    10 <= p.reviewCount < 500 &&
    (priceLevel.Some? ==> p.priceLevel == priceLevel.value) &&
    0.5 <= p.distance < 15.0 &&
    (exists experience: nat :: 5 <= experience < 30 &&
      p.description == Description(serviceType, p.priceLevel, experience)) &&
    location.latitude - 0.1 <= p.latitude < location.latitude + 0.1 &&
    location.longitude - 0.1 <= p.longitude < location.longitude + 0.1 &&
    p.services == GenerateServices(serviceType) &&
    p.yearEstablished.Some? && 1990 <= p.yearEstablished.value < 2023
  }

  /** One iteration of `getMockProviders`: the stand-in at position `index`. */
  method MakeStandIn(serviceType: string, location: Location, priceLevel: Option<PriceLevel>, index: nat)
    returns (p: ServiceProvider)
    ensures IsStandIn(p, serviceType, location, priceLevel, index)
  {
    var price: PriceLevel;
    if priceLevel.Some? {
      price := priceLevel.value;
    } else {
      price := Random.Pick([Cheap, Mediocre, Premium]);
    }
    var distance := Random.NextDouble(0.5, 15.0);
    var id := Random.RandomUuid();
    var name := GenerateProviderName(serviceType, index);
    var unit := Random.NextFloat();
    var reviewCount := Random.NextInt(10, 500);
    var address := GenerateAddress(location, distance);
    var description := GenerateDescription(serviceType, price);
    var dLat := Random.NextDouble(-0.1, 0.1);
    var dLon := Random.NextDouble(-0.1, 0.1);
    var year := Random.NextInt(1990, 2023);
    var verified := Random.NextBoolean();
    p := ServiceProvider(
      id := id, name := name, category := serviceType, rating := unit * 2.0 + 3.0,
      reviewCount := reviewCount, priceLevel := price, address := address, distance := distance,
      description := description, latitude := location.latitude + dLat,
      longitude := location.longitude + dLon, services := GenerateServices(serviceType),
      yearEstablished := Some(year), isVerified := verified);
    ghost var prefix, suffix :| prefix in Prefixes && suffix in Suffixes &&
      name == ProviderName(prefix, serviceType, suffix, index);
    ghost var experience: nat :| 5 <= experience < 30 && description == Description(serviceType, price, experience);
    assert p.name == ProviderName(prefix, serviceType, suffix, index);
    assert p.description == Description(serviceType, p.priceLevel, experience);
  }

  /** `getMockProviders`: `count` stand-ins (none for a count below one). */
  method GetMockProviders(serviceType: string, location: Location, priceLevel: Option<PriceLevel>, count: int)
    returns (providers: seq<ServiceProvider>)
    ensures |providers| == if count < 0 then 0 else count
    ensures forall i :: 0 <= i < |providers| ==> IsStandIn(providers[i], serviceType, location, priceLevel, i)
  {
    providers := [];
    var n := if count < 0 then 0 else count;
    for index := 0 to n
      invariant |providers| == index
      invariant forall i :: 0 <= i < index ==> IsStandIn(providers[i], serviceType, location, priceLevel, i)
    {
      var p := MakeStandIn(serviceType, location, priceLevel, index);
      providers := providers + [p];
    }
  }

  /** A stand-in is never filtered out by a radius of 15 km or more: it is nearer than that and
      at the requested price level. */
  lemma StandInKept(p: ServiceProvider, serviceType: string, location: Location, priceLevel: Option<PriceLevel>,
                    index: nat, radius: real)
    requires IsStandIn(p, serviceType, location, priceLevel, index) && radius >= 15.0
    ensures Keep(p, radius, priceLevel)
  {
  }

  // ---------------------------------------------------------------- search

  /** The stand-ins a search adds: none when the catalogue gave three or more hits, otherwise
      enough to bring the pool to five. */
  ghost predicate TopUp(mocks: seq<ServiceProvider>, hits: seq<ServiceProvider>, serviceType: string,
                        location: Location, priceLevel: Option<PriceLevel>) {
    (|hits| >= 3 ==> mocks == []) &&
    (|hits| < 3 ==>
      |mocks| == 5 - |hits| &&
      forall i :: 0 <= i < |mocks| ==> IsStandIn(mocks[i], serviceType, location, priceLevel, i))
  }

  /** `searchProviders`. `mocks` names the generated stand-ins, which the caller cannot predict. */
  method SearchProviders(serviceType: string, location: Location, priceLevel: Option<PriceLevel>,
                         distance: DistanceFn, radius: real := DefaultRadius)
    returns (result: seq<ServiceProvider>, ghost mocks: seq<ServiceProvider>)
    ensures TopUp(mocks, CatalogHits(serviceType, location, distance), serviceType, location, priceLevel)
    ensures result == Arrange(CatalogHits(serviceType, location, distance) + mocks, radius, priceLevel)
  {
    var providers: seq<ServiceProvider> := [];
    var realProviders := Catalog.ProvidersByLocation(location.address, Some(serviceType));
    var providersWithDistance := WithDistance(realProviders, location, distance);
    ghost var hits := CatalogHits(serviceType, location, distance);
    assert providersWithDistance == hits;
    providers := providers + providersWithDistance;
    assert providers == hits;
    mocks := [];
    if |providers| < 3 {
      var extra := GetMockProviders(serviceType, location, priceLevel, 5 - |providers|);
      mocks := extra;
      providers := providers + extra;
    }
    assert providers == hits + mocks;
    result := SortBy(FilterKept(providers, radius, priceLevel), ByDistance);
  }

  /** With a radius of 15 km or more (the default is 50), a search whose catalogue hits number
      `k < 3` returns at least `5 - k` providers: every stand-in survives the filter. */
  lemma {:induction false} SearchKeepsStandIns(hits: seq<ServiceProvider>, mocks: seq<ServiceProvider>,
                                               serviceType: string, location: Location,
                                               priceLevel: Option<PriceLevel>, radius: real)
    requires TopUp(mocks, hits, serviceType, location, priceLevel) && |hits| < 3 && radius >= 15.0
    ensures |Arrange(hits + mocks, radius, priceLevel)| >= 5 - |hits|
    ensures forall m :: m in mocks ==> m in Arrange(hits + mocks, radius, priceLevel)
  {
    forall m | m in mocks ensures Keep(m, radius, priceLevel) {
      var i :| 0 <= i < |mocks| && mocks[i] == m;
      StandInKept(m, serviceType, location, priceLevel, i, radius);
    }
    FilterKeptAppend(hits, mocks, radius, priceLevel);
    FilterKeptAll(mocks, radius, priceLevel);
    var f := FilterKept(hits + mocks, radius, priceLevel);
    SortBySorted(f, ByDistance);
    assert |multiset(SortBy(f, ByDistance))| == |multiset(f)|;
    ArrangeCorrect(hits + mocks, radius, priceLevel);
  }

  // ---------------------------------------------------------------- details

  /** `getMockProviderDetails`: a fixed placeholder record carrying the requested id. */
  function MockProviderDetails(providerId: string): (r: ServiceProvider)
    ensures r.id == providerId
  {
    ServiceProvider(
      id := providerId, name := "Expert Service Pro", category := "plumber", rating := 4.5,
      reviewCount := 150, priceLevel := Mediocre, address := "123 Main Street, Downtown",
      distance := 2.5, description := "Professional service with 20+ years experience",
      latitude := 0.0, longitude := 0.0, services := ["Emergency Service", "Repairs", "Installation"],
      yearEstablished := Some(2003), isVerified := true)
  }

  /** `getProviderDetails`: the catalogue record with the id, or else the placeholder. */
  function ProviderDetails(providerId: string): Option<ServiceProvider> {
    match Catalog.ProviderById(providerId)
    case Some(p) => Some(p)
    case None => Some(MockProviderDetails(providerId))
  }

  /** Details are always found and always carry the requested id; the id of a catalogue record
      yields that record, any other id the placeholder. */
  lemma {:induction false} ProviderDetailsCases(providerId: string)
    ensures ProviderDetails(providerId).Some? && ProviderDetails(providerId).value.id == providerId
    ensures forall c :: c in Catalog.AllProviders() && c.id == providerId ==> ProviderDetails(providerId) == Some(c)
    ensures providerId !in Catalog.CatalogIdList ==> ProviderDetails(providerId) == Some(MockProviderDetails(providerId))
  {
    Catalog.ProviderByIdFindsRecord(providerId);
    if Catalog.ProviderById(providerId).Some? {
      var p := Catalog.ProviderById(providerId).value;
      var all := Catalog.AllProviders();
      assert Catalog.ProviderById(providerId) == Catalog.FindById(all, providerId);
    }
  }
}
