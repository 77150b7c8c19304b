/** The city picker of the location screen: the table of Indian cities, the search box's filter
    over it, and how a picked city or a typed address becomes a `Location`. */
module CityPicker {
  import opened Models
  import opened Text
  import opened Lists

  /** A selectable city with its coordinates (Kotlin Doubles, exact reals here). */
  datatype IndianCity = IndianCity(name: string, state: string, latitude: real, longitude: real)

  /** Rajasthan. */
  const RajasthanCities: seq<IndianCity> := [
    IndianCity("Jaipur", "Rajasthan", 26.9124, 75.7873),
    IndianCity("Kota", "Rajasthan", 25.2138, 75.8648),
    IndianCity("Ajmer", "Rajasthan", 26.4499, 74.6399),
    IndianCity("Bundi", "Rajasthan", 25.4305, 75.6499),
    IndianCity("Udaipur", "Rajasthan", 24.5854, 73.7125),
    IndianCity("Jodhpur", "Rajasthan", 26.2389, 73.0243),
    IndianCity("Bikaner", "Rajasthan", 28.0229, 73.3119),
    IndianCity("Alwar", "Rajasthan", 27.5530, 76.6346),
    IndianCity("Bharatpur", "Rajasthan", 27.2172, 77.4900),
    IndianCity("Sikar", "Rajasthan", 27.6119, 75.1397)
  ]

  /** Delhi NCR. */
  const DelhiNcrCities: seq<IndianCity> := [
    IndianCity("New Delhi", "Delhi", 28.6139, 77.2090),
    IndianCity("Noida", "Uttar Pradesh", 28.5355, 77.3910),
    IndianCity("Gurgaon", "Haryana", 28.4595, 77.0266),
    IndianCity("Faridabad", "Haryana", 28.4089, 77.3178),
    IndianCity("Ghaziabad", "Uttar Pradesh", 28.6692, 77.4538)
  ]

  /** Maharashtra. */
  const MaharashtraCities: seq<IndianCity> := [
    IndianCity("Mumbai", "Maharashtra", 19.0760, 72.8777),
    IndianCity("Pune", "Maharashtra", 18.5204, 73.8567),
    IndianCity("Nagpur", "Maharashtra", 21.1458, 79.0882),
    IndianCity("Nashik", "Maharashtra", 19.9975, 73.7898),
    IndianCity("Aurangabad", "Maharashtra", 19.8762, 75.3433)
  ]

  /** Karnataka. */
  const KarnatakaCities: seq<IndianCity> := [
    IndianCity("Bangalore", "Karnataka", 12.9716, 77.5946),
    IndianCity("Mysore", "Karnataka", 12.2958, 76.6394),
    IndianCity("Mangalore", "Karnataka", 12.9141, 74.8560),
    IndianCity("Hubli", "Karnataka", 15.3647, 75.1240)
  ]

  /** Tamil Nadu. */
  const TamilNaduCities: seq<IndianCity> := [
    IndianCity("Chennai", "Tamil Nadu", 13.0827, 80.2707),
    IndianCity("Coimbatore", "Tamil Nadu", 11.0168, 76.9558),
    IndianCity("Madurai", "Tamil Nadu", 9.9252, 78.1198),
    IndianCity("Trichy", "Tamil Nadu", 10.7905, 78.7047)
  ]

  /** West Bengal. */
  const WestBengalCities: seq<IndianCity> := [
    IndianCity("Kolkata", "West Bengal", 22.5726, 88.3639),
    IndianCity("Howrah", "West Bengal", 22.5958, 88.2636),
    IndianCity("Siliguri", "West Bengal", 26.7271, 88.3953)
  ]

  /** Gujarat. */
  const GujaratCities: seq<IndianCity> := [
    IndianCity("Ahmedabad", "Gujarat", 23.0225, 72.5714),
    IndianCity("Surat", "Gujarat", 21.1702, 72.8311),
    IndianCity("Vadodara", "Gujarat", 22.3072, 73.1812),
    IndianCity("Rajkot", "Gujarat", 22.3039, 70.8022)
  ]

  /** Telangana & Andhra Pradesh. */
  const TelanganaAndhraCities: seq<IndianCity> := [
    IndianCity("Hyderabad", "Telangana", 17.3850, 78.4867),
    IndianCity("Visakhapatnam", "Andhra Pradesh", 17.6868, 83.2185),
    IndianCity("Vijayawada", "Andhra Pradesh", 16.5062, 80.6480)
  ]

  /** Kerala. */
  const KeralaCities: seq<IndianCity> := [
    IndianCity("Kochi", "Kerala", 9.9312, 76.2673),
    IndianCity("Thiruvananthapuram", "Kerala", 8.5241, 76.9366),
    IndianCity("Kozhikode", "Kerala", 11.2588, 75.7804)
  ]

  /** Uttar Pradesh. */
  const UttarPradeshCities: seq<IndianCity> := [
    IndianCity("Lucknow", "Uttar Pradesh", 26.8467, 80.9462),
    IndianCity("Kanpur", "Uttar Pradesh", 26.4499, 80.3319),
    IndianCity("Agra", "Uttar Pradesh", 27.1767, 78.0081),
    IndianCity("Varanasi", "Uttar Pradesh", 25.3176, 82.9739),
    IndianCity("Meerut", "Uttar Pradesh", 28.9845, 77.7064)
  ]

  /** Madhya Pradesh. */
  const MadhyaPradeshCities: seq<IndianCity> := [
    IndianCity("Indore", "Madhya Pradesh", 22.7196, 75.8577),
    IndianCity("Bhopal", "Madhya Pradesh", 23.2599, 77.4126),
    IndianCity("Gwalior", "Madhya Pradesh", 26.2183, 78.1828),
    IndianCity("Jabalpur", "Madhya Pradesh", 23.1815, 79.9864)
  ]

  /** Punjab & Haryana. */
  const PunjabHaryanaCities: seq<IndianCity> := [
    IndianCity("Chandigarh", "Chandigarh", 30.7333, 76.7794),
    IndianCity("Ludhiana", "Punjab", 30.9010, 75.8573),
    IndianCity("Amritsar", "Punjab", 31.6340, 74.8723),
    IndianCity("Jalandhar", "Punjab", 31.3260, 75.5762)
  ]

  /** Bihar & Jharkhand. */
  const BiharJharkhandCities: seq<IndianCity> := [
    IndianCity("Patna", "Bihar", 25.5941, 85.1376),
    IndianCity("Ranchi", "Jharkhand", 23.3441, 85.3096),
    IndianCity("Jamshedpur", "Jharkhand", 22.8046, 86.2029)
  ]

  /** Odisha. */
  const OdishaCities: seq<IndianCity> := [
    IndianCity("Bhubaneswar", "Odisha", 20.2961, 85.8245),
    IndianCity("Cuttack", "Odisha", 20.5124, 85.8829)
  ]

  /** Assam & Northeast. */
  const AssamNortheastCities: seq<IndianCity> := [
    IndianCity("Guwahati", "Assam", 26.1445, 91.7362),
    IndianCity("Imphal", "Manipur", 24.8170, 93.9368)
  ]

  /** Uttarakhand. */
  const UttarakhandCities: seq<IndianCity> := [
    IndianCity("Dehradun", "Uttarakhand", 30.3165, 78.0322),
    IndianCity("Haridwar", "Uttarakhand", 29.9457, 78.1642)
  ]

  /** Every entry after the Rajasthan group, region by region. */
  const OtherCities: seq<IndianCity> :=
    DelhiNcrCities + MaharashtraCities + KarnatakaCities + TamilNaduCities + WestBengalCities
    + GujaratCities + TelanganaAndhraCities + KeralaCities + UttarPradeshCities
    + MadhyaPradeshCities + PunjabHaryanaCities + BiharJharkhandCities + OdishaCities
    + AssamNortheastCities + UttarakhandCities

  /** `indianCities`: the regional groups in order. */
  const IndianCities: seq<IndianCity> := RajasthanCities + OtherCities

  /** The search box matches a city when its name or its state contains the query, ignoring case. */
  predicate Matches(city: IndianCity, query: string) {
    ContainsIgnoreCase(city.name, query) || ContainsIgnoreCase(city.state, query)
  }

  /** Kotlin `cities.filter { matches }`. */
  function FilterCities(cities: seq<IndianCity>, query: string): (r: seq<IndianCity>)
    ensures IsSubsequence(r, cities)
    ensures forall c :: c in r <==> c in cities && Matches(c, query)
    decreases |cities|
  {
    if cities == [] then []
    else
      var rest := FilterCities(cities[1..], query);
      assert forall c :: c in cities <==> c == cities[0] || c in cities[1..];
      if Matches(cities[0], query) then [cities[0]] + rest else rest
  }

  /** The filter keeps every matching city as often as the input holds it, and drops the rest. */
  lemma {:induction false} FilterCitiesCounts(cities: seq<IndianCity>, query: string)
    ensures forall c ::
      multiset(FilterCities(cities, query))[c] == (if Matches(c, query) then multiset(cities)[c] else 0)
    decreases |cities|
  {
    if cities != [] {
      FilterCitiesCounts(cities[1..], query);
      assert cities == [cities[0]] + cities[1..];
    }
  }

  /** `filteredCities`: every city for a blank query, else the matching ones in table order. */
  function FilteredCities(query: string): (r: seq<IndianCity>)
    ensures IsBlank(query) ==> r == IndianCities
    ensures !IsBlank(query) ==> IsSubsequence(r, IndianCities)
    ensures !IsBlank(query) ==> forall c :: c in r <==> c in IndianCities && Matches(c, query)
  {
    if IsBlank(query) then IndianCities else FilterCities(IndianCities, query)
  }

  /** Filtering distributes over the regional groups. */
  lemma {:induction false} FilterAppend(a: seq<IndianCity>, b: seq<IndianCity>, query: string)
    ensures FilterCities(a + b, query) == FilterCities(a, query) + FilterCities(b, query)
    decreases |a|
  {
    if a == [] {
      assert a + b == b;
    } else {
      assert (a + b)[0] == a[0];
      assert (a + b)[1..] == a[1..] + b;
      FilterAppend(a[1..], b, query);
    }
  }

  /** A group all of whose cities match passes the filter whole. */
  lemma {:induction false} AllMatch(cities: seq<IndianCity>, query: string)
    requires forall c :: c in cities ==> Matches(c, query)
    ensures FilterCities(cities, query) == cities
    decreases |cities|
  {
    if cities != [] {
      assert cities[0] in cities;
      assert forall c :: c in cities[1..] ==> c in cities;
      AllMatch(cities[1..], query);
    }
  }

  /** The location a picked city sets: its coordinates and the address "name, state, India". */
  function CityLocation(city: IndianCity): (l: Location)
    ensures l.latitude == city.latitude && l.longitude == city.longitude
    ensures city.name + ", " <= l.address
    ensures Contains(l.address, city.state)
    ensures |l.address| >= 7 && l.address[|l.address| - 7..] == ", India"
  {
    ContainsMiddle(city.name + ", ", city.state, ", India");
    Location(city.latitude, city.longitude, city.name + ", " + city.state + ", India")
  }

  /** The coordinates used for a typed address. */
  const ManualLatitude: real := 28.6139
  const ManualLongitude: real := 77.2090

  /** Manual entry: a blank address is refused; any other is taken as typed, placed at the
      fixed coordinates. */
  function ManualLocation(address: string): (r: Option<Location>)
    ensures r.Some? <==> !IsBlank(address)
    ensures r.Some? ==> r.value.address == address
    ensures r.Some? ==> r.value.latitude == ManualLatitude && r.value.longitude == ManualLongitude
  {
    if IsBlank(address) then None else Some(Location(ManualLatitude, ManualLongitude, address))
  }

  /** A typed address is placed at New Delhi's entry in the city table. */
  lemma ManualEntryIsPlacedAtNewDelhi(address: string)
    requires !IsBlank(address)
    ensures exists c :: (c in IndianCities && c.name == "New Delhi" &&
                         ManualLocation(address).value.latitude == c.latitude &&
                         ManualLocation(address).value.longitude == c.longitude)
  {
    var c := DelhiNcrCities[0];
    assert c in IndianCities;
  }
}
