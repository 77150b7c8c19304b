/** The built-in catalogue of Indian service providers (`IndianServiceProvidersData`): seven city
    groups of hand-written records and the lookups over them. */
module Catalog {
  import opened Models
  import opened Text
  import opened Lists

  const JaipurProviders: seq<ServiceProvider> := [
    ServiceProvider(
      id := "jpr_plmb_001", name := "Rajasthan Plumbing Services", category := "plumber",
      rating := 4.5, reviewCount := 287, priceLevel := Mediocre,
      address := "C-Scheme, Jaipur, Rajasthan", distance := 2.3,
      description := "Professional plumbing services with 15+ years experience in Jaipur. 24/7 emergency services available.",
      latitude := 26.9124, longitude := 75.7873,
      services := ["Pipe Repairs", "Water Tank Installation", "Bathroom Fitting", "Drain Cleaning"],
      yearEstablished := Some(2008), isVerified := true),
    ServiceProvider(
      id := "jpr_plmb_002", name := "Quick Fix Plumbers", category := "plumber",
      rating := 4.2, reviewCount := 156, priceLevel := Cheap,
      address := "Malviya Nagar, Jaipur, Rajasthan", distance := 3.8,
      description := "Affordable and reliable plumbing solutions for residential and commercial properties.",
      latitude := 26.8523, longitude := 75.8154,
      services := ["Emergency Repairs", "Installation", "Maintenance"],
      yearEstablished := Some(2015), isVerified := false),
    ServiceProvider(
      id := "jpr_tut_001", name := "Allen Career Institute", category := "tutor",
      rating := 4.8, reviewCount := 1250, priceLevel := Premium,
      address := "Jawahar Nagar, Jaipur, Rajasthan", distance := 4.5,
      description := "Premier coaching institute for IIT-JEE, NEET, and other competitive exams. Experienced faculty.",
      latitude := 26.9389, longitude := 75.8042,
      services := ["IIT-JEE Coaching", "NEET Preparation", "Class 11-12 Tuition", "Online Classes"],
      yearEstablished := Some(1988), isVerified := true),
    ServiceProvider(
      id := "jpr_tut_002", name := "Wisdom Tree Academy", category := "tutor",
      rating := 4.3, reviewCount := 342, priceLevel := Mediocre,
      address := "Vaishali Nagar, Jaipur, Rajasthan", distance := 5.2,
      description := "Quality education for Class 6-12, all subjects. Personal attention to each student.",
      latitude := 26.9146, longitude := 75.7273,
      services := ["Mathematics", "Science", "English", "Homework Help"],
      yearEstablished := Some(2012), isVerified := true),
    ServiceProvider(
      id := "jpr_gym_001", name := "Gold's Gym Jaipur", category := "gym",
      rating := 4.6, reviewCount := 567, priceLevel := Premium,
      address := "Malviya Nagar, Jaipur, Rajasthan", distance := 3.1,
      description := "World-class fitness center with modern equipment, personal trainers, and group classes.",
      latitude := 26.8489, longitude := 75.8147,
      services := ["Weight Training", "Cardio", "Zumba", "Personal Training", "Yoga"],
      yearEstablished := Some(2010), isVerified := true)
  ]

  const KotaProviders: seq<ServiceProvider> := [
    ServiceProvider(
      id := "kta_tut_001", name := "Resonance Kota", category := "tutor",
      rating := 4.7, reviewCount := 2145, priceLevel := Premium,
      address := "Commerce College Road, Kota, Rajasthan", distance := 1.8,
      description := "Top-ranked coaching institute for IIT-JEE and NEET. Excellent results and experienced faculty.",
      latitude := 25.2138, longitude := 75.8648,
      services := ["IIT-JEE", "NEET", "JEE Advanced", "Foundation Courses"],
      yearEstablished := Some(2001), isVerified := true),
    ServiceProvider(
      id := "kta_tut_002", name := "Vibrant Academy", category := "tutor",
      rating := 4.6, reviewCount := 1876, priceLevel := Premium,
      address := "Indra Vihar, Kota, Rajasthan", distance := 2.5,
      description := "Premier coaching institute with high success rate in IIT-JEE and other engineering entrance exams.",
      latitude := 25.1827, longitude := 75.8345,
      services := ["JEE Main", "JEE Advanced", "BITSAT", "Foundation"],
      yearEstablished := Some(2008), isVerified := true),
    ServiceProvider(
      id := "kta_tut_003", name := "Motion IIT-JEE", category := "tutor",
      rating := 4.5, reviewCount := 1543, priceLevel := Premium,
      address := "Talwandi, Kota, Rajasthan", distance := 3.2,
      description := "Comprehensive coaching for IIT-JEE with innovative teaching methods and study material.",
      latitude := 25.2456, longitude := 75.8912,
      services := ["IIT-JEE Main", "JEE Advanced", "Online Batches", "Test Series"],
      yearEstablished := Some(2007), isVerified := true),
    ServiceProvider(
      id := "kta_gym_001", name := "Fitness First Kota", category := "gym",
      rating := 4.3, reviewCount := 234, priceLevel := Mediocre,
      address := "Gumanpura, Kota, Rajasthan", distance := 2.1,
      description := "Modern gym with quality equipment. Special student packages available.",
      latitude := 25.1952, longitude := 75.8511,
      services := ["Weight Training", "Cardio", "Personal Training", "Diet Consultation"],
      yearEstablished := Some(2014), isVerified := true),
    ServiceProvider(
      id := "kta_plmb_001", name := "Kota Plumbing Solutions", category := "plumber",
      rating := 4.1, reviewCount := 178, priceLevel := Cheap,
      address := "Dadabari, Kota, Rajasthan", distance := 1.5,
      description := "Quick and affordable plumbing services for hostels and residential areas.",
      latitude := 25.1673, longitude := 75.8242,
      services := ["Pipe Repairs", "Tap Fixing", "Water Heater Installation", "Emergency Services"],
      yearEstablished := Some(2016), isVerified := false)
  ]

  const AjmerProviders: seq<ServiceProvider> := [
    ServiceProvider(
      id := "ajm_plmb_001", name := "Ajmer Plumbing & Sanitary", category := "plumber",
      rating := 4.4, reviewCount := 145, priceLevel := Mediocre,
      address := "Kaiserganj, Ajmer, Rajasthan", distance := 1.9,
      description := "Professional plumbing and sanitary services for homes and businesses.",
      latitude := 26.4499, longitude := 74.6399,
      services := ["Plumbing", "Sanitary Fitting", "Bathroom Renovation", "Water Supply"],
      yearEstablished := Some(2010), isVerified := true),
    ServiceProvider(
      id := "ajm_tut_001", name := "Disha Institute Ajmer", category := "tutor",
      rating := 4.2, reviewCount := 289, priceLevel := Mediocre,
      address := "Vaishali Nagar, Ajmer, Rajasthan", distance := 2.3,
      description := "Coaching for competitive exams and school students. Experienced teachers.",
      latitude := 26.4356, longitude := 74.6587,
      services := ["Class 8-12 Tuition", "IIT Foundation", "NEET Foundation", "Board Exam Prep"],
      yearEstablished := Some(2013), isVerified := true),
    ServiceProvider(
      id := "ajm_gym_001", name := "Powerhouse Gym Ajmer", category := "gym",
      rating := 4.3, reviewCount := 198, priceLevel := Mediocre,
      address := "Civil Lines, Ajmer, Rajasthan", distance := 1.7,
      description := "Well-equipped gym with professional trainers and fitness programs.",
      latitude := 26.4621, longitude := 74.6398,
      services := ["Weight Training", "Cardio", "CrossFit", "Aerobics"],
      yearEstablished := Some(2015), isVerified := true)
  ]

  const BundiProviders: seq<ServiceProvider> := [
    ServiceProvider(
      id := "bnd_plmb_001", name := "Bundi Home Services", category := "plumber",
      rating := 4.0, reviewCount := 67, priceLevel := Cheap,
      address := "Sadar Bazaar, Bundi, Rajasthan", distance := 1.2,
      description := "Local plumbing and repair services. Quick response and affordable rates.",
      latitude := 25.4305, longitude := 75.6499,
      services := ["Plumbing Repairs", "Installation", "Maintenance"],
      yearEstablished := Some(2018), isVerified := false),
    ServiceProvider(
      id := "bnd_tut_001", name := "Bundi Tutorial Center", category := "tutor",
      rating := 4.1, reviewCount := 123, priceLevel := Cheap,
      address := "Near Palace Road, Bundi, Rajasthan", distance := 0.8,
      description := "Home tuition and group classes for school students. All subjects covered.",
      latitude := 25.4421, longitude := 75.6378,
      services := ["Class 6-10 Tuition", "Science", "Mathematics", "English"],
      yearEstablished := Some(2016), isVerified := false),
    ServiceProvider(
      id := "bnd_gym_001", name := "Fitness Zone Bundi", category := "gym",
      rating := 3.9, reviewCount := 89, priceLevel := Cheap,
      address := "Railway Station Road, Bundi, Rajasthan", distance := 1.5,
      description := "Budget-friendly gym with basic equipment and friendly atmosphere.",
      latitude := 25.4187, longitude := 75.6542,
      services := ["Weight Training", "Cardio", "Group Training"],
      yearEstablished := Some(2019), isVerified := false)
  ]

  const DelhiProviders: seq<ServiceProvider> := [
    ServiceProvider(
      id := "del_plmb_001", name := "Delhi Plumbing Experts", category := "plumber",
      rating := 4.6, reviewCount := 892, priceLevel := Mediocre,
      address := "Connaught Place, New Delhi", distance := 2.5,
      description := "Trusted plumbing services in Delhi NCR. 24/7 emergency support.",
      latitude := 28.6139, longitude := 77.2090,
      services := ["Emergency Plumbing", "Bathroom Fitting", "Water Heater", "Pipe Repairs"],
      yearEstablished := Some(2005), isVerified := true),
    ServiceProvider(
      id := "del_gym_001", name := "Cult.fit Delhi", category := "gym",
      rating := 4.7, reviewCount := 1456, priceLevel := Premium,
      address := "Saket, New Delhi", distance := 8.5,
      description := "Premium fitness center with modern equipment, group classes, and expert trainers.",
      latitude := 28.5244, longitude := 77.2066,
      services := ["Strength Training", "Cardio", "Yoga", "Dance Fitness", "Personal Training"],
      yearEstablished := Some(2016), isVerified := true),
    ServiceProvider(
      id := "del_tut_001", name := "Sri Chaitanya Delhi", category := "tutor",
      rating := 4.5, reviewCount := 678, priceLevel := Premium,
      address := "Kalu Sarai, New Delhi", distance := 7.2,
      description := "Excellence in IIT-JEE and NEET coaching. Proven track record.",
      latitude := 28.5321, longitude := 77.2145,
      services := ["IIT-JEE", "NEET", "Foundation", "Test Series"],
      yearEstablished := Some(2010), isVerified := true)
  ]

  const MumbaiProviders: seq<ServiceProvider> := [
    ServiceProvider(
      id := "mum_plmb_001", name := "Mumbai Plumbing Services", category := "plumber",
      rating := 4.5, reviewCount := 1234, priceLevel := Premium,
      address := "Andheri West, Mumbai, Maharashtra", distance := 3.4,
      description := "Premium plumbing services for residential and commercial buildings in Mumbai.",
      latitude := 19.0760, longitude := 72.8777,
      services := ["Plumbing", "Drainage", "Water Tank Cleaning", "Installation"],
      yearEstablished := Some(2008), isVerified := true),
    ServiceProvider(
      id := "mum_gym_001", name := "Talwalkars Gym Mumbai", category := "gym",
      rating := 4.4, reviewCount := 987, priceLevel := Mediocre,
      address := "Bandra West, Mumbai, Maharashtra", distance := 5.6,
      description := "One of India's largest gym chains with state-of-the-art facilities.",
      latitude := 19.0596, longitude := 72.8295,
      services := ["Weight Training", "Cardio", "Steam & Sauna", "Personal Training"],
      yearEstablished := Some(2002), isVerified := true)
  ]

  const BangaloreProviders: seq<ServiceProvider> := [
    ServiceProvider(
      id := "blr_plmb_001", name := "Bangalore Plumbing Co.", category := "plumber",
      rating := 4.6, reviewCount := 756, priceLevel := Mediocre,
      address := "Koramangala, Bangalore, Karnataka", distance := 4.2,
      description := "Professional plumbing solutions for homes and offices. Quick service guaranteed.",
      latitude := 12.9716, longitude := 77.5946,
      services := ["Plumbing Repairs", "Bathroom Fitting", "Water Purifier Installation"],
      yearEstablished := Some(2012), isVerified := true),
    ServiceProvider(
      id := "blr_gym_001", name := "Fitness One Bangalore", category := "gym",
      rating := 4.5, reviewCount := 892, priceLevel := Premium,
      address := "Indiranagar, Bangalore, Karnataka", distance := 6.3,
      description := "Premium fitness center with certified trainers and modern equipment.",
      latitude := 12.9716, longitude := 77.6412,
      services := ["Weight Training", "Functional Training", "Zumba", "Boxing", "Yoga"],
      yearEstablished := Some(2015), isVerified := true),
    ServiceProvider(
      id := "blr_tut_001", name := "BYJU'S Learning Center", category := "tutor",
      rating := 4.4, reviewCount := 1567, priceLevel := Premium,
      address := "Whitefield, Bangalore, Karnataka", distance := 12.5,
      description := "India's leading ed-tech company offering personalized learning programs.",
      latitude := 12.9698, longitude := 77.7500,
      services := ["Class 4-12 Tuition", "IIT-JEE", "NEET", "UPSC", "Online Learning"],
      yearEstablished := Some(2011), isVerified := true)
  ]

  /** The city names the location lookup tries, in the order it tries them. */
  const CityNames: seq<string> := ["Jaipur", "Kota", "Ajmer", "Bundi", "Delhi", "Mumbai", "Bangalore"]

  /** The provider group of each entry of `CityNames`. */
  const CityGroups: seq<seq<ServiceProvider>> :=
    [JaipurProviders, KotaProviders, AjmerProviders, BundiProviders, DelhiProviders, MumbaiProviders,
     BangaloreProviders]

  /** The group chosen for a free-text city name: the first city whose name occurs in it, ignoring
      case; no group when none does. */
  function CityProviders(cityName: string): seq<ServiceProvider> {
    if ContainsIgnoreCase(cityName, "Jaipur") then JaipurProviders
    else if ContainsIgnoreCase(cityName, "Kota") then KotaProviders
    else if ContainsIgnoreCase(cityName, "Ajmer") then AjmerProviders
    else if ContainsIgnoreCase(cityName, "Bundi") then BundiProviders
    else if ContainsIgnoreCase(cityName, "Delhi") then DelhiProviders
    else if ContainsIgnoreCase(cityName, "Mumbai") then MumbaiProviders
    else if ContainsIgnoreCase(cityName, "Bangalore") then BangaloreProviders
    else []
  }

  /** The `when` chain is a first-match search over the city table: the group of city `i` is
      chosen exactly when city `i` matches and no earlier city does, and nothing is chosen when
      no city matches. */
  lemma CityProvidersIsFirstMatch(cityName: string)
    ensures forall i :: 0 <= i < |CityNames| ==>
      (ContainsIgnoreCase(cityName, CityNames[i]) &&
       (forall j :: 0 <= j < i ==> !ContainsIgnoreCase(cityName, CityNames[j]))) ==>
      CityProviders(cityName) == CityGroups[i]
    ensures (forall j :: 0 <= j < |CityNames| ==> !ContainsIgnoreCase(cityName, CityNames[j])) ==>
      CityProviders(cityName) == []
  {
    var m := |CityNames|;
    assert m == 7;
    forall i | 0 <= i < m && ContainsIgnoreCase(cityName, CityNames[i]) &&
      (forall j :: 0 <= j < i ==> !ContainsIgnoreCase(cityName, CityNames[j]))
      ensures CityProviders(cityName) == CityGroups[i]
    {
      assert i == 0 || !ContainsIgnoreCase(cityName, CityNames[0]);
      assert i <= 1 || !ContainsIgnoreCase(cityName, CityNames[1]);
      assert i <= 2 || !ContainsIgnoreCase(cityName, CityNames[2]);
      assert i <= 3 || !ContainsIgnoreCase(cityName, CityNames[3]);
      assert i <= 4 || !ContainsIgnoreCase(cityName, CityNames[4]);
      assert i <= 5 || !ContainsIgnoreCase(cityName, CityNames[5]);
    }
    if forall j :: 0 <= j < m ==> !ContainsIgnoreCase(cityName, CityNames[j]) {
      assert !ContainsIgnoreCase(cityName, CityNames[0]) && !ContainsIgnoreCase(cityName, CityNames[1]);
      assert !ContainsIgnoreCase(cityName, CityNames[2]) && !ContainsIgnoreCase(cityName, CityNames[3]);
      assert !ContainsIgnoreCase(cityName, CityNames[4]) && !ContainsIgnoreCase(cityName, CityNames[5]);
      assert !ContainsIgnoreCase(cityName, CityNames[6]);
    }
  }

  /** Kotlin `filter { it.category.equals(category, ignoreCase = true) }`. */
  function FilterCategory(ps: seq<ServiceProvider>, category: string): (r: seq<ServiceProvider>)
    ensures IsSubsequence(r, ps)
    ensures forall p :: p in r <==> p in ps && EqualsIgnoreCase(p.category, category)
    decreases |ps|
  {
    if ps == [] then []
    else
      var rest := FilterCategory(ps[1..], category);
      assert forall p :: p in ps <==> p == ps[0] || p in ps[1..];
      if EqualsIgnoreCase(ps[0].category, category) then [ps[0]] + rest else rest
  }

  /** The filter keeps every record of the category as often as the input holds it, and drops
      the rest. */
  lemma {:induction false} FilterCategoryCounts(ps: seq<ServiceProvider>, category: string)
    ensures forall p ::
      multiset(FilterCategory(ps, category))[p] == (if EqualsIgnoreCase(p.category, category) then multiset(ps)[p] else 0)
    decreases |ps|
  {
    if ps != [] {
      FilterCategoryCounts(ps[1..], category);
      assert ps == [ps[0]] + ps[1..];
    }
  }

  /** `getProvidersByLocation(cityName, category)`: the city's group, narrowed to one category
      (ignoring case) when a category is given. */
  function ProvidersByLocation(cityName: string, category: Option<string>): (r: seq<ServiceProvider>)
    ensures IsSubsequence(r, CityProviders(cityName))
    ensures forall p :: p in r <==>
      (p in CityProviders(cityName) && (category.Some? ==> EqualsIgnoreCase(p.category, category.value)))
    ensures category.None? ==> r == CityProviders(cityName)
  {
    if category.Some? then FilterCategory(CityProviders(cityName), category.value)
    else CityProviders(cityName)
  }

  /** Kotlin `map { it.category }`. */
  function Categories(ps: seq<ServiceProvider>): (r: seq<string>)
    ensures |r| == |ps| && forall i :: 0 <= i < |ps| ==> r[i] == ps[i].category
  {
    seq(|ps|, i requires 0 <= i < |ps| => ps[i].category)
  }

  /** `getAvailableCategories(cityName)`: each category of the city's group once, in order of
      first appearance. */
  function AvailableCategories(cityName: string): (r: seq<string>)
    ensures forall c :: c in r <==> exists p :: p in CityProviders(cityName) && p.category == c
    ensures forall i, j :: 0 <= i < j < |r| ==> r[i] != r[j]
  {
    var cs := Categories(ProvidersByLocation(cityName, None));
    assert forall c :: c in cs <==> exists p :: p in CityProviders(cityName) && p.category == c by {
      forall c ensures c in cs <==> exists p :: p in CityProviders(cityName) && p.category == c {
        if c in cs {
          var i :| 0 <= i < |cs| && cs[i] == c;
          assert CityProviders(cityName)[i] in CityProviders(cityName);
        }
        if exists p :: p in CityProviders(cityName) && p.category == c {
          var p :| p in CityProviders(cityName) && p.category == c;
          var i :| 0 <= i < |CityProviders(cityName)| && CityProviders(cityName)[i] == p;
          assert cs[i] == c;
        }
      }
    }
    Distinct(cs)
  }

  /** `distinct()` keeps the categories in the order of their first appearance in the group. */
  lemma AvailableCategoriesOrder(cityName: string)
    ensures var cs := Categories(CityProviders(cityName));
      var r := AvailableCategories(cityName);
      (forall c :: c in r <==> c in cs) &&
      forall i, j :: 0 <= i < j < |r| ==> FirstIndex(cs, r[i]) < FirstIndex(cs, r[j])
  {
    var cs := Categories(CityProviders(cityName));
    assert AvailableCategories(cityName) == Distinct(cs);
    DistinctKeepsFirstOccurrenceOrder(cs);
  }

  /** Kotlin `find { it.id == id }`: the first record with that id, if any. */
  function FindById(ps: seq<ServiceProvider>, id: string): (r: Option<ServiceProvider>)
    ensures r.None? <==> forall p :: p in ps ==> p.id != id
    ensures r.Some? ==> exists k :: 0 <= k < |ps| && ps[k] == r.value && r.value.id == id &&
                                    forall j :: 0 <= j < k ==> ps[j].id != id
    decreases |ps|
  {
    if ps == [] then None
    else if ps[0].id == id then Some(ps[0])
    else
      var r := FindById(ps[1..], id);
      assert forall p :: p in ps <==> p == ps[0] || p in ps[1..];
      if r.Some? then
        var k :| 0 <= k < |ps| - 1 && ps[1..][k] == r.value && r.value.id == id &&
          forall j :: 0 <= j < k ==> ps[1..][j].id != id;
        assert ps[k + 1] == r.value;
        assert forall j :: 0 <= j < k + 1 ==> ps[j].id != id by {
          forall j | 0 <= j < k + 1 ensures ps[j].id != id {
            if j > 0 { assert ps[j] == ps[1..][j - 1]; }
          }
        }
        r
      else r
  }

  /** `getProviderById(providerId)`: a search of all seven groups, in group order. */
  function ProviderById(providerId: string): Option<ServiceProvider> {
    FindById(JaipurProviders + KotaProviders + AjmerProviders + BundiProviders + DelhiProviders +
      MumbaiProviders + BangaloreProviders, providerId)
  }

  /** `getAllProviders()`: the seven groups, in group order. */
  function AllProviders(): (r: seq<ServiceProvider>)
    ensures |r| == 24
  {
    JaipurProviders + KotaProviders + AjmerProviders + BundiProviders + DelhiProviders +
      MumbaiProviders + BangaloreProviders
  }

  /** Kotlin `map { it.id }`. */
  function Ids(ps: seq<ServiceProvider>): (r: seq<string>)
    ensures |r| == |ps| && forall i :: 0 <= i < |ps| ==> r[i] == ps[i].id
  {
    seq(|ps|, i requires 0 <= i < |ps| => ps[i].id)
  }

  lemma IdsAppend(a: seq<ServiceProvider>, b: seq<ServiceProvider>)
    ensures Ids(a + b) == Ids(a) + Ids(b)
  {
  }

  lemma CategoriesAppend(a: seq<ServiceProvider>, b: seq<ServiceProvider>)
    ensures Categories(a + b) == Categories(a) + Categories(b)
  {
  }

  lemma JaipurColumns()
    ensures Ids(JaipurProviders) == ["jpr_plmb_001", "jpr_plmb_002", "jpr_tut_001", "jpr_tut_002", "jpr_gym_001"]
    ensures Categories(JaipurProviders) == ["plumber", "plumber", "tutor", "tutor", "gym"]
  {
  }

  lemma KotaColumns()
    ensures Ids(KotaProviders) == ["kta_tut_001", "kta_tut_002", "kta_tut_003", "kta_gym_001", "kta_plmb_001"]
    ensures Categories(KotaProviders) == ["tutor", "tutor", "tutor", "gym", "plumber"]
  {
  }

  lemma AjmerColumns()
    ensures Ids(AjmerProviders) == ["ajm_plmb_001", "ajm_tut_001", "ajm_gym_001"]
    ensures Categories(AjmerProviders) == ["plumber", "tutor", "gym"]
  {
  }

  lemma BundiColumns()
    ensures Ids(BundiProviders) == ["bnd_plmb_001", "bnd_tut_001", "bnd_gym_001"]
    ensures Categories(BundiProviders) == ["plumber", "tutor", "gym"]
  {
  }

  lemma DelhiColumns()
    ensures Ids(DelhiProviders) == ["del_plmb_001", "del_gym_001", "del_tut_001"]
    ensures Categories(DelhiProviders) == ["plumber", "gym", "tutor"]
  {
  }

  lemma MumbaiColumns()
    ensures Ids(MumbaiProviders) == ["mum_plmb_001", "mum_gym_001"]
    ensures Categories(MumbaiProviders) == ["plumber", "gym"]
  {
  }

  lemma BangaloreColumns()
    ensures Ids(BangaloreProviders) == ["blr_plmb_001", "blr_gym_001", "blr_tut_001"]
    ensures Categories(BangaloreProviders) == ["plumber", "gym", "tutor"]
  {
  }

  lemma InSeven(x: ServiceProvider, a: seq<ServiceProvider>, b: seq<ServiceProvider>,
                 c: seq<ServiceProvider>, d: seq<ServiceProvider>, e: seq<ServiceProvider>,
                 f: seq<ServiceProvider>, g: seq<ServiceProvider>)
    requires x in a || x in b || x in c || x in d || x in e || x in f || x in g
    ensures x in a + b + c + d + e + f + g
  {
  }

  /** Whatever city is asked for, the records it yields are catalogue records. */
  lemma {:induction false} CityProvidersInCatalog(cityName: string, p: ServiceProvider)
    requires p in CityProviders(cityName)
    ensures p in AllProviders()
  {
    InSeven(p, JaipurProviders, KotaProviders, AjmerProviders, BundiProviders, DelhiProviders,
      MumbaiProviders, BangaloreProviders);
  }

  /** The ids of the whole catalogue, group by group. */
  const CatalogIdList: seq<string> :=
    ["jpr_plmb_001", "jpr_plmb_002", "jpr_tut_001", "jpr_tut_002", "jpr_gym_001",
     "kta_tut_001", "kta_tut_002", "kta_tut_003", "kta_gym_001", "kta_plmb_001",
     "ajm_plmb_001", "ajm_tut_001", "ajm_gym_001",
     "bnd_plmb_001", "bnd_tut_001", "bnd_gym_001",
     "del_plmb_001", "del_gym_001", "del_tut_001",
     "mum_plmb_001", "mum_gym_001",
     "blr_plmb_001", "blr_gym_001", "blr_tut_001"]

  /** The categories of the whole catalogue, group by group. */
  const CatalogCategoryList: seq<string> :=
    ["plumber", "plumber", "tutor", "tutor", "gym",
     "tutor", "tutor", "tutor", "gym", "plumber",
     "plumber", "tutor", "gym",
     "plumber", "tutor", "gym",
     "plumber", "gym", "tutor",
     "plumber", "gym",
     "plumber", "gym", "tutor"]

  /** The id column of a concatenation of seven groups. */
  lemma IdsOfSeven(a: seq<ServiceProvider>, b: seq<ServiceProvider>, c: seq<ServiceProvider>,
                   d: seq<ServiceProvider>, e: seq<ServiceProvider>, f: seq<ServiceProvider>,
                   g: seq<ServiceProvider>, ids: seq<string>)
    requires ids == Ids(a) + Ids(b) + Ids(c) + Ids(d) + Ids(e) + Ids(f) + Ids(g)
    ensures Ids(a + b + c + d + e + f + g) == ids
  {
    IdsAppend(a, b);
    IdsAppend(a + b, c);
    IdsAppend(a + b + c, d);
    IdsAppend(a + b + c + d, e);
    IdsAppend(a + b + c + d + e, f);
    IdsAppend(a + b + c + d + e + f, g);
  }

  /** The category column of a concatenation of seven groups. */
  lemma CategoriesOfSeven(a: seq<ServiceProvider>, b: seq<ServiceProvider>, c: seq<ServiceProvider>,
                          d: seq<ServiceProvider>, e: seq<ServiceProvider>, f: seq<ServiceProvider>,
                          g: seq<ServiceProvider>, cats: seq<string>)
    requires cats == Categories(a) + Categories(b) + Categories(c) + Categories(d) + Categories(e) +
      Categories(f) + Categories(g)
    ensures Categories(a + b + c + d + e + f + g) == cats
  {
    CategoriesAppend(a, b);
    CategoriesAppend(a + b, c);
    CategoriesAppend(a + b + c, d);
    CategoriesAppend(a + b + c + d, e);
    CategoriesAppend(a + b + c + d + e, f);
    CategoriesAppend(a + b + c + d + e + f, g);
  }

  lemma AllIds()
    ensures Ids(AllProviders()) == CatalogIdList
  {
    JaipurColumns();
    KotaColumns();
    AjmerColumns();
    BundiColumns();
    DelhiColumns();
    MumbaiColumns();
    BangaloreColumns();
    IdsOfSeven(JaipurProviders, KotaProviders, AjmerProviders, BundiProviders,
               DelhiProviders, MumbaiProviders, BangaloreProviders, CatalogIdList);
  }

  lemma AllCategories()
    ensures Categories(AllProviders()) == CatalogCategoryList
  {
    JaipurColumns();
    KotaColumns();
    AjmerColumns();
    BundiColumns();
    DelhiColumns();
    MumbaiColumns();
    BangaloreColumns();
    CategoriesOfSeven(JaipurProviders, KotaProviders, AjmerProviders, BundiProviders,
               DelhiProviders, MumbaiProviders, BangaloreProviders, CatalogCategoryList);
  }

  lemma DistinctColumnDistinctIds(ps: seq<ServiceProvider>, ids: seq<string>)
    requires Ids(ps) == ids && forall i, j :: 0 <= i < j < |ids| ==> ids[i] != ids[j]
    ensures forall i, j :: 0 <= i < j < |ps| ==> ps[i].id != ps[j].id
  {
    forall i, j | 0 <= i < j < |ps| ensures ps[i].id != ps[j].id {
      assert ids[i] == ps[i].id && ids[j] == ps[j].id;
    }
  }

  lemma CatalogIdListDistinct()
    ensures forall i, j :: 0 <= i < j < |CatalogIdList| ==> CatalogIdList[i] != CatalogIdList[j]
  {
  }

  /** No two catalogue records share an id. */
  lemma {:induction false} CatalogIdsDistinct()
    ensures forall i, j :: 0 <= i < j < |AllProviders()| ==> AllProviders()[i].id != AllProviders()[j].id
  {
    AllIds();
    CatalogIdListDistinct();
    DistinctColumnDistinctIds(AllProviders(), CatalogIdList);
  }

  /** In a list whose id column `ids` has no repeats, an id is found exactly when it is one of
      `ids`, and the id of any record yields that record. */
  lemma FindByIdInDistinct(ps: seq<ServiceProvider>, ids: seq<string>, providerId: string)
    requires Ids(ps) == ids
    requires forall i, j :: 0 <= i < j < |ps| ==> ps[i].id != ps[j].id
    ensures FindById(ps, providerId).Some? <==> providerId in ids
    ensures forall r :: r in ps && r.id == providerId ==> FindById(ps, providerId) == Some(r)
  {
    if providerId in ids {
      var k :| 0 <= k < |ids| && ids[k] == providerId;
      assert ps[k] in ps && ps[k].id == providerId;
    }
    if FindById(ps, providerId).Some? {
      var r := FindById(ps, providerId).value;
      var k :| 0 <= k < |ps| && ps[k] == r && r.id == providerId;
      assert ids[k] == providerId;
    }
    forall r | r in ps && r.id == providerId ensures FindById(ps, providerId) == Some(r) {
      var i :| 0 <= i < |ps| && ps[i] == r;
      var f := FindById(ps, providerId).value;
      var k :| 0 <= k < |ps| && ps[k] == f && f.id == providerId;
      assert i == k;
    }
  }

  /** The lookup scans the same concatenation `getAllProviders` returns; looking up the id of
      any catalogue record returns that record, and an id is found exactly when some catalogue
      record carries it. */
  lemma {:induction false} ProviderByIdFindsRecord(providerId: string)
    ensures ProviderById(providerId) == FindById(AllProviders(), providerId)
    ensures ProviderById(providerId).Some? <==> providerId in CatalogIdList
    ensures forall r :: r in AllProviders() && r.id == providerId ==> ProviderById(providerId) == Some(r)
  {
    AllIds();
    CatalogIdsDistinct();
    FindByIdInDistinct(AllProviders(), CatalogIdList, providerId);
  }

  /** Every catalogue record is in one of the app's three seeded categories. */
  lemma {:induction false} CatalogCategories(p: ServiceProvider)
    requires p in AllProviders()
    ensures p.category in {"plumber", "tutor", "gym"}
  {
    AllCategories();
    var k :| 0 <= k < |AllProviders()| && AllProviders()[k] == p;
    assert Categories(AllProviders())[k] == p.category;
  }

  /** A rating is a number of stars out of five. */
  ghost predicate RatedOutOfFive(ps: seq<ServiceProvider>) {
    forall p :: p in ps ==> 0.0 <= p.rating <= 5.0
  }

  lemma JaipurRated()
    ensures RatedOutOfFive(JaipurProviders)
  {
  }

  lemma KotaRated()
    ensures RatedOutOfFive(KotaProviders)
  {
  }

  lemma AjmerRated()
    ensures RatedOutOfFive(AjmerProviders)
  {
  }

  lemma BundiRated()
    ensures RatedOutOfFive(BundiProviders)
  {
  }

  lemma DelhiRated()
    ensures RatedOutOfFive(DelhiProviders)
  {
  }

  lemma MumbaiRated()
    ensures RatedOutOfFive(MumbaiProviders)
  {
  }

  lemma BangaloreRated()
    ensures RatedOutOfFive(BangaloreProviders)
  {
  }

  /** Every catalogue record is rated between zero and five stars. */
  lemma {:induction false} CatalogRatings(p: ServiceProvider)
    requires p in AllProviders()
    ensures 0.0 <= p.rating <= 5.0
  {
    JaipurRated();
    KotaRated();
    AjmerRated();
    BundiRated();
    DelhiRated();
    MumbaiRated();
    BangaloreRated();
    assert p in JaipurProviders || p in KotaProviders || p in AjmerProviders || p in BundiProviders ||
           p in DelhiProviders || p in MumbaiProviders || p in BangaloreProviders;
  }

  /** The free text "Kota" selects the Kota group. */
  lemma KotaSelectsKotaGroup()
    ensures CityProviders("Kota") == KotaProviders
  {
    assert !ContainsIgnoreCase("Kota", "Jaipur");
    ContainsSelf(ToLower("Kota"));
  }

  lemma DistinctSingle(a: string)
    ensures Distinct([a]) == [a]
  {
    assert [a][..0] == [];
  }

  lemma DistinctPair(a: string)
    ensures Distinct([a, a]) == [a]
  {
    DistinctSingle(a);
    assert [a, a][..1] == [a];
  }

  lemma DistinctTriple(a: string)
    ensures Distinct([a, a, a]) == [a]
  {
    DistinctPair(a);
    assert [a, a, a][..2] == [a, a];
  }

  lemma DistinctTripleThenNew(a: string, b: string)
    requires a != b
    ensures Distinct([a, a, a, b]) == [a, b]
  {
    DistinctTriple(a);
    assert [a, a, a, b][..3] == [a, a, a];
  }

  /** A column of the Kota group's shape, `a a a b c`, lists `a b c` once each. */
  lemma KotaDistinct(a: string, b: string, c: string)
    requires a != b && a != c && b != c
    ensures Distinct([a, a, a, b, c]) == [a, b, c]
  {
    DistinctTripleThenNew(a, b);
    assert [a, a, a, b, c][..4] == [a, a, a, b];
  }

  /** The Kota group offers tutors, a gym and a plumber, listed in that order. */
  lemma {:induction false} KotaCategories()
    ensures AvailableCategories("Kota") == ["tutor", "gym", "plumber"]
  {
    KotaColumns();
    KotaSelectsKotaGroup();
    KotaDistinct("tutor", "gym", "plumber");
  }
}
