/** Facts about the concrete city table: what the search box lists for "Rajasthan", and where
    picking one of the catalogue's cities leads. */
module CityFacts {
  import opened Text
  import opened CityPicker
  import Catalog

  /** A city name and state do not contain the query, ignoring case, when some lower-case letter of
      the query occurs in neither case in the name (`nameMiss`), and likewise in the state
      (`stateMiss`). */
  lemma SpellingLacks(name: string, state: string, query: string, nameMiss: char, stateMiss: char)
    requires 'a' <= nameMiss <= 'z' && nameMiss in query && nameMiss !in name && UpperChar(nameMiss) !in name
    requires 'a' <= stateMiss <= 'z' && stateMiss in query && stateMiss !in state && UpperChar(stateMiss) !in state
    ensures !ContainsIgnoreCase(name, query) && !ContainsIgnoreCase(state, query)
  {
    MissingCharIgnoreCase(name, query, nameMiss);
    MissingCharIgnoreCase(state, query, stateMiss);
  }

  /** A group none of whose cities match is filtered out entirely. */
  lemma {:induction false} NoneMatchAll(cities: seq<IndianCity>, query: string)
    requires forall c :: c in cities ==> !Matches(c, query)
    ensures FilterCities(cities, query) == []
    decreases |cities|
  {
    if cities != [] {
      assert cities[0] in cities;
      assert forall c :: c in cities[1..] ==> c in cities;
      NoneMatchAll(cities[1..], query);
    }
  }

  // No city after the Rajasthan group matches "Rajasthan": city by city, then group by group.

  lemma NewDelhiLacksRajasthan(q: string)
    requires q == "Rajasthan"
    ensures !Matches(DelhiNcrCities[0], q)
  {
    NewDelhiSpelling(q);
    assert DelhiNcrCities[0].name == "New Delhi" && DelhiNcrCities[0].state == "Delhi";
  }

  lemma NewDelhiSpelling(q: string)
    requires q == "Rajasthan"
    ensures !ContainsIgnoreCase("New Delhi", q) && !ContainsIgnoreCase("Delhi", q)
  {
    SpellingLacks("New Delhi", "Delhi", q, 'a', 'a');
  }

  lemma NoidaLacksRajasthan(q: string)
    requires q == "Rajasthan"
    ensures !Matches(DelhiNcrCities[1], q)
  {
    NoidaSpelling(q);
    assert DelhiNcrCities[1].name == "Noida" && DelhiNcrCities[1].state == "Uttar Pradesh";
  }

  lemma NoidaSpelling(q: string)
    requires q == "Rajasthan"
    ensures !ContainsIgnoreCase("Noida", q) && !ContainsIgnoreCase("Uttar Pradesh", q)
  {
    SpellingLacks("Noida", "Uttar Pradesh", q, 'j', 'j');
  }

  lemma GurgaonLacksRajasthan(q: string)
    requires q == "Rajasthan"
    ensures !Matches(DelhiNcrCities[2], q)
  {
    GurgaonSpelling(q);
    assert DelhiNcrCities[2].name == "Gurgaon" && DelhiNcrCities[2].state == "Haryana";
  }

  lemma GurgaonSpelling(q: string)
    requires q == "Rajasthan"
    ensures !ContainsIgnoreCase("Gurgaon", q) && !ContainsIgnoreCase("Haryana", q)
  {
    SpellingLacks("Gurgaon", "Haryana", q, 'j', 'j');
  }

  lemma FaridabadLacksRajasthan(q: string)
    requires q == "Rajasthan"
    ensures !Matches(DelhiNcrCities[3], q)
  {
    FaridabadSpelling(q);
    assert DelhiNcrCities[3].name == "Faridabad" && DelhiNcrCities[3].state == "Haryana";
  }

  lemma FaridabadSpelling(q: string)
    requires q == "Rajasthan"
    ensures !ContainsIgnoreCase("Faridabad", q) && !ContainsIgnoreCase("Haryana", q)
  {
    SpellingLacks("Faridabad", "Haryana", q, 'j', 'j');
  }

  lemma GhaziabadLacksRajasthan(q: string)
    requires q == "Rajasthan"
    ensures !Matches(DelhiNcrCities[4], q)
  {
    GhaziabadSpelling(q);
    assert DelhiNcrCities[4].name == "Ghaziabad" && DelhiNcrCities[4].state == "Uttar Pradesh";
  }

  lemma GhaziabadSpelling(q: string)
    requires q == "Rajasthan"
    ensures !ContainsIgnoreCase("Ghaziabad", q) && !ContainsIgnoreCase("Uttar Pradesh", q)
  {
    SpellingLacks("Ghaziabad", "Uttar Pradesh", q, 'j', 'j');
  }

  lemma DelhiNcrLacksRajasthan(q: string)
    requires q == "Rajasthan"
    ensures FilterCities(DelhiNcrCities, q) == []
  {
    var g := DelhiNcrCities;
    NewDelhiLacksRajasthan(q);
    NoidaLacksRajasthan(q);
    GurgaonLacksRajasthan(q);
    FaridabadLacksRajasthan(q);
    GhaziabadLacksRajasthan(q);
    assert g == [g[0], g[1], g[2], g[3], g[4]];
    NoneMatchAll([g[0], g[1], g[2], g[3], g[4]], q);
  }

  lemma MumbaiLacksRajasthan(q: string)
    requires q == "Rajasthan"
    ensures !Matches(MaharashtraCities[0], q)
  {
    MumbaiSpelling(q);
    assert MaharashtraCities[0].name == "Mumbai" && MaharashtraCities[0].state == "Maharashtra";
  }

  lemma MumbaiSpelling(q: string)
    requires q == "Rajasthan"
    ensures !ContainsIgnoreCase("Mumbai", q) && !ContainsIgnoreCase("Maharashtra", q)
  {
    SpellingLacks("Mumbai", "Maharashtra", q, 'j', 'j');
  }

  lemma PuneLacksRajasthan(q: string)
    requires q == "Rajasthan"
    ensures !Matches(MaharashtraCities[1], q)
  {
    PuneSpelling(q);
    assert MaharashtraCities[1].name == "Pune" && MaharashtraCities[1].state == "Maharashtra";
  }

  lemma PuneSpelling(q: string)
    requires q == "Rajasthan"
    ensures !ContainsIgnoreCase("Pune", q) && !ContainsIgnoreCase("Maharashtra", q)
  {
    SpellingLacks("Pune", "Maharashtra", q, 'a', 'j');
  }

  lemma NagpurLacksRajasthan(q: string)
    requires q == "Rajasthan"
    ensures !Matches(MaharashtraCities[2], q)
  {
    NagpurSpelling(q);
    assert MaharashtraCities[2].name == "Nagpur" && MaharashtraCities[2].state == "Maharashtra";
  }

  lemma NagpurSpelling(q: string)
    requires q == "Rajasthan"
    ensures !ContainsIgnoreCase("Nagpur", q) && !ContainsIgnoreCase("Maharashtra", q)
  {
    SpellingLacks("Nagpur", "Maharashtra", q, 'j', 'j');
  }

  lemma NashikLacksRajasthan(q: string)
    requires q == "Rajasthan"
    ensures !Matches(MaharashtraCities[3], q)
  {
    NashikSpelling(q);
    assert MaharashtraCities[3].name == "Nashik" && MaharashtraCities[3].state == "Maharashtra";
  }

  lemma NashikSpelling(q: string)
    requires q == "Rajasthan"
    ensures !ContainsIgnoreCase("Nashik", q) && !ContainsIgnoreCase("Maharashtra", q)
  {
    SpellingLacks("Nashik", "Maharashtra", q, 'j', 'j');
  }

  lemma AurangabadLacksRajasthan(q: string)
    requires q == "Rajasthan"
    ensures !Matches(MaharashtraCities[4], q)
  {
    AurangabadSpelling(q);
    assert MaharashtraCities[4].name == "Aurangabad" && MaharashtraCities[4].state == "Maharashtra";
  }

  lemma AurangabadSpelling(q: string)
    requires q == "Rajasthan"
    ensures !ContainsIgnoreCase("Aurangabad", q) && !ContainsIgnoreCase("Maharashtra", q)
  {
    SpellingLacks("Aurangabad", "Maharashtra", q, 'j', 'j');
  }

  lemma MaharashtraLacksRajasthan(q: string)
    requires q == "Rajasthan"
    ensures FilterCities(MaharashtraCities, q) == []
  {
    var g := MaharashtraCities;
    MumbaiLacksRajasthan(q);
    PuneLacksRajasthan(q);
    NagpurLacksRajasthan(q);
    NashikLacksRajasthan(q);
    AurangabadLacksRajasthan(q);
    assert g == [g[0], g[1], g[2], g[3], g[4]];
    NoneMatchAll([g[0], g[1], g[2], g[3], g[4]], q);
  }

  lemma BangaloreLacksRajasthan(q: string)
    requires q == "Rajasthan"
    ensures !Matches(KarnatakaCities[0], q)
  {
    BangaloreSpelling(q);
    assert KarnatakaCities[0].name == "Bangalore" && KarnatakaCities[0].state == "Karnataka";
  }

  lemma BangaloreSpelling(q: string)
    requires q == "Rajasthan"
    ensures !ContainsIgnoreCase("Bangalore", q) && !ContainsIgnoreCase("Karnataka", q)
  {
    SpellingLacks("Bangalore", "Karnataka", q, 'j', 'j');
  }

  lemma MysoreLacksRajasthan(q: string)
    requires q == "Rajasthan"
    ensures !Matches(KarnatakaCities[1], q)
  {
    MysoreSpelling(q);
    assert KarnatakaCities[1].name == "Mysore" && KarnatakaCities[1].state == "Karnataka";
  }

  lemma MysoreSpelling(q: string)
    requires q == "Rajasthan"
    ensures !ContainsIgnoreCase("Mysore", q) && !ContainsIgnoreCase("Karnataka", q)
  {
    SpellingLacks("Mysore", "Karnataka", q, 'a', 'j');
  }

  lemma MangaloreLacksRajasthan(q: string)
    requires q == "Rajasthan"
    ensures !Matches(KarnatakaCities[2], q)
  {
    MangaloreSpelling(q);
    assert KarnatakaCities[2].name == "Mangalore" && KarnatakaCities[2].state == "Karnataka";
  }

  lemma MangaloreSpelling(q: string)
    requires q == "Rajasthan"
    ensures !ContainsIgnoreCase("Mangalore", q) && !ContainsIgnoreCase("Karnataka", q)
  {
    SpellingLacks("Mangalore", "Karnataka", q, 'j', 'j');
  }

  lemma HubliLacksRajasthan(q: string)
    requires q == "Rajasthan"
    ensures !Matches(KarnatakaCities[3], q)
  {
    HubliSpelling(q);
    assert KarnatakaCities[3].name == "Hubli" && KarnatakaCities[3].state == "Karnataka";
  }

  lemma HubliSpelling(q: string)
    requires q == "Rajasthan"
    ensures !ContainsIgnoreCase("Hubli", q) && !ContainsIgnoreCase("Karnataka", q)
  {
    SpellingLacks("Hubli", "Karnataka", q, 'a', 'j');
  }

  lemma KarnatakaLacksRajasthan(q: string)
    requires q == "Rajasthan"
    ensures FilterCities(KarnatakaCities, q) == []
  {
    var g := KarnatakaCities;
    BangaloreLacksRajasthan(q);
    MysoreLacksRajasthan(q);
    MangaloreLacksRajasthan(q);
    HubliLacksRajasthan(q);
    assert g == [g[0], g[1], g[2], g[3]];
    NoneMatchAll([g[0], g[1], g[2], g[3]], q);
  }

  lemma ChennaiLacksRajasthan(q: string)
    requires q == "Rajasthan"
    ensures !Matches(TamilNaduCities[0], q)
  {
    ChennaiSpelling(q);
    assert TamilNaduCities[0].name == "Chennai" && TamilNaduCities[0].state == "Tamil Nadu";
  }

  lemma ChennaiSpelling(q: string)
    requires q == "Rajasthan"
    ensures !ContainsIgnoreCase("Chennai", q) && !ContainsIgnoreCase("Tamil Nadu", q)
  {
    SpellingLacks("Chennai", "Tamil Nadu", q, 'j', 'j');
  }

  lemma CoimbatoreLacksRajasthan(q: string)
    requires q == "Rajasthan"
    ensures !Matches(TamilNaduCities[1], q)
  {
    CoimbatoreSpelling(q);
    assert TamilNaduCities[1].name == "Coimbatore" && TamilNaduCities[1].state == "Tamil Nadu";
  }

  lemma CoimbatoreSpelling(q: string)
    requires q == "Rajasthan"
    ensures !ContainsIgnoreCase("Coimbatore", q) && !ContainsIgnoreCase("Tamil Nadu", q)
  {
    SpellingLacks("Coimbatore", "Tamil Nadu", q, 'j', 'j');
  }

  lemma MaduraiLacksRajasthan(q: string)
    requires q == "Rajasthan"
    ensures !Matches(TamilNaduCities[2], q)
  {
    MaduraiSpelling(q);
    assert TamilNaduCities[2].name == "Madurai" && TamilNaduCities[2].state == "Tamil Nadu";
  }

  lemma MaduraiSpelling(q: string)
    requires q == "Rajasthan"
    ensures !ContainsIgnoreCase("Madurai", q) && !ContainsIgnoreCase("Tamil Nadu", q)
  {
    SpellingLacks("Madurai", "Tamil Nadu", q, 'j', 'j');
  }

  lemma TrichyLacksRajasthan(q: string)
    requires q == "Rajasthan"
    ensures !Matches(TamilNaduCities[3], q)
  {
    TrichySpelling(q);
    assert TamilNaduCities[3].name == "Trichy" && TamilNaduCities[3].state == "Tamil Nadu";
  }

  lemma TrichySpelling(q: string)
    requires q == "Rajasthan"
    ensures !ContainsIgnoreCase("Trichy", q) && !ContainsIgnoreCase("Tamil Nadu", q)
  {
    SpellingLacks("Trichy", "Tamil Nadu", q, 'a', 'j');
  }

  lemma TamilNaduLacksRajasthan(q: string)
    requires q == "Rajasthan"
    ensures FilterCities(TamilNaduCities, q) == []
  {
    var g := TamilNaduCities;
    ChennaiLacksRajasthan(q);
    CoimbatoreLacksRajasthan(q);
    MaduraiLacksRajasthan(q);
    TrichyLacksRajasthan(q);
    assert g == [g[0], g[1], g[2], g[3]];
    NoneMatchAll([g[0], g[1], g[2], g[3]], q);
  }

  lemma KolkataLacksRajasthan(q: string)
    requires q == "Rajasthan"
    ensures !Matches(WestBengalCities[0], q)
  {
    KolkataSpelling(q);
    assert WestBengalCities[0].name == "Kolkata" && WestBengalCities[0].state == "West Bengal";
  }

  lemma KolkataSpelling(q: string)
    requires q == "Rajasthan"
    ensures !ContainsIgnoreCase("Kolkata", q) && !ContainsIgnoreCase("West Bengal", q)
  {
    SpellingLacks("Kolkata", "West Bengal", q, 'j', 'j');
  }

  lemma HowrahLacksRajasthan(q: string)
    requires q == "Rajasthan"
    ensures !Matches(WestBengalCities[1], q)
  {
    HowrahSpelling(q);
    assert WestBengalCities[1].name == "Howrah" && WestBengalCities[1].state == "West Bengal";
  }

  lemma HowrahSpelling(q: string)
    requires q == "Rajasthan"
    ensures !ContainsIgnoreCase("Howrah", q) && !ContainsIgnoreCase("West Bengal", q)
  {
    SpellingLacks("Howrah", "West Bengal", q, 'j', 'j');
  }

  lemma SiliguriLacksRajasthan(q: string)
    requires q == "Rajasthan"
    ensures !Matches(WestBengalCities[2], q)
  {
    SiliguriSpelling(q);
    assert WestBengalCities[2].name == "Siliguri" && WestBengalCities[2].state == "West Bengal";
  }

  lemma SiliguriSpelling(q: string)
    requires q == "Rajasthan"
    ensures !ContainsIgnoreCase("Siliguri", q) && !ContainsIgnoreCase("West Bengal", q)
  {
    SpellingLacks("Siliguri", "West Bengal", q, 'a', 'j');
  }

  lemma WestBengalLacksRajasthan(q: string)
    requires q == "Rajasthan"
    ensures FilterCities(WestBengalCities, q) == []
  {
    var g := WestBengalCities;
    KolkataLacksRajasthan(q);
    HowrahLacksRajasthan(q);
    SiliguriLacksRajasthan(q);
    assert g == [g[0], g[1], g[2]];
    NoneMatchAll([g[0], g[1], g[2]], q);
  }

  lemma AhmedabadLacksRajasthan(q: string)
    requires q == "Rajasthan"
    ensures !Matches(GujaratCities[0], q)
  {
    AhmedabadSpelling(q);
    assert GujaratCities[0].name == "Ahmedabad" && GujaratCities[0].state == "Gujarat";
  }

  lemma AhmedabadSpelling(q: string)
    requires q == "Rajasthan"
    ensures !ContainsIgnoreCase("Ahmedabad", q) && !ContainsIgnoreCase("Gujarat", q)
  {
    SpellingLacks("Ahmedabad", "Gujarat", q, 'j', 's');
  }

  lemma SuratLacksRajasthan(q: string)
    requires q == "Rajasthan"
    ensures !Matches(GujaratCities[1], q)
  {
    SuratSpelling(q);
    assert GujaratCities[1].name == "Surat" && GujaratCities[1].state == "Gujarat";
  }

  lemma SuratSpelling(q: string)
    requires q == "Rajasthan"
    ensures !ContainsIgnoreCase("Surat", q) && !ContainsIgnoreCase("Gujarat", q)
  {
    SpellingLacks("Surat", "Gujarat", q, 'j', 's');
  }

  lemma VadodaraLacksRajasthan(q: string)
    requires q == "Rajasthan"
    ensures !Matches(GujaratCities[2], q)
  {
    VadodaraSpelling(q);
    assert GujaratCities[2].name == "Vadodara" && GujaratCities[2].state == "Gujarat";
  }

  lemma VadodaraSpelling(q: string)
    requires q == "Rajasthan"
    ensures !ContainsIgnoreCase("Vadodara", q) && !ContainsIgnoreCase("Gujarat", q)
  {
    SpellingLacks("Vadodara", "Gujarat", q, 'j', 's');
  }

  lemma RajkotLacksRajasthan(q: string)
    requires q == "Rajasthan"
    ensures !Matches(GujaratCities[3], q)
  {
    RajkotSpelling(q);
    assert GujaratCities[3].name == "Rajkot" && GujaratCities[3].state == "Gujarat";
  }

  lemma RajkotSpelling(q: string)
    requires q == "Rajasthan"
    ensures !ContainsIgnoreCase("Rajkot", q) && !ContainsIgnoreCase("Gujarat", q)
  {
    SpellingLacks("Rajkot", "Gujarat", q, 's', 's');
  }

  lemma GujaratLacksRajasthan(q: string)
    requires q == "Rajasthan"
    ensures FilterCities(GujaratCities, q) == []
  {
    var g := GujaratCities;
    AhmedabadLacksRajasthan(q);
    SuratLacksRajasthan(q);
    VadodaraLacksRajasthan(q);
    RajkotLacksRajasthan(q);
    assert g == [g[0], g[1], g[2], g[3]];
    NoneMatchAll([g[0], g[1], g[2], g[3]], q);
  }

  lemma HyderabadLacksRajasthan(q: string)
    requires q == "Rajasthan"
    ensures !Matches(TelanganaAndhraCities[0], q)
  {
    HyderabadSpelling(q);
    assert TelanganaAndhraCities[0].name == "Hyderabad" && TelanganaAndhraCities[0].state == "Telangana";
  }

  lemma HyderabadSpelling(q: string)
    requires q == "Rajasthan"
    ensures !ContainsIgnoreCase("Hyderabad", q) && !ContainsIgnoreCase("Telangana", q)
  {
    SpellingLacks("Hyderabad", "Telangana", q, 'j', 'j');
  }

  lemma VisakhapatnamLacksRajasthan(q: string)
    requires q == "Rajasthan"
    ensures !Matches(TelanganaAndhraCities[1], q)
  {
    VisakhapatnamSpelling(q);
    assert TelanganaAndhraCities[1].name == "Visakhapatnam" && TelanganaAndhraCities[1].state == "Andhra Pradesh";
  }

  lemma VisakhapatnamSpelling(q: string)
    requires q == "Rajasthan"
    ensures !ContainsIgnoreCase("Visakhapatnam", q) && !ContainsIgnoreCase("Andhra Pradesh", q)
  {
    SpellingLacks("Visakhapatnam", "Andhra Pradesh", q, 'j', 'j');
  }

  lemma VijayawadaLacksRajasthan(q: string)
    requires q == "Rajasthan"
    ensures !Matches(TelanganaAndhraCities[2], q)
  {
    VijayawadaSpelling(q);
    assert TelanganaAndhraCities[2].name == "Vijayawada" && TelanganaAndhraCities[2].state == "Andhra Pradesh";
  }

  lemma VijayawadaSpelling(q: string)
    requires q == "Rajasthan"
    ensures !ContainsIgnoreCase("Vijayawada", q) && !ContainsIgnoreCase("Andhra Pradesh", q)
  {
    SpellingLacks("Vijayawada", "Andhra Pradesh", q, 's', 'j');
  }

  lemma TelanganaAndhraLacksRajasthan(q: string)
    requires q == "Rajasthan"
    ensures FilterCities(TelanganaAndhraCities, q) == []
  {
    var g := TelanganaAndhraCities;
    HyderabadLacksRajasthan(q);
    VisakhapatnamLacksRajasthan(q);
    VijayawadaLacksRajasthan(q);
    assert g == [g[0], g[1], g[2]];
    NoneMatchAll([g[0], g[1], g[2]], q);
  }

  lemma KochiLacksRajasthan(q: string)
    requires q == "Rajasthan"
    ensures !Matches(KeralaCities[0], q)
  {
    KochiSpelling(q);
    assert KeralaCities[0].name == "Kochi" && KeralaCities[0].state == "Kerala";
  }

  lemma KochiSpelling(q: string)
    requires q == "Rajasthan"
    ensures !ContainsIgnoreCase("Kochi", q) && !ContainsIgnoreCase("Kerala", q)
  {
    SpellingLacks("Kochi", "Kerala", q, 'a', 'j');
  }

  lemma ThiruvananthapuramLacksRajasthan(q: string)
    requires q == "Rajasthan"
    ensures !Matches(KeralaCities[1], q)
  {
    ThiruvananthapuramSpelling(q);
    assert KeralaCities[1].name == "Thiruvananthapuram" && KeralaCities[1].state == "Kerala";
  }

  lemma ThiruvananthapuramSpelling(q: string)
    requires q == "Rajasthan"
    ensures !ContainsIgnoreCase("Thiruvananthapuram", q) && !ContainsIgnoreCase("Kerala", q)
  {
    SpellingLacks("Thiruvananthapuram", "Kerala", q, 'j', 'j');
  }

  lemma KozhikodeLacksRajasthan(q: string)
    requires q == "Rajasthan"
    ensures !Matches(KeralaCities[2], q)
  {
    KozhikodeSpelling(q);
    assert KeralaCities[2].name == "Kozhikode" && KeralaCities[2].state == "Kerala";
  }

  lemma KozhikodeSpelling(q: string)
    requires q == "Rajasthan"
    ensures !ContainsIgnoreCase("Kozhikode", q) && !ContainsIgnoreCase("Kerala", q)
  {
    SpellingLacks("Kozhikode", "Kerala", q, 'a', 'j');
  }

  lemma KeralaLacksRajasthan(q: string)
    requires q == "Rajasthan"
    ensures FilterCities(KeralaCities, q) == []
  {
    var g := KeralaCities;
    KochiLacksRajasthan(q);
    ThiruvananthapuramLacksRajasthan(q);
    KozhikodeLacksRajasthan(q);
    assert g == [g[0], g[1], g[2]];
    NoneMatchAll([g[0], g[1], g[2]], q);
  }

  lemma LucknowLacksRajasthan(q: string)
    requires q == "Rajasthan"
    ensures !Matches(UttarPradeshCities[0], q)
  {
    LucknowSpelling(q);
    assert UttarPradeshCities[0].name == "Lucknow" && UttarPradeshCities[0].state == "Uttar Pradesh";
  }

  lemma LucknowSpelling(q: string)
    requires q == "Rajasthan"
    ensures !ContainsIgnoreCase("Lucknow", q) && !ContainsIgnoreCase("Uttar Pradesh", q)
  {
    SpellingLacks("Lucknow", "Uttar Pradesh", q, 'a', 'j');
  }

  lemma KanpurLacksRajasthan(q: string)
    requires q == "Rajasthan"
    ensures !Matches(UttarPradeshCities[1], q)
  {
    KanpurSpelling(q);
    assert UttarPradeshCities[1].name == "Kanpur" && UttarPradeshCities[1].state == "Uttar Pradesh";
  }

  lemma KanpurSpelling(q: string)
    requires q == "Rajasthan"
    ensures !ContainsIgnoreCase("Kanpur", q) && !ContainsIgnoreCase("Uttar Pradesh", q)
  {
    SpellingLacks("Kanpur", "Uttar Pradesh", q, 'j', 'j');
  }

  lemma AgraLacksRajasthan(q: string)
    requires q == "Rajasthan"
    ensures !Matches(UttarPradeshCities[2], q)
  {
    AgraSpelling(q);
    assert UttarPradeshCities[2].name == "Agra" && UttarPradeshCities[2].state == "Uttar Pradesh";
  }

  lemma AgraSpelling(q: string)
    requires q == "Rajasthan"
    ensures !ContainsIgnoreCase("Agra", q) && !ContainsIgnoreCase("Uttar Pradesh", q)
  {
    SpellingLacks("Agra", "Uttar Pradesh", q, 'j', 'j');
  }

  lemma VaranasiLacksRajasthan(q: string)
    requires q == "Rajasthan"
    ensures !Matches(UttarPradeshCities[3], q)
  {
    VaranasiSpelling(q);
    assert UttarPradeshCities[3].name == "Varanasi" && UttarPradeshCities[3].state == "Uttar Pradesh";
  }

  lemma VaranasiSpelling(q: string)
    requires q == "Rajasthan"
    ensures !ContainsIgnoreCase("Varanasi", q) && !ContainsIgnoreCase("Uttar Pradesh", q)
  {
    SpellingLacks("Varanasi", "Uttar Pradesh", q, 'j', 'j');
  }

  lemma MeerutLacksRajasthan(q: string)
    requires q == "Rajasthan"
    ensures !Matches(UttarPradeshCities[4], q)
  {
    MeerutSpelling(q);
    assert UttarPradeshCities[4].name == "Meerut" && UttarPradeshCities[4].state == "Uttar Pradesh";
  }

  lemma MeerutSpelling(q: string)
    requires q == "Rajasthan"
    ensures !ContainsIgnoreCase("Meerut", q) && !ContainsIgnoreCase("Uttar Pradesh", q)
  {
    SpellingLacks("Meerut", "Uttar Pradesh", q, 'a', 'j');
  }

  lemma UttarPradeshLacksRajasthan(q: string)
    requires q == "Rajasthan"
    ensures FilterCities(UttarPradeshCities, q) == []
  {
    var g := UttarPradeshCities;
    LucknowLacksRajasthan(q);
    KanpurLacksRajasthan(q);
    AgraLacksRajasthan(q);
    VaranasiLacksRajasthan(q);
    MeerutLacksRajasthan(q);
    assert g == [g[0], g[1], g[2], g[3], g[4]];
    NoneMatchAll([g[0], g[1], g[2], g[3], g[4]], q);
  }

  lemma IndoreLacksRajasthan(q: string)
    requires q == "Rajasthan"
    ensures !Matches(MadhyaPradeshCities[0], q)
  {
    IndoreSpelling(q);
    assert MadhyaPradeshCities[0].name == "Indore" && MadhyaPradeshCities[0].state == "Madhya Pradesh";
  }

  lemma IndoreSpelling(q: string)
    requires q == "Rajasthan"
    ensures !ContainsIgnoreCase("Indore", q) && !ContainsIgnoreCase("Madhya Pradesh", q)
  {
    SpellingLacks("Indore", "Madhya Pradesh", q, 'a', 'j');
  }

  lemma BhopalLacksRajasthan(q: string)
    requires q == "Rajasthan"
    ensures !Matches(MadhyaPradeshCities[1], q)
  {
    BhopalSpelling(q);
    assert MadhyaPradeshCities[1].name == "Bhopal" && MadhyaPradeshCities[1].state == "Madhya Pradesh";
  }

  lemma BhopalSpelling(q: string)
    requires q == "Rajasthan"
    ensures !ContainsIgnoreCase("Bhopal", q) && !ContainsIgnoreCase("Madhya Pradesh", q)
  {
    SpellingLacks("Bhopal", "Madhya Pradesh", q, 'j', 'j');
  }

  lemma GwaliorLacksRajasthan(q: string)
    requires q == "Rajasthan"
    ensures !Matches(MadhyaPradeshCities[2], q)
  {
    GwaliorSpelling(q);
    assert MadhyaPradeshCities[2].name == "Gwalior" && MadhyaPradeshCities[2].state == "Madhya Pradesh";
  }

  lemma GwaliorSpelling(q: string)
    requires q == "Rajasthan"
    ensures !ContainsIgnoreCase("Gwalior", q) && !ContainsIgnoreCase("Madhya Pradesh", q)
  {
    SpellingLacks("Gwalior", "Madhya Pradesh", q, 'j', 'j');
  }

  lemma JabalpurLacksRajasthan(q: string)
    requires q == "Rajasthan"
    ensures !Matches(MadhyaPradeshCities[3], q)
  {
    JabalpurSpelling(q);
    assert MadhyaPradeshCities[3].name == "Jabalpur" && MadhyaPradeshCities[3].state == "Madhya Pradesh";
  }

  lemma JabalpurSpelling(q: string)
    requires q == "Rajasthan"
    ensures !ContainsIgnoreCase("Jabalpur", q) && !ContainsIgnoreCase("Madhya Pradesh", q)
  {
    SpellingLacks("Jabalpur", "Madhya Pradesh", q, 's', 'j');
  }

  lemma MadhyaPradeshLacksRajasthan(q: string)
    requires q == "Rajasthan"
    ensures FilterCities(MadhyaPradeshCities, q) == []
  {
    var g := MadhyaPradeshCities;
    IndoreLacksRajasthan(q);
    BhopalLacksRajasthan(q);
    GwaliorLacksRajasthan(q);
    JabalpurLacksRajasthan(q);
    assert g == [g[0], g[1], g[2], g[3]];
    NoneMatchAll([g[0], g[1], g[2], g[3]], q);
  }

  lemma ChandigarhLacksRajasthan(q: string)
    requires q == "Rajasthan"
    ensures !Matches(PunjabHaryanaCities[0], q)
  {
    ChandigarhSpelling(q);
    assert PunjabHaryanaCities[0].name == "Chandigarh" && PunjabHaryanaCities[0].state == "Chandigarh";
  }

  lemma ChandigarhSpelling(q: string)
    requires q == "Rajasthan"
    ensures !ContainsIgnoreCase("Chandigarh", q) && !ContainsIgnoreCase("Chandigarh", q)
  {
    SpellingLacks("Chandigarh", "Chandigarh", q, 'j', 'j');
  }

  lemma LudhianaLacksRajasthan(q: string)
    requires q == "Rajasthan"
    ensures !Matches(PunjabHaryanaCities[1], q)
  {
    LudhianaSpelling(q);
    assert PunjabHaryanaCities[1].name == "Ludhiana" && PunjabHaryanaCities[1].state == "Punjab";
  }

  lemma LudhianaSpelling(q: string)
    requires q == "Rajasthan"
    ensures !ContainsIgnoreCase("Ludhiana", q) && !ContainsIgnoreCase("Punjab", q)
  {
    SpellingLacks("Ludhiana", "Punjab", q, 'j', 's');
  }

  lemma AmritsarLacksRajasthan(q: string)
    requires q == "Rajasthan"
    ensures !Matches(PunjabHaryanaCities[2], q)
  {
    AmritsarSpelling(q);
    assert PunjabHaryanaCities[2].name == "Amritsar" && PunjabHaryanaCities[2].state == "Punjab";
  }

  lemma AmritsarSpelling(q: string)
    requires q == "Rajasthan"
    ensures !ContainsIgnoreCase("Amritsar", q) && !ContainsIgnoreCase("Punjab", q)
  {
    SpellingLacks("Amritsar", "Punjab", q, 'j', 's');
  }

  lemma JalandharLacksRajasthan(q: string)
    requires q == "Rajasthan"
    ensures !Matches(PunjabHaryanaCities[3], q)
  {
    JalandharSpelling(q);
    assert PunjabHaryanaCities[3].name == "Jalandhar" && PunjabHaryanaCities[3].state == "Punjab";
  }

  lemma JalandharSpelling(q: string)
    requires q == "Rajasthan"
    ensures !ContainsIgnoreCase("Jalandhar", q) && !ContainsIgnoreCase("Punjab", q)
  {
    SpellingLacks("Jalandhar", "Punjab", q, 's', 's');
  }

  lemma PunjabHaryanaLacksRajasthan(q: string)
    requires q == "Rajasthan"
    ensures FilterCities(PunjabHaryanaCities, q) == []
  {
    var g := PunjabHaryanaCities;
    ChandigarhLacksRajasthan(q);
    LudhianaLacksRajasthan(q);
    AmritsarLacksRajasthan(q);
    JalandharLacksRajasthan(q);
    assert g == [g[0], g[1], g[2], g[3]];
    NoneMatchAll([g[0], g[1], g[2], g[3]], q);
  }

  lemma PatnaLacksRajasthan(q: string)
    requires q == "Rajasthan"
    ensures !Matches(BiharJharkhandCities[0], q)
  {
    PatnaSpelling(q);
    assert BiharJharkhandCities[0].name == "Patna" && BiharJharkhandCities[0].state == "Bihar";
  }

  lemma PatnaSpelling(q: string)
    requires q == "Rajasthan"
    ensures !ContainsIgnoreCase("Patna", q) && !ContainsIgnoreCase("Bihar", q)
  {
    SpellingLacks("Patna", "Bihar", q, 'j', 'j');
  }

  lemma RanchiLacksRajasthan(q: string)
    requires q == "Rajasthan"
    ensures !Matches(BiharJharkhandCities[1], q)
  {
    RanchiSpelling(q);
    assert BiharJharkhandCities[1].name == "Ranchi" && BiharJharkhandCities[1].state == "Jharkhand";
  }

  lemma RanchiSpelling(q: string)
    requires q == "Rajasthan"
    ensures !ContainsIgnoreCase("Ranchi", q) && !ContainsIgnoreCase("Jharkhand", q)
  {
    SpellingLacks("Ranchi", "Jharkhand", q, 'j', 's');
  }

  lemma JamshedpurLacksRajasthan(q: string)
    requires q == "Rajasthan"
    ensures !Matches(BiharJharkhandCities[2], q)
  {
    JamshedpurSpelling(q);
    assert BiharJharkhandCities[2].name == "Jamshedpur" && BiharJharkhandCities[2].state == "Jharkhand";
  }

  lemma JamshedpurSpelling(q: string)
    requires q == "Rajasthan"
    ensures !ContainsIgnoreCase("Jamshedpur", q) && !ContainsIgnoreCase("Jharkhand", q)
  {
    SpellingLacks("Jamshedpur", "Jharkhand", q, 't', 's');
  }

  lemma BiharJharkhandLacksRajasthan(q: string)
    requires q == "Rajasthan"
    ensures FilterCities(BiharJharkhandCities, q) == []
  {
    var g := BiharJharkhandCities;
    PatnaLacksRajasthan(q);
    RanchiLacksRajasthan(q);
    JamshedpurLacksRajasthan(q);
    assert g == [g[0], g[1], g[2]];
    NoneMatchAll([g[0], g[1], g[2]], q);
  }

  lemma BhubaneswarLacksRajasthan(q: string)
    requires q == "Rajasthan"
    ensures !Matches(OdishaCities[0], q)
  {
    BhubaneswarSpelling(q);
    assert OdishaCities[0].name == "Bhubaneswar" && OdishaCities[0].state == "Odisha";
  }

  lemma BhubaneswarSpelling(q: string)
    requires q == "Rajasthan"
    ensures !ContainsIgnoreCase("Bhubaneswar", q) && !ContainsIgnoreCase("Odisha", q)
  {
    SpellingLacks("Bhubaneswar", "Odisha", q, 'j', 'j');
  }

  lemma CuttackLacksRajasthan(q: string)
    requires q == "Rajasthan"
    ensures !Matches(OdishaCities[1], q)
  {
    CuttackSpelling(q);
    assert OdishaCities[1].name == "Cuttack" && OdishaCities[1].state == "Odisha";
  }

  lemma CuttackSpelling(q: string)
    requires q == "Rajasthan"
    ensures !ContainsIgnoreCase("Cuttack", q) && !ContainsIgnoreCase("Odisha", q)
  {
    SpellingLacks("Cuttack", "Odisha", q, 'j', 'j');
  }

  lemma OdishaLacksRajasthan(q: string)
    requires q == "Rajasthan"
    ensures FilterCities(OdishaCities, q) == []
  {
    var g := OdishaCities;
    BhubaneswarLacksRajasthan(q);
    CuttackLacksRajasthan(q);
    assert g == [g[0], g[1]];
    NoneMatchAll([g[0], g[1]], q);
  }

  lemma GuwahatiLacksRajasthan(q: string)
    requires q == "Rajasthan"
    ensures !Matches(AssamNortheastCities[0], q)
  {
    GuwahatiSpelling(q);
    assert AssamNortheastCities[0].name == "Guwahati" && AssamNortheastCities[0].state == "Assam";
  }

  lemma GuwahatiSpelling(q: string)
    requires q == "Rajasthan"
    ensures !ContainsIgnoreCase("Guwahati", q) && !ContainsIgnoreCase("Assam", q)
  {
    SpellingLacks("Guwahati", "Assam", q, 'j', 'j');
  }

  lemma ImphalLacksRajasthan(q: string)
    requires q == "Rajasthan"
    ensures !Matches(AssamNortheastCities[1], q)
  {
    ImphalSpelling(q);
    assert AssamNortheastCities[1].name == "Imphal" && AssamNortheastCities[1].state == "Manipur";
  }

  lemma ImphalSpelling(q: string)
    requires q == "Rajasthan"
    ensures !ContainsIgnoreCase("Imphal", q) && !ContainsIgnoreCase("Manipur", q)
  {
    SpellingLacks("Imphal", "Manipur", q, 'j', 'j');
  }

  lemma AssamNortheastLacksRajasthan(q: string)
    requires q == "Rajasthan"
    ensures FilterCities(AssamNortheastCities, q) == []
  {
    var g := AssamNortheastCities;
    GuwahatiLacksRajasthan(q);
    ImphalLacksRajasthan(q);
    assert g == [g[0], g[1]];
    NoneMatchAll([g[0], g[1]], q);
  }

  lemma DehradunLacksRajasthan(q: string)
    requires q == "Rajasthan"
    ensures !Matches(UttarakhandCities[0], q)
  {
    DehradunSpelling(q);
    assert UttarakhandCities[0].name == "Dehradun" && UttarakhandCities[0].state == "Uttarakhand";
  }

  lemma DehradunSpelling(q: string)
    requires q == "Rajasthan"
    ensures !ContainsIgnoreCase("Dehradun", q) && !ContainsIgnoreCase("Uttarakhand", q)
  {
    SpellingLacks("Dehradun", "Uttarakhand", q, 'j', 'j');
  }

  lemma HaridwarLacksRajasthan(q: string)
    requires q == "Rajasthan"
    ensures !Matches(UttarakhandCities[1], q)
  {
    HaridwarSpelling(q);
    assert UttarakhandCities[1].name == "Haridwar" && UttarakhandCities[1].state == "Uttarakhand";
  }

  lemma HaridwarSpelling(q: string)
    requires q == "Rajasthan"
    ensures !ContainsIgnoreCase("Haridwar", q) && !ContainsIgnoreCase("Uttarakhand", q)
  {
    SpellingLacks("Haridwar", "Uttarakhand", q, 'j', 'j');
  }

  lemma UttarakhandLacksRajasthan(q: string)
    requires q == "Rajasthan"
    ensures FilterCities(UttarakhandCities, q) == []
  {
    var g := UttarakhandCities;
    DehradunLacksRajasthan(q);
    HaridwarLacksRajasthan(q);
    assert g == [g[0], g[1]];
    NoneMatchAll([g[0], g[1]], q);
  }

  lemma {:induction false} OtherCitiesLackRajasthan(q: string)
    requires q == "Rajasthan"
    ensures FilterCities(OtherCities, q) == []
  {
    var acc := DelhiNcrCities;
    DelhiNcrLacksRajasthan(q);
    MaharashtraLacksRajasthan(q);
    FilterAppend(acc, MaharashtraCities, q);
    acc := acc + MaharashtraCities;
    KarnatakaLacksRajasthan(q);
    FilterAppend(acc, KarnatakaCities, q);
    acc := acc + KarnatakaCities;
    TamilNaduLacksRajasthan(q);
    FilterAppend(acc, TamilNaduCities, q);
    acc := acc + TamilNaduCities;
    WestBengalLacksRajasthan(q);
    FilterAppend(acc, WestBengalCities, q);
    acc := acc + WestBengalCities;
    GujaratLacksRajasthan(q);
    FilterAppend(acc, GujaratCities, q);
    acc := acc + GujaratCities;
    TelanganaAndhraLacksRajasthan(q);
    FilterAppend(acc, TelanganaAndhraCities, q);
    acc := acc + TelanganaAndhraCities;
    KeralaLacksRajasthan(q);
    FilterAppend(acc, KeralaCities, q);
    acc := acc + KeralaCities;
    UttarPradeshLacksRajasthan(q);
    FilterAppend(acc, UttarPradeshCities, q);
    acc := acc + UttarPradeshCities;
    MadhyaPradeshLacksRajasthan(q);
    FilterAppend(acc, MadhyaPradeshCities, q);
    acc := acc + MadhyaPradeshCities;
    PunjabHaryanaLacksRajasthan(q);
    FilterAppend(acc, PunjabHaryanaCities, q);
    acc := acc + PunjabHaryanaCities;
    BiharJharkhandLacksRajasthan(q);
    FilterAppend(acc, BiharJharkhandCities, q);
    acc := acc + BiharJharkhandCities;
    OdishaLacksRajasthan(q);
    FilterAppend(acc, OdishaCities, q);
    acc := acc + OdishaCities;
    AssamNortheastLacksRajasthan(q);
    FilterAppend(acc, AssamNortheastCities, q);
    acc := acc + AssamNortheastCities;
    UttarakhandLacksRajasthan(q);
    FilterAppend(acc, UttarakhandCities, q);
    acc := acc + UttarakhandCities;
    assert acc == OtherCities;
  }

  lemma {:induction false} RajasthanFilter(q: string)
    requires q == "Rajasthan"
    ensures FilteredCities(q) == RajasthanCities
  {
    assert !IsWhitespace(q[0]);
    RajasthanCitiesMatch(q);
    OtherCitiesLackRajasthan(q);
    FilterAppend(RajasthanCities, OtherCities, q);
  }

  /** Every Rajasthan city matches its state's name. */
  lemma {:induction false} RajasthanCitiesMatch(q: string)
    requires q == "Rajasthan"
    ensures FilterCities(RajasthanCities, q) == RajasthanCities
  {
    ContainsSelf(ToLower(q));
    assert forall c :: c in RajasthanCities ==> c.state == q;
    AllMatch(RajasthanCities, q);
  }

  /** Searching for "Rajasthan" lists exactly the ten Rajasthan cities, in table order. */
  lemma {:induction false} RajasthanQuery()
    ensures FilteredCities("Rajasthan") == RajasthanCities
    ensures |FilteredCities("Rajasthan")| == 10
  {
    RajasthanFilter("Rajasthan");
  }

  /** The picker entries of the seven cities the catalogue covers, in the catalogue's order. */
  const CatalogueCities: seq<IndianCity> := [
    RajasthanCities[0], RajasthanCities[1], RajasthanCities[2], RajasthanCities[3],
    DelhiNcrCities[0], MaharashtraCities[0], KarnatakaCities[0]
  ]

  /** The catalogue city `k` is the first of the catalogue's cities whose name occurs in
      `address`, ignoring case. */
  ghost predicate FirstCatalogueMatch(address: string, k: int) {
    0 <= k < |Catalog.CityNames| && ContainsIgnoreCase(address, Catalog.CityNames[k]) &&
    forall j :: 0 <= j < k ==> !ContainsIgnoreCase(address, Catalog.CityNames[j])
  }

  /** The catalogue's city names in lower case. */
  lemma CatalogueNamesLower()
    ensures ToLower(Catalog.CityNames[0]) == "jaipur"
    ensures ToLower(Catalog.CityNames[1]) == "kota"
    ensures ToLower(Catalog.CityNames[2]) == "ajmer"
    ensures ToLower(Catalog.CityNames[3]) == "bundi"
    ensures ToLower(Catalog.CityNames[4]) == "delhi"
    ensures ToLower(Catalog.CityNames[5]) == "mumbai"
    ensures ToLower(Catalog.CityNames[6]) == "bangalore"
  {
    assert ToLower("Jaipur") == "jaipur";
    assert ToLower("Kota") == "kota";
    assert ToLower("Ajmer") == "ajmer";
    assert ToLower("Bundi") == "bundi";
    assert ToLower("Delhi") == "delhi";
    assert ToLower("Mumbai") == "mumbai";
    assert ToLower("Bangalore") == "bangalore";
  }

  lemma JaipurAddressLower(a: string)
    requires a == "Jaipur, Rajasthan, India"
    ensures ToLower(a) == "jaipur, rajasthan, india"
  {
  }

  lemma JaipurAddressNames(m: string)
    requires m == "jaipur, rajasthan, india"
    ensures Contains(m, "jaipur")
  {
    assert OccursAt(m, "jaipur", 0);
  }

  lemma JaipurAddressRoutes(a: string)
    requires a == "Jaipur, Rajasthan, India"
    ensures FirstCatalogueMatch(a, 0)
  {
    CatalogueNamesLower();
    JaipurAddressLower(a);
    JaipurAddressNames(ToLower(a));
  }

  lemma KotaAddressLower(a: string)
    requires a == "Kota, Rajasthan, India"
    ensures ToLower(a) == "kota, rajasthan, india"
  {
  }

  lemma KotaAddressNames(m: string)
    requires m == "kota, rajasthan, india"
    ensures !Contains(m, "jaipur")
    ensures Contains(m, "kota")
  {
    MissingChar(m, "jaipur", 'p');
    assert OccursAt(m, "kota", 0);
  }

  lemma KotaAddressRoutes(a: string)
    requires a == "Kota, Rajasthan, India"
    ensures FirstCatalogueMatch(a, 1)
  {
    CatalogueNamesLower();
    KotaAddressLower(a);
    KotaAddressNames(ToLower(a));
  }

  lemma AjmerAddressLower(a: string)
    requires a == "Ajmer, Rajasthan, India"
    ensures ToLower(a) == "ajmer, rajasthan, india"
  {
  }

  lemma AjmerAddressNames(m: string)
    requires m == "ajmer, rajasthan, india"
    ensures !Contains(m, "jaipur")
    ensures !Contains(m, "kota")
    ensures Contains(m, "ajmer")
  {
    MissingChar(m, "jaipur", 'p');
    MissingChar(m, "kota", 'k');
    assert OccursAt(m, "ajmer", 0);
  }

  lemma AjmerAddressRoutes(a: string)
    requires a == "Ajmer, Rajasthan, India"
    ensures FirstCatalogueMatch(a, 2)
  {
    CatalogueNamesLower();
    AjmerAddressLower(a);
    AjmerAddressNames(ToLower(a));
  }

  lemma BundiAddressLower(a: string)
    requires a == "Bundi, Rajasthan, India"
    ensures ToLower(a) == "bundi, rajasthan, india"
  {
  }

  lemma BundiAddressNames(m: string)
    requires m == "bundi, rajasthan, india"
    ensures !Contains(m, "jaipur")
    ensures !Contains(m, "kota")
    ensures !Contains(m, "ajmer")
    ensures Contains(m, "bundi")
  {
    MissingChar(m, "jaipur", 'p');
    MissingChar(m, "kota", 'k');
    MissingChar(m, "ajmer", 'm');
    assert OccursAt(m, "bundi", 0);
  }

  lemma BundiAddressRoutes(a: string)
    requires a == "Bundi, Rajasthan, India"
    ensures FirstCatalogueMatch(a, 3)
  {
    CatalogueNamesLower();
    BundiAddressLower(a);
    BundiAddressNames(ToLower(a));
  }

  lemma NewDelhiAddressLower(a: string)
    requires a == "New Delhi, Delhi, India"
    ensures ToLower(a) == "new delhi, delhi, india"
  {
  }

  lemma NewDelhiAddressLacksFirstNames(m: string)
    requires m == "new delhi, delhi, india"
    ensures !Contains(m, "jaipur") && !Contains(m, "kota") && !Contains(m, "ajmer")
  {
    MissingChar(m, "jaipur", 'j');
    MissingChar(m, "kota", 'k');
    MissingChar(m, "ajmer", 'j');
  }

  lemma NewDelhiAddressNames(m: string)
    requires m == "new delhi, delhi, india"
    ensures !Contains(m, "jaipur")
    ensures !Contains(m, "kota")
    ensures !Contains(m, "ajmer")
    ensures !Contains(m, "bundi")
    ensures Contains(m, "delhi")
  {
    NewDelhiAddressLacksFirstNames(m);
    MissingChar(m, "bundi", 'b');
    assert OccursAt(m, "delhi", 4);
  }

  lemma NewDelhiAddressRoutes(a: string)
    requires a == "New Delhi, Delhi, India"
    ensures FirstCatalogueMatch(a, 4)
  {
    CatalogueNamesLower();
    NewDelhiAddressLower(a);
    NewDelhiAddressNames(ToLower(a));
  }

  lemma MumbaiAddressLower(a: string)
    requires a == "Mumbai, Maharashtra, India"
    ensures ToLower(a) == "mumbai, maharashtra, india"
  {
  }

  lemma MumbaiAddressLacksFirstNames(m: string)
    requires m == "mumbai, maharashtra, india"
    ensures !Contains(m, "jaipur") && !Contains(m, "kota") && !Contains(m, "ajmer")
  {
    MissingChar(m, "jaipur", 'j');
    MissingChar(m, "kota", 'k');
    MissingChar(m, "ajmer", 'j');
  }

  /** "bundi" does not occur: every 'b' of the address is followed by an 'a'. */
  lemma MumbaiAddressLacksBundi(m: string)
    requires m == "mumbai, maharashtra, india"
    ensures !Contains(m, "bundi")
  {
    forall i | 0 <= i <= |m| - 5 ensures !OccursAt(m, "bundi", i) {
      assert m[i..i + 5][0] == m[i] && m[i..i + 5][1] == m[i + 1];
    }
  }

  lemma MumbaiAddressNames(m: string)
    requires m == "mumbai, maharashtra, india"
    ensures !Contains(m, "jaipur")
    ensures !Contains(m, "kota")
    ensures !Contains(m, "ajmer")
    ensures !Contains(m, "bundi")
    ensures !Contains(m, "delhi")
    ensures Contains(m, "mumbai")
  {
    MumbaiAddressLacksFirstNames(m);
    MumbaiAddressLacksBundi(m);
    MissingChar(m, "delhi", 'e');
    assert OccursAt(m, "mumbai", 0);
  }

  lemma MumbaiAddressRoutes(a: string)
    requires a == "Mumbai, Maharashtra, India"
    ensures FirstCatalogueMatch(a, 5)
  {
    CatalogueNamesLower();
    MumbaiAddressLower(a);
    MumbaiAddressNames(ToLower(a));
  }

  lemma BangaloreAddressLower(a: string)
    requires a == "Bangalore, Karnataka, India"
    ensures ToLower(a) == "bangalore, karnataka, india"
  {
  }

  lemma BangaloreAddressNames(m: string)
    requires m == "bangalore, karnataka, india"
    ensures !Contains(m, "jaipur")
    ensures !Contains(m, "ajmer")
    ensures !Contains(m, "bundi")
  {
    MissingChar(m, "jaipur", 'j');
    MissingChar(m, "ajmer", 'j');
    MissingChar(m, "bundi", 'u');
  }

  lemma BangaloreAddressNamesLater(m: string)
    requires m == "bangalore, karnataka, india"
    ensures !Contains(m, "delhi")
    ensures !Contains(m, "mumbai")
    ensures Contains(m, "bangalore")
  {
    MissingChar(m, "delhi", 'h');
    MissingChar(m, "mumbai", 'm');
    assert OccursAt(m, "bangalore", 0);
  }

  lemma BangaloreAddressLacksKota(m: string)
    requires m == "bangalore, karnataka, india"
    ensures !Contains(m, "kota")
  {
    forall i | 0 <= i <= |m| - 4 ensures !OccursAt(m, "kota", i) {
      assert m[i..i + 4][0] == m[i] && m[i..i + 4][1] == m[i + 1];
    }
  }

  lemma BangaloreAddressRoutes(a: string)
    requires a == "Bangalore, Karnataka, India"
    ensures FirstCatalogueMatch(a, 6)
  {
    CatalogueNamesLower();
    BangaloreAddressLower(a);
    BangaloreAddressNames(ToLower(a));
    BangaloreAddressLacksKota(ToLower(a));
    BangaloreAddressNamesLater(ToLower(a));
  }
  /** The address set for a picked city, spelled out. */
  lemma AddressOfParts(city: IndianCity, name: string, state: string, address: string)
    requires city.name == name && city.state == state
    requires name + ", " + state + ", India" == address
    ensures CityLocation(city).address == address
  {
  }

  lemma PickingJaipurMatches(k: int)
    requires k == 0
    ensures FirstCatalogueMatch(CityLocation(CatalogueCities[k]).address, k)
  {
    JaipurEntry(k);
    AddressOfParts(CatalogueCities[k], "Jaipur", "Rajasthan", "Jaipur, Rajasthan, India");
    JaipurAddressRoutes(CityLocation(CatalogueCities[k]).address);
  }

  lemma JaipurEntry(k: int)
    requires k == 0
    ensures CatalogueCities[k].name == "Jaipur" && CatalogueCities[k].state == "Rajasthan"
  {
  }

  lemma PickingKotaMatches(k: int)
    requires k == 1
    ensures FirstCatalogueMatch(CityLocation(CatalogueCities[k]).address, k)
  {
    KotaEntry(k);
    AddressOfParts(CatalogueCities[k], "Kota", "Rajasthan", "Kota, Rajasthan, India");
    KotaAddressRoutes(CityLocation(CatalogueCities[k]).address);
  }

  lemma KotaEntry(k: int)
    requires k == 1
    ensures CatalogueCities[k].name == "Kota" && CatalogueCities[k].state == "Rajasthan"
  {
  }

  lemma PickingAjmerMatches(k: int)
    requires k == 2
    ensures FirstCatalogueMatch(CityLocation(CatalogueCities[k]).address, k)
  {
    AjmerEntry(k);
    AddressOfParts(CatalogueCities[k], "Ajmer", "Rajasthan", "Ajmer, Rajasthan, India");
    AjmerAddressRoutes(CityLocation(CatalogueCities[k]).address);
  }

  lemma AjmerEntry(k: int)
    requires k == 2
    ensures CatalogueCities[k].name == "Ajmer" && CatalogueCities[k].state == "Rajasthan"
  {
  }

  lemma PickingBundiMatches(k: int)
    requires k == 3
    ensures FirstCatalogueMatch(CityLocation(CatalogueCities[k]).address, k)
  {
    BundiEntry(k);
    AddressOfParts(CatalogueCities[k], "Bundi", "Rajasthan", "Bundi, Rajasthan, India");
    BundiAddressRoutes(CityLocation(CatalogueCities[k]).address);
  }

  lemma BundiEntry(k: int)
    requires k == 3
    ensures CatalogueCities[k].name == "Bundi" && CatalogueCities[k].state == "Rajasthan"
  {
  }

  lemma PickingNewDelhiMatches(k: int)
    requires k == 4
    ensures FirstCatalogueMatch(CityLocation(CatalogueCities[k]).address, k)
  {
    NewDelhiEntry(k);
    AddressOfParts(CatalogueCities[k], "New Delhi", "Delhi", "New Delhi, Delhi, India");
    NewDelhiAddressRoutes(CityLocation(CatalogueCities[k]).address);
  }

  lemma NewDelhiEntry(k: int)
    requires k == 4
    ensures CatalogueCities[k].name == "New Delhi" && CatalogueCities[k].state == "Delhi"
  {
  }

  lemma PickingMumbaiMatches(k: int)
    requires k == 5
    ensures FirstCatalogueMatch(CityLocation(CatalogueCities[k]).address, k)
  {
    MumbaiEntry(k);
    AddressOfParts(CatalogueCities[k], "Mumbai", "Maharashtra", "Mumbai, Maharashtra, India");
    MumbaiAddressRoutes(CityLocation(CatalogueCities[k]).address);
  }

  lemma MumbaiEntry(k: int)
    requires k == 5
    ensures CatalogueCities[k].name == "Mumbai" && CatalogueCities[k].state == "Maharashtra"
  {
  }

  lemma PickingBangaloreMatches(k: int)
    requires k == 6
    ensures FirstCatalogueMatch(CityLocation(CatalogueCities[k]).address, k)
  {
    BangaloreEntry(k);
    AddressOfParts(CatalogueCities[k], "Bangalore", "Karnataka", "Bangalore, Karnataka, India");
    BangaloreAddressRoutes(CityLocation(CatalogueCities[k]).address);
  }

  lemma BangaloreEntry(k: int)
    requires k == 6
    ensures CatalogueCities[k].name == "Bangalore" && CatalogueCities[k].state == "Karnataka"
  {
  }

  /** The catalogue's choice follows from the first match. */
  lemma RouteFromMatch(address: string, k: int)
    requires FirstCatalogueMatch(address, k)
    ensures Catalog.CityProviders(address) == Catalog.CityGroups[k]
  {
    Catalog.CityProvidersIsFirstMatch(address);
  }

  lemma CatalogueCitiesListed()
    ensures forall c :: c in CatalogueCities ==> c in IndianCities
  {
    assert CatalogueCities[..4] == RajasthanCities[..4];
    assert DelhiNcrCities[0] in OtherCities;
    assert MaharashtraCities[0] in OtherCities;
    assert KarnatakaCities[0] in OtherCities;
  }

  /** Picking one of the catalogue's cities from the list sets an address that selects exactly
      that city's group of records. */
  lemma {:induction false} PickedCatalogueCitiesRoute()
    ensures forall c :: c in CatalogueCities ==> c in IndianCities
    ensures |CatalogueCities| == |Catalog.CityGroups|
    ensures forall k :: 0 <= k < |CatalogueCities| ==>
      Catalog.CityProviders(CityLocation(CatalogueCities[k]).address) == Catalog.CityGroups[k]
  {
    CatalogueCitiesListed();
    PickingJaipurMatches(0);
    PickingKotaMatches(1);
    PickingAjmerMatches(2);
    PickingBundiMatches(3);
    PickingNewDelhiMatches(4);
    PickingMumbaiMatches(5);
    PickingBangaloreMatches(6);
    assert |Catalog.CityGroups| == 7;
    forall k | 0 <= k < |CatalogueCities|
      ensures Catalog.CityProviders(CityLocation(CatalogueCities[k]).address) == Catalog.CityGroups[k]
    {
      RouteFromMatch(CityLocation(CatalogueCities[k]).address, k);
    }
  }
}
