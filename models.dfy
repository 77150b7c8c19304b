/** The app's value types: a provider record, its price tier, a location and a chat message. */
module Models {

  datatype Option<T> = None | Some(value: T)

  /** The three ordered affordability bands. */
  datatype PriceLevel = Cheap | Mediocre | Premium

  /** Kotlin's `PriceLevel.name`. */
  function PriceLevelName(p: PriceLevel): string {
    match p
    case Cheap => "CHEAP"
    case Mediocre => "MEDIOCRE"
    case Premium => "PREMIUM"
  }

  /** One service business. `rating` is a Kotlin Float and `distance`, `latitude`,
      `longitude` are Doubles; all four are exact reals here. `distance` is in km. */
  datatype ServiceProvider = ServiceProvider(
    id: string,
    name: string,
    category: string,
    rating: real,
    reviewCount: int,
    priceLevel: PriceLevel,
    address: string,
    distance: real,
    description: string,
    latitude: real,
    longitude: real,
    services: seq<string>,
    yearEstablished: Option<int>,
    isVerified: bool
  )

  datatype Location = Location(latitude: real, longitude: real, address: string)

  /** A chat bubble; `providers` and `suggestions` are Kotlin nullable lists. */
  datatype ChatMessage = ChatMessage(
    id: string,
    text: string,
    isUser: bool,
    timestamp: int,
    providers: Option<seq<ServiceProvider>>,
    suggestions: Option<seq<string>>
  )
}
