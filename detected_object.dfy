/** The six object categories the app can show instructions for. */
module DetectedObjects {
  import opened Wrappers

  /** `enum DetectedObjectInfo: String, CaseIterable, Identifiable`. */
  datatype DetectedObjectInfo =
    | DoorLock
    | WifiRouter
    | Thermostat
    | KitchenAppliances
    | TvEntertainment
    | WasherDryer
  {
    /** `id`, the case's raw value (its Swift case name). */
    function Id(): string
    {
      match this
      case DoorLock => "doorLock"
      case WifiRouter => "wifiRouter"
      case Thermostat => "thermostat"
      case KitchenAppliances => "kitchenAppliances"
      case TvEntertainment => "tvEntertainment"
      case WasherDryer => "washerDryer"
    }

    /** `title`, the heading shown on the info card. */
    function Title(): string
    {
      match this
      case DoorLock => "Door Lock"
      case WifiRouter => "WiFi Network"
      case Thermostat => "Thermostat"
      case KitchenAppliances => "Kitchen Appliances"
      case TvEntertainment => "TV & Entertainment"
      case WasherDryer => "Washer & Dryer"
    }

    /** Position of the case in the declaration. */
    function Index(): nat
    {
      match this
      case DoorLock => 0
      case WifiRouter => 1
      case Thermostat => 2
      case KitchenAppliances => 3
      case TvEntertainment => 4
      case WasherDryer => 5
    }
  }

  /** `allCases`: each case once, in declaration order. */
  function AllCases(): (cases: seq<DetectedObjectInfo>)
    ensures |cases| == 6
    ensures forall i :: 0 <= i < |cases| ==> cases[i].Index() == i
    ensures forall c: DetectedObjectInfo :: c.Index() < |cases| && cases[c.Index()] == c
  {
    [DoorLock, WifiRouter, Thermostat, KitchenAppliances, TvEntertainment, WasherDryer]
  }

  /** `init?(rawValue:)`, synthesised for a `String`-backed enum. */
  function FromRawValue(raw: string): (r: Option<DetectedObjectInfo>)
    ensures r.Some? ==> r.value.Id() == raw
    ensures r.None? <==> forall c: DetectedObjectInfo :: c.Id() != raw
  {
    if raw == "doorLock" then Some(DoorLock)
    else if raw == "wifiRouter" then Some(WifiRouter)
    else if raw == "thermostat" then Some(Thermostat)
    else if raw == "kitchenAppliances" then Some(KitchenAppliances)
    else if raw == "tvEntertainment" then Some(TvEntertainment)
    else if raw == "washerDryer" then Some(WasherDryer)
    else None
  }

  /** Every case is recovered from its raw value. */
  lemma RawValueRoundTrip(c: DetectedObjectInfo)
    ensures FromRawValue(c.Id()) == Some(c)
  {
  }

  /** The `id` and `title` strings identify the case. */
  lemma IdsAndTitlesDistinct(a: DetectedObjectInfo, b: DetectedObjectInfo)
    ensures a.Id() == b.Id() ==> a == b
    ensures a.Title() == b.Title() ==> a == b
    ensures a.Index() == b.Index() ==> a == b
  {
  }
}
