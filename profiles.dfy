/** The picture-profile resolver: the static catalog of eleven profiles and the
    decision table that picks one of them from the wizard's answers. */
module Profiles {
  import opened ArrayOps
  import opened Wizard

  /** The catalog keys, as a closed enumeration. */
  datatype ProfileId =
    | CinemaNight
    | CinemaVivid
    | SportsArena
    | SportsNight
    | GameZonePro
    | GameZoneNight
    | EverydayComfort
    | EverydayVivid
    | SportsAndMovies
    | GamingAndSports
    | EntertainmentHub

  /** A catalog entry: its name and description (the settings list is display data). */
  datatype Profile = Profile(name: string, description: string)

  /** The catalog key, which is also the profile's display name. */
  function Name(id: ProfileId): string
  {
    match id
    case CinemaNight => "Cinema Night Mode"
    case CinemaVivid => "Cinema Vivid Mode"
    case SportsArena => "Sports Arena Mode"
    case SportsNight => "Sports Night Mode"
    case GameZonePro => "Game Zone Pro"
    case GameZoneNight => "Game Zone Night"
    case EverydayComfort => "Everyday Comfort"
    case EverydayVivid => "Everyday Vivid"
    case SportsAndMovies => "Sports & Movies Mode"
    case GamingAndSports => "Gaming & Sports Mode"
    case EntertainmentHub => "Entertainment Hub"
  }

  /** The `profiles` record: every entry stored under its own name. */
  const Catalog: map<string, Profile> := map[
    "Cinema Night Mode" := Profile("Cinema Night Mode", "Optimized for movies in a dark room"),
    "Cinema Vivid Mode" := Profile("Cinema Vivid Mode", "Optimized for movies in a bright room"),
    "Sports Arena Mode" := Profile("Sports Arena Mode", "Optimized for fast action and clarity"),
    "Sports Night Mode" := Profile("Sports Night Mode", "Sports viewing comfortable for evening"),
    "Game Zone Pro" := Profile("Game Zone Pro", "Maximum responsiveness for competitive gaming"),
    "Game Zone Night" := Profile("Game Zone Night", "Gaming optimized for dark room comfort"),
    "Everyday Comfort" := Profile("Everyday Comfort", "Balanced settings for all-day viewing"),
    "Everyday Vivid" := Profile("Everyday Vivid", "Dynamic settings for mixed content"),
    "Sports & Movies Mode" := Profile("Sports & Movies Mode", "Best of both worlds for action and cinema"),
    "Gaming & Sports Mode" := Profile("Gaming & Sports Mode", "Optimized for fast-paced action"),
    "Entertainment Hub" := Profile("Entertainment Hub", "Versatile settings for varied content")
  ]

  /** The catalog holds exactly the eleven keys, each entry is named by its key,
      and no two keys coincide. */
  lemma CatalogKeys()
    ensures forall id :: Name(id) in Catalog && Catalog[Name(id)].name == Name(id)
    ensures forall key :: key in Catalog ==> exists id :: Name(id) == key
    ensures forall id1, id2 :: Name(id1) == Name(id2) ==> id1 == id2
  {
    assert Name(CinemaNight) in Catalog;
    assert Name(CinemaVivid) in Catalog;
    assert Name(SportsArena) in Catalog;
    assert Name(SportsNight) in Catalog;
    assert Name(GameZonePro) in Catalog;
    assert Name(GameZoneNight) in Catalog;
    assert Name(EverydayComfort) in Catalog;
    assert Name(EverydayVivid) in Catalog;
    assert Name(SportsAndMovies) in Catalog;
    assert Name(GamingAndSports) in Catalog;
    assert Name(EntertainmentHub) in Catalog;
  }

  /** `profiles[name]` for a catalog key. */
  function Lookup(id: ProfileId): (p: Profile)
    ensures Name(id) in Catalog && p == Catalog[Name(id)]
    ensures p.name == Name(id)
  {
    CatalogKeys();
    Catalog[Name(id)]
  }

  /** `contentPriority`: the order in which a multi-selection picks its primary type. */
  const ContentPriority: seq<ContentType> := [Gaming, Sports, Movies, General]

  /** The priority order ranks every content type. */
  lemma EveryTypeRanked()
    ensures forall c: ContentType :: c in ContentPriority
  {
    forall c: ContentType ensures c in ContentPriority {
      match c
      case Gaming => assert ContentPriority[0] == c;
      case Sports => assert ContentPriority[1] == c;
      case Movies => assert ContentPriority[2] == c;
      case General => assert ContentPriority[3] == c;
    }
  }

  /** The position of the first entry of `priority` that `types` includes, or
      `|priority|` when it includes none of them. */
  function FirstIncluded(priority: seq<ContentType>, types: seq<ContentType>): (i: nat)
    ensures i <= |priority|
    ensures i < |priority| ==> priority[i] in types
    ensures forall j :: 0 <= j < i ==> priority[j] !in types
  {
    if |priority| == 0 then 0
    else if priority[0] in types then 0
    else 1 + FirstIncluded(priority[1..], types)
  }

  /** `getPrimaryContentType`: the first type of the priority order that was selected,
      defaulting to `general` when none was. */
  function PrimaryContentType(types: seq<ContentType>): (r: ContentType)
    ensures r == Gaming <==> Gaming in types
    ensures r == Sports <==> Sports in types && Gaming !in types
    ensures r == Movies <==> Movies in types && Gaming !in types && Sports !in types
    ensures r == General <==> Gaming !in types && Sports !in types && Movies !in types
    ensures |types| > 0 ==> r in types
  {
    var i := FirstIncluded(ContentPriority, types);
    assert i > 0 ==> ContentPriority[0] !in types;
    assert i > 1 ==> ContentPriority[1] !in types;
    assert i > 2 ==> ContentPriority[2] !in types;
    assert i > 3 ==> ContentPriority[3] !in types;
    EveryTypeRanked();
    assert |types| > 0 ==> types[0] in types && types[0] in ContentPriority;
    if i < |ContentPriority| then ContentPriority[i] else General
  }

  /** A selection of several types that one of the hybrid rules decides. */
  predicate MultiDecides(types: seq<ContentType>)
  {
    |types| > 1 &&
    ((Gaming in types && Sports in types) ||
     (Sports in types && Movies in types) ||
     |types| >= 3 || General in types)
  }

  /** The content type a single-type profile belongs to; none for the hybrid profiles. */
  function Family(id: ProfileId): Option<ContentType>
  {
    match id
    case CinemaNight => Some(Movies)
    case CinemaVivid => Some(Movies)
    case SportsArena => Some(Sports)
    case SportsNight => Some(Sports)
    case GameZonePro => Some(Gaming)
    case GameZoneNight => Some(Gaming)
    case EverydayComfort => Some(General)
    case EverydayVivid => Some(General)
    case SportsAndMovies => None
    case GamingAndSports => None
    case EntertainmentHub => None
  }

  /** The subdued variant of its family (night or comfort, rather than vivid or bright). */
  predicate IsCalm(id: ProfileId)
  {
    id == CinemaNight || id == SportsNight || id == GameZoneNight || id == EverydayComfort
  }

  /** The answers that call for the subdued variant of family `c`: a natural colour
      preference for general viewing, night-time viewing for the others, or a
      comfortable brightness for any of them. */
  predicate WantsCalm(a: Answers, c: ContentType)
  {
    a.brightnessPreference == Some(Comfortable) ||
    (if c == General then a.colorPreference == Some(Natural)
     else a.viewingTime == Some(Nighttime))
  }

  /** `getProfile`: the profile the results screen shows for the answers. */
  function GetProfile(a: Answers): (r: ProfileId)
    ensures Family(r).None? <==> MultiDecides(a.contentTypes)
    ensures |a.contentTypes| > 1 && Gaming in a.contentTypes && Sports in a.contentTypes ==>
      r == GamingAndSports
    ensures (|a.contentTypes| > 1 && Sports in a.contentTypes && Movies in a.contentTypes &&
             Gaming !in a.contentTypes) ==> r == SportsAndMovies
    ensures MultiDecides(a.contentTypes) && Sports !in a.contentTypes ==> r == EntertainmentHub
    ensures (MultiDecides(a.contentTypes) && Sports in a.contentTypes &&
             Gaming !in a.contentTypes && Movies !in a.contentTypes) ==> r == EntertainmentHub
    ensures Family(r).Some? ==>
      Family(r).value == PrimaryContentType(a.contentTypes) &&
      (IsCalm(r) <==> WantsCalm(a, Family(r).value))
  {
    var contentTypes := a.contentTypes;
    var viewingTime := a.viewingTime;
    var colorPreference := a.colorPreference;
    var brightnessPreference := a.brightnessPreference;
    var hasGaming := Gaming in contentTypes;
    var hasSports := Sports in contentTypes;
    var hasMovies := Movies in contentTypes;
    if |contentTypes| > 1 && hasGaming && hasSports then GamingAndSports
    else if |contentTypes| > 1 && hasSports && hasMovies then SportsAndMovies
    else if |contentTypes| > 1 && (|contentTypes| >= 3 || General in contentTypes) then EntertainmentHub
    else
      var primaryContent := PrimaryContentType(contentTypes);
      if primaryContent == Movies then
        if viewingTime == Some(Nighttime) || brightnessPreference == Some(Comfortable)
        then CinemaNight else CinemaVivid
      else if primaryContent == Sports then
        if viewingTime == Some(Nighttime) || brightnessPreference == Some(Comfortable)
        then SportsNight else SportsArena
      else if primaryContent == Gaming then
        if viewingTime == Some(Nighttime) || brightnessPreference == Some(Comfortable)
        then GameZoneNight else GameZonePro
      else if colorPreference == Some(Natural) || brightnessPreference == Some(Comfortable)
      then EverydayComfort
      else EverydayVivid
  }

  /** The motion preference never influences the chosen profile. */
  lemma MotionIrrelevant(a: Answers, m: Option<MotionPreference>)
    ensures GetProfile(a.(motionPreference := m)) == GetProfile(a)
  {
  }

  /** A two-type selection of movies and gaming matches no hybrid rule and resolves
      exactly as a selection of gaming alone. */
  lemma MoviesAndGamingFallThrough(a: Answers)
    requires |a.contentTypes| == 2
    requires Movies in a.contentTypes && Gaming in a.contentTypes
    ensures !MultiDecides(a.contentTypes)
    ensures GetProfile(a) == GetProfile(a.(contentTypes := [Gaming]))
  {
    var ct := a.contentTypes;
    assert ct == [ct[0], ct[1]];
    assert Sports !in ct && General !in ct;
  }

  /** The result is always an entry of the catalog, stored under its own name. */
  lemma GetProfileInCatalog(a: Answers)
    ensures Name(GetProfile(a)) in Catalog
    ensures Lookup(GetProfile(a)) in Catalog.Values
    ensures Lookup(GetProfile(a)).name == Name(GetProfile(a))
  {
  }

  /** Every catalog entry is the result for some answers. */
  lemma EveryProfileReachable(id: ProfileId)
    ensures exists a :: GetProfile(a) == id
  {
    var calm := Answers([], Some(Nighttime), Some(Natural), None, Some(Comfortable));
    var vivid := Answers([], Some(Daytime), Some(Vivid), None, Some(Bright));
    match id
    case CinemaNight => assert GetProfile(calm.(contentTypes := [Movies])) == id;
    case CinemaVivid => assert GetProfile(vivid.(contentTypes := [Movies])) == id;
    case SportsNight => assert GetProfile(calm.(contentTypes := [Sports])) == id;
    case SportsArena => assert GetProfile(vivid.(contentTypes := [Sports])) == id;
    case GameZoneNight => assert GetProfile(calm.(contentTypes := [Gaming])) == id;
    case GameZonePro => assert GetProfile(vivid.(contentTypes := [Gaming])) == id;
    case EverydayComfort => assert GetProfile(calm) == id;
    case EverydayVivid => assert GetProfile(vivid) == id;
    case SportsAndMovies => assert GetProfile(vivid.(contentTypes := [Sports, Movies])) == id;
    case GamingAndSports => assert GetProfile(vivid.(contentTypes := [Gaming, Sports])) == id;
    case EntertainmentHub => assert GetProfile(vivid.(contentTypes := [Movies, General])) == id;
  }

  /** Worked examples of the resolution rules. */
  lemma Scenarios(a: Answers)
    ensures GetProfile(Answers([Movies], Some(Daytime), None, None, Some(Bright))) == CinemaVivid
    ensures GetProfile(Answers([Sports], a.viewingTime, None, None, Some(Comfortable))) == SportsNight
    ensures GetProfile(a.(contentTypes := [Gaming, Sports])) == GamingAndSports
    ensures GetProfile(Answers([General], None, Some(Vivid), None, Some(Bright))) == EverydayVivid
    ensures GetProfile(a.(contentTypes := [])) == GetProfile(a.(contentTypes := [General]))
  {
  }
}
