/**
 * The voice assistant's command interpreter, `processVoiceCommand`.
 *
 * A command is folded to lower case once; an ordered chain of keyword tests
 * then picks one case (nearby places, history, the user's location, directions,
 * or the fallback), and the case decides the reply text and the POI, if any,
 * the reply is about. The interpreter is split here into `Classify`, which runs
 * the chain and gathers the values a reply needs, and `Respond`, which renders them.
 *
 * Long string constants are written as concatenations of short pieces, split between
 * words or after a `/` or `-` of a URL: the verifier handles a few short literals far
 * more cheaply than one long one. Joined, the pieces are the text they stand for.
 */
module VoiceService {
  import opened Types
  import opened Text
  import PoiService

  /** The `{response, poi?}` record the interpreter resolves to. */
  datatype VoiceCommandResponse = VoiceCommandResponse(response: string, poi: Option<POI>)

  /** The outer branches of the dispatch chain. */
  datatype Category = NearbyQuery | HistoryQuery | LocationQuery | NavigationQuery | Unrecognized

  /** The case that answers a command, with the values its reply is built from. */
  datatype Intent =
    | NearbyMuseums(count: nat, closest: POI)
    | NoMuseumsNearby
    | NearbyRestaurants
    | NearbyPlaces(count: nat, closest: POI)
    | EmpireStateHistory
    | LibertyHistory
    | LocalHistory
    | WhereAmI
    | NavigateToEmpireState
    | NavigateToCentralPark
    | NavigateTo(destination: string)
    | Fallback
  {
    /** The outer branch this case belongs to. */
    function Branch(): Category {
      match this
      case NearbyMuseums(_, _) => NearbyQuery
      case NoMuseumsNearby => NearbyQuery
      case NearbyRestaurants => NearbyQuery
      case NearbyPlaces(_, _) => NearbyQuery
      case EmpireStateHistory => HistoryQuery
      case LibertyHistory => HistoryQuery
      case LocalHistory => HistoryQuery
      case WhereAmI => LocationQuery
      case NavigateToEmpireState => NavigationQuery
      case NavigateToCentralPark => NavigationQuery
      case NavigateTo(_) => NavigationQuery
      case Fallback => Unrecognized
    }

    /** The cases that name a particular landmark. */
    predicate NamesLandmark() {
      NearbyMuseums? || NearbyPlaces? || EmpireStateHistory? || LibertyHistory?
      || NavigateToEmpireState? || NavigateToCentralPark?
    }
  }

  // ---------------------------------------------------------------------------
  // Keyword precedence
  // ---------------------------------------------------------------------------

  /** The command mentions one of `words`. */
  predicate MentionsAny(s: string, words: seq<string>) {
    exists w :: w in words && Contains(s, w)
  }

  /** The branches in the order they are tried, each with the keywords that select it. */
  const Precedence: seq<(Category, seq<string>)> := [
    (NearbyQuery, ["nearby", "near me"]),
    (HistoryQuery, ["history", "about"]),
    (LocationQuery, ["where am i", "my location"]),
    (NavigationQuery, ["take me to", "directions to"])
  ]

  /** First match wins: the first row whose keywords `s` mentions, else `Unrecognized`. */
  function Dispatch(table: seq<(Category, seq<string>)>, s: string): Category {
    if table == [] then Unrecognized
    else if MentionsAny(s, table[0].1) then table[0].0
    else Dispatch(table[1..], s)
  }

  // ---------------------------------------------------------------------------
  // Museums and destinations
  // ---------------------------------------------------------------------------

  /** The museum test of the nearby-museum query; both substring tests are case-sensitive. */
  predicate IsMuseum(p: POI) {
    Contains(p.name, "Museum") || Contains(p.description, "museum")
  }

  /** `pois.filter(IsMuseum)`: each museum as often as it occurs, and nothing else. */
  function Museums(pois: seq<POI>): (r: seq<POI>)
    ensures |r| <= |pois|
    ensures forall p :: p in r <==> p in pois && IsMuseum(p)
    ensures forall p :: multiset(r)[p] == if IsMuseum(p) then multiset(pois)[p] else 0
  {
    if pois == [] then []
    else
      assert pois == [pois[0]] + pois[1..];
      if IsMuseum(pois[0]) then [pois[0]] + Museums(pois[1..])
      else Museums(pois[1..])
  }

  /** The filter keeps the order of what it keeps: filtering a concatenation concatenates the filtered parts. */
  lemma {:induction false} MuseumsAppend(a: seq<POI>, b: seq<POI>)
    ensures Museums(a + b) == Museums(a) + Museums(b)
  {
    if a == [] {
      assert a + b == b;
    } else {
      assert (a + b)[0] == a[0];
      assert (a + b)[1..] == a[1..] + b;
      MuseumsAppend(a[1..], b);
    }
  }

  /** The museum the reply names is the earliest museum in the list. */
  lemma {:induction false} FirstMuseumIsEarliest(pois: seq<POI>, k: nat)
    requires k < |pois| && IsMuseum(pois[k])
    requires forall j :: 0 <= j < k ==> !IsMuseum(pois[j])
    ensures Museums(pois) != [] && Museums(pois)[0] == pois[k]
  {
    if k > 0 {
      FirstMuseumIsEarliest(pois[1..], k - 1);
    }
  }

  /** The text `take me to (.+)` captures, else what `directions to (.+)` captures, else a placeholder. */
  function Destination(lower: string): (d: string)
    ensures |d| > 0
    ensures Capture(lower, "take me to ").Some? ==> d == Capture(lower, "take me to ").value
    ensures Capture(lower, "take me to ").None? && Capture(lower, "directions to ").Some?
      ==> d == Capture(lower, "directions to ").value
    ensures Capture(lower, "take me to ").None? && Capture(lower, "directions to ").None?
      ==> d == "your destination"
  {
    match Capture(lower, "take me to ")
    case Some(d) => d
    case None =>
      match Capture(lower, "directions to ")
      case Some(d) => d
      case None => "your destination"
  }

  // ---------------------------------------------------------------------------
  // The dispatch chain
  // ---------------------------------------------------------------------------

  /**
   * The keyword chain of `processVoiceCommand`, run on the lower-cased command.
   * `museumSearch` and `placesSearch` are what the two `getNearbyPOIs` calls of the
   * nearby branch resolve to; the second is indexed at 0 without a check, so it must not be empty.
   */
  function Classify(command: string, museumSearch: seq<POI>, placesSearch: seq<POI>): Intent
    requires |placesSearch| > 0
  {
    var lower := Lower(command);
    if Contains(lower, "nearby") || Contains(lower, "near me") then
      if Contains(lower, "museum") then
        var museums := Museums(museumSearch);
        if |museums| > 0 then NearbyMuseums(|museums|, museums[0]) else NoMuseumsNearby
      else if Contains(lower, "restaurant") || Contains(lower, "food") then
        NearbyRestaurants
      else
        NearbyPlaces(|placesSearch|, placesSearch[0])
    else if Contains(lower, "history") || Contains(lower, "about") then
      if Contains(lower, "empire state") || Contains(lower, "empire") then EmpireStateHistory
      else if Contains(lower, "liberty") || Contains(lower, "statue") then LibertyHistory
      else LocalHistory
    else if Contains(lower, "where am i") || Contains(lower, "my location") then
      WhereAmI
    else if Contains(lower, "take me to") || Contains(lower, "directions to") then
      if Contains(lower, "empire state") then NavigateToEmpireState
      else if Contains(lower, "central park") then NavigateToCentralPark
      else NavigateTo(Destination(lower))
    else
      Fallback
  }

  /** The reply each case renders. */
  function Respond(intent: Intent): (r: VoiceCommandResponse)
    ensures |r.response| > 0
    ensures r.poi.Some? <==> intent.NamesLandmark()
  {
    VoiceCommandResponse(ReplyText(intent), Attached(intent))
  }

  /** The `poi` of the reply: the closest place found, or the landmark the reply is about. */
  function Attached(intent: Intent): (p: Option<POI>)
    ensures p.Some? <==> intent.NamesLandmark()
    ensures (intent.NearbyMuseums? || intent.NearbyPlaces?) ==> p == Some(intent.closest)
    ensures (intent.EmpireStateHistory? || intent.NavigateToEmpireState?) ==> p.Some? && p.value.id == "1"
    ensures intent.LibertyHistory? ==> p.Some? && p.value.id == "2"
    ensures intent.NavigateToCentralPark? ==> p.Some? && p.value.id == "3"
  {
    match intent
    case NearbyMuseums(_, closest) => Some(closest)
    case NearbyPlaces(_, closest) => Some(closest)
    case EmpireStateHistory => Some(EmpireStateLandmark)
    case LibertyHistory => Some(LibertyLandmark)
    case NavigateToEmpireState => Some(EmpireStateLandmark)
    case NavigateToCentralPark => Some(CentralParkLandmark)
    case _ => None
  }

  /** The `response` text of the reply. */
  function ReplyText(intent: Intent): (t: string)
    ensures |t| > 0
  {
    match intent
    case NearbyMuseums(count, closest) => FoundText(count, " museums", closest)
    case NoMuseumsNearby => NoMuseumsText
    case NearbyRestaurants => RestaurantsText
    case NearbyPlaces(count, closest) => FoundText(count, " points of interest", closest)
    case EmpireStateHistory => EmpireStateHistoryText
    case LibertyHistory => LibertyHistoryText
    case LocalHistory => LocalHistoryText
    case WhereAmI => WhereAmIText
    case NavigateToEmpireState =>
      NavigationText("the Empire State Building", EmpireStateDirectionsText)
    case NavigateToCentralPark => NavigationText("Central Park", CentralParkDirectionsText)
    case NavigateTo(destination) => NavigationText(destination, RouteText)
    case Fallback => FallbackText
  }

  /** The nearby query of the museum sub-branch. */
  function MuseumSearch(scatter: nat -> Position): (r: seq<POI>)
    ensures |r| == |PoiService.Catalog|
  {
    PoiService.NearbyPOIs(40.7794, -73.9632, scatter)
  }

  /** The nearby query of the generic sub-branch. */
  function PlacesSearch(scatter: nat -> Position): (r: seq<POI>)
    ensures |r| == |PoiService.Catalog|
  {
    PoiService.NearbyPOIs(40.7580, -73.9855, scatter)
  }

  /**
   * `processVoiceCommand(command)`. `scatter` stands for the random positions the nearby
   * query gives the catalog records; the processing delay is not modelled.
   */
  function ProcessVoiceCommand(command: string, scatter: nat -> Position): (r: VoiceCommandResponse)
    ensures |r.response| > 0
  {
    Respond(Classify(command, MuseumSearch(scatter), PlacesSearch(scatter)))
  }

  // ---------------------------------------------------------------------------
  // Properties of the interpreter
  // ---------------------------------------------------------------------------

  lemma MentionsEither(s: string, a: string, b: string)
    ensures MentionsAny(s, [a, b]) <==> Contains(s, a) || Contains(s, b)
  {
    if Contains(s, a) {
      assert a in [a, b];
    }
    if Contains(s, b) {
      assert b in [a, b];
    }
  }

  /** `Dispatch` over `Precedence`, one row at a time. */
  lemma DispatchPrecedence(s: string)
    ensures Dispatch(Precedence, s) ==
      if Contains(s, "nearby") || Contains(s, "near me") then NearbyQuery
      else if Contains(s, "history") || Contains(s, "about") then HistoryQuery
      else if Contains(s, "where am i") || Contains(s, "my location") then LocationQuery
      else if Contains(s, "take me to") || Contains(s, "directions to") then NavigationQuery
      else Unrecognized
  {
    MentionsEither(s, "nearby", "near me");
    MentionsEither(s, "history", "about");
    MentionsEither(s, "where am i", "my location");
    MentionsEither(s, "take me to", "directions to");
    var t1 := Precedence[1..];
    var t2 := t1[1..];
    var t3 := t2[1..];
    assert t3[1..] == [];
    assert Dispatch(t3, s) == if MentionsAny(s, t3[0].1) then t3[0].0 else Dispatch(t3[1..], s);
    assert Dispatch(t2, s) == if MentionsAny(s, t2[0].1) then t2[0].0 else Dispatch(t3, s);
    assert Dispatch(t1, s) == if MentionsAny(s, t1[0].1) then t1[0].0 else Dispatch(t2, s);
  }

  /** The chain tries the four keyword pairs in a fixed order and the first pair mentioned wins. */
  lemma ClassifyFollowsPrecedence(command: string, museumSearch: seq<POI>, placesSearch: seq<POI>)
    requires |placesSearch| > 0
    ensures Classify(command, museumSearch, placesSearch).Branch() == Dispatch(Precedence, Lower(command))
  {
    DispatchPrecedence(Lower(command));
  }

  /** Only the lower-cased command matters: a command and its lower-case form get the same case. */
  lemma ClassifyIgnoresCase(command: string, museumSearch: seq<POI>, placesSearch: seq<POI>)
    requires |placesSearch| > 0
    ensures Classify(Lower(command), museumSearch, placesSearch) == Classify(command, museumSearch, placesSearch)
  {
    LowerIdempotent(command);
  }

  /** A command and its lower-case form get the same reply. */
  lemma ProcessIgnoresCase(command: string, scatter: nat -> Position)
    ensures ProcessVoiceCommand(Lower(command), scatter) == ProcessVoiceCommand(command, scatter)
  {
    ClassifyIgnoresCase(command, MuseumSearch(scatter), PlacesSearch(scatter));
  }

  /** The reply to a command that takes the nearby branch and mentions museums. */
  lemma NearbyMuseumReply(command: string, scatter: nat -> Position)
    requires Dispatch(Precedence, Lower(command)) == NearbyQuery
    requires Contains(Lower(command), "museum")
    ensures var r := ProcessVoiceCommand(command, scatter);
      var museums := Museums(MuseumSearch(scatter));
      && 0 < |museums| <= |PoiService.Catalog|
      && r.poi == Some(museums[0])
      && IsMuseum(museums[0])
      && r.response == FoundText(|museums|, " museums", museums[0])
  {
    DispatchPrecedence(Lower(command));
    MetIsMuseum(scatter);
  }

  /** The Metropolitan Museum of Art, wherever the search puts it, passes the museum test. */
  lemma MetIsMuseum(scatter: nat -> Position)
    ensures MuseumSearch(scatter)[3] in Museums(MuseumSearch(scatter))
    ensures SameExceptCoordinates(MuseumSearch(scatter)[3], PoiService.MetropolitanMuseum)
  {
    var met := MuseumSearch(scatter)[3];
    assert met.name == PoiService.MetropolitanMuseum.name;
    assert met.name[13..19] == "Museum";
    assert OccursAt(met.name, "Museum", 13);
  }

  /** The rest of the nearby branch: restaurants get a fixed text, anything else the first search result. */
  lemma NearbyOtherReply(command: string, scatter: nat -> Position)
    requires Dispatch(Precedence, Lower(command)) == NearbyQuery
    requires !Contains(Lower(command), "museum")
    ensures var lower := Lower(command);
      var r := ProcessVoiceCommand(command, scatter);
      if Contains(lower, "restaurant") || Contains(lower, "food") then
        r == VoiceCommandResponse(RestaurantsText, None)
      else
        && r.poi.Some?
        && r.poi.value.id == "1"
        && SameExceptCoordinates(r.poi.value, PoiService.EmpireStateBuilding)
        && r.response == FoundText(5, " points of interest", r.poi.value)
  {
    DispatchPrecedence(Lower(command));
  }

  /** Which history case a command takes. */
  lemma HistoryCase(command: string, museumSearch: seq<POI>, placesSearch: seq<POI>)
    requires |placesSearch| > 0
    requires Dispatch(Precedence, Lower(command)) == HistoryQuery
    ensures var lower := Lower(command);
      Classify(command, museumSearch, placesSearch) ==
        if Contains(lower, "empire") then EmpireStateHistory
        else if Contains(lower, "liberty") || Contains(lower, "statue") then LibertyHistory
        else LocalHistory
  {
    var lower := Lower(command);
    DispatchPrecedence(lower);
    if Contains(lower, "empire state") {
      assert "empire state" == "empire" + " state";
      ContainsPrefix(lower, "empire", " state");
    }
  }

  /** The history branch: the Empire State Building, else the Statue of Liberty, else a general text. */
  lemma HistoryReply(command: string, scatter: nat -> Position)
    requires Dispatch(Precedence, Lower(command)) == HistoryQuery
    ensures var lower := Lower(command);
      var r := ProcessVoiceCommand(command, scatter);
      if Contains(lower, "empire") then
        r.response == EmpireStateHistoryText && r.poi.Some? && r.poi.value.id == "1"
      else if Contains(lower, "liberty") || Contains(lower, "statue") then
        r.response == LibertyHistoryText && r.poi.Some? && r.poi.value.id == "2"
      else
        r == VoiceCommandResponse(LocalHistoryText, None)
  {
    HistoryCase(command, MuseumSearch(scatter), PlacesSearch(scatter));
  }

  /** The location branch answers with a fixed description of the area and no POI. */
  lemma LocationReply(command: string, scatter: nat -> Position)
    requires Dispatch(Precedence, Lower(command)) == LocationQuery
    ensures ProcessVoiceCommand(command, scatter) == VoiceCommandResponse(WhereAmIText, None)
  {
    DispatchPrecedence(Lower(command));
  }

  /** The navigation branch: two known landmarks, else the destination the command names. */
  lemma NavigationReply(command: string, scatter: nat -> Position)
    requires Dispatch(Precedence, Lower(command)) == NavigationQuery
    ensures var lower := Lower(command);
      var r := ProcessVoiceCommand(command, scatter);
      if Contains(lower, "empire state") then
        && r.response == NavigationText("the Empire State Building", EmpireStateDirectionsText)
        && r.poi.Some? && r.poi.value.id == "1"
      else if Contains(lower, "central park") then
        && r.response == NavigationText("Central Park", CentralParkDirectionsText)
        && r.poi.Some? && r.poi.value.id == "3"
      else
        r == VoiceCommandResponse(NavigationText(Destination(lower), RouteText), None)
  {
    DispatchPrecedence(Lower(command));
  }

  /** A command that mentions no keyword gets the fallback text and no POI. */
  lemma FallbackReply(command: string, scatter: nat -> Position)
    requires Dispatch(Precedence, Lower(command)) == Unrecognized
    ensures ProcessVoiceCommand(command, scatter) == VoiceCommandResponse(FallbackText, None)
  {
    DispatchPrecedence(Lower(command));
  }

  /** The place a nearby reply names comes from the search it ran: the first museum found, or the first place. */
  lemma ClosestComesFromSearch(command: string, museumSearch: seq<POI>, placesSearch: seq<POI>)
    requires |placesSearch| > 0
    ensures var intent := Classify(command, museumSearch, placesSearch);
      && (intent.NearbyMuseums? ==>
            intent.closest in museumSearch && IsMuseum(intent.closest)
            && intent.count == |Museums(museumSearch)| && intent.count > 0)
      && (intent.NearbyPlaces? ==> intent.closest == placesSearch[0] && intent.count == |placesSearch|)
  {
  }

  /** The two records share what identifies a landmark: id, name, location, short description and image. */
  predicate SameLandmark(p: POI, q: POI) {
    && p.id == q.id
    && p.name == q.name
    && p.location == q.location
    && p.shortDescription == q.shortDescription
    && p.imageUrl == q.imageUrl
  }

  /**
   * The record a reply spells out for a landmark resolves to the catalog entry `i` and agrees
   * with it on everything but the description, coordinates included.
   */
  predicate SpellsOutEntry(p: POI, i: nat)
    requires i < |PoiService.Catalog|
  {
    && PoiService.GetPOIById(p.id) == Ok(PoiService.Catalog[i])
    && SameLandmark(p, PoiService.Catalog[i])
    && p.latitude == PoiService.Catalog[i].latitude
    && p.longitude == PoiService.Catalog[i].longitude
  }

  lemma EmpireStateLandmarkMatchesCatalog()
    ensures SpellsOutEntry(EmpireStateLandmark, 0)
  {
    PoiService.GetPOIByIdFindsEveryEntry(0);
  }

  lemma LibertyLandmarkMatchesCatalog()
    ensures SpellsOutEntry(LibertyLandmark, 1)
  {
    PoiService.GetPOIByIdFindsEveryEntry(1);
  }

  lemma CentralParkLandmarkMatchesCatalog()
    ensures SpellsOutEntry(CentralParkLandmark, 2)
  {
    PoiService.GetPOIByIdFindsEveryEntry(2);
  }

  /** `p` is a catalog entry, possibly moved. */
  predicate FromCatalog(p: POI) {
    exists i :: 0 <= i < |PoiService.Catalog| && SameExceptCoordinates(p, PoiService.Catalog[i])
  }

  /** Every POI a case attaches resolves through `getPOIById` to the catalog entry of the same landmark. */
  lemma AttachedResolves(intent: Intent)
    requires intent.NearbyMuseums? || intent.NearbyPlaces? ==> FromCatalog(intent.closest)
    ensures var p := Attached(intent);
      p.Some? ==>
        var found := PoiService.GetPOIById(p.value.id);
        found.Ok? && SameLandmark(p.value, found.value)
  {
    match intent
    case NearbyMuseums(_, closest) =>
      var i :| 0 <= i < |PoiService.Catalog| && SameExceptCoordinates(closest, PoiService.Catalog[i]);
      PoiService.GetPOIByIdFindsEveryEntry(i);
    case NearbyPlaces(_, closest) =>
      var i :| 0 <= i < |PoiService.Catalog| && SameExceptCoordinates(closest, PoiService.Catalog[i]);
      PoiService.GetPOIByIdFindsEveryEntry(i);
    case EmpireStateHistory => EmpireStateLandmarkMatchesCatalog();
    case NavigateToEmpireState => EmpireStateLandmarkMatchesCatalog();
    case LibertyHistory => LibertyLandmarkMatchesCatalog();
    case NavigateToCentralPark => CentralParkLandmarkMatchesCatalog();
    case _ =>
  }

  /** Any POI a reply carries resolves through `getPOIById` to the catalog entry of the same landmark. */
  lemma AttachedPoiResolves(command: string, scatter: nat -> Position)
    ensures var r := ProcessVoiceCommand(command, scatter);
      r.poi.Some? ==>
        var found := PoiService.GetPOIById(r.poi.value.id);
        found.Ok? && SameLandmark(r.poi.value, found.value)
  {
    var museumSearch, placesSearch := MuseumSearch(scatter), PlacesSearch(scatter);
    var intent := Classify(command, museumSearch, placesSearch);
    ClosestComesFromSearch(command, museumSearch, placesSearch);
    if intent.NearbyMuseums? {
      var i :| 0 <= i < |museumSearch| && museumSearch[i] == intent.closest;
      assert FromCatalog(intent.closest);
    } else if intent.NearbyPlaces? {
      assert SameExceptCoordinates(intent.closest, PoiService.Catalog[0]);
    }
    AttachedResolves(intent);
  }

  /** Whatever follows "take me to " up to the end of a one-line command is the destination. */
  lemma DestinationAfterTakeMeTo(d: string)
    requires |d| > 0
    requires forall m :: 0 <= m < |d| ==> !IsLineTerminator(d[m])
    ensures Destination("take me to " + d) == d
  {
    var s := "take me to " + d;
    assert s[0..11] == "take me to ";
    assert s[11] == d[0];
    assert MatchesAt(s, "take me to ", 0);
    LineEndAtEnd(s, 11);
    assert s[11..|s|] == d;
  }

  /** With nothing after "take me to", neither pattern matches and the placeholder is used. */
  lemma DestinationPlaceholder()
    ensures Destination("take me to") == "your destination"
  {
    assert forall i: nat :: !MatchesAt("take me to", "take me to ", i);
    assert forall i: nat :: !MatchesAt("take me to", "directions to ", i);
  }

  // ---------------------------------------------------------------------------
  // Fixed replies and the landmark records the replies carry
  // ---------------------------------------------------------------------------

  /** The reply to a nearby query that found places: their number, then the closest by name. */
  function FoundText(count: nat, kind: string, closest: POI): (t: string)
    ensures |t| > 0
  {
    "I found " + NatToString(count) + kind + " nearby." +
    " The closest one is " + closest.name +
    ", which is " + closest.shortDescription + "."
  }

  /** The reply to a navigation request: the destination, then the rest of the sentence. */
  function NavigationText(destination: string, rest: string): (t: string)
    ensures |t| > 0
  {
    "I'll help you" + " navigate to " + destination + rest
  }

  const RouteText: string :=
    ". Let me find the" +
      " best route for" +
      " you."

  const NoMuseumsText: string :=
    "I couldn't find" +
      " any museums" +
      " near your" +
      " current" +
      " location."

  const RestaurantsText: string :=
    "I found several" +
      " restaurants" +
      " nearby. The" +
      " closest ones" +
      " are Joe's" +
      " Pizza, Cafe" +
      " Luna, and Green" +
      " Garden" +
      " Restaurant."

  const EmpireStateDirectionsText: string :=
    ". It's about 0.8" +
      " miles northeast" +
      " from your" +
      " current" +
      " location."

  const CentralParkDirectionsText: string :=
    ". It's about 1.2" +
      " miles north" +
      " from your" +
      " current" +
      " location."

  const EmpireStateHistoryText: string :=
    "The Empire State" +
      " Building is a" +
      " 102-story Art" +
      " Deco skyscraper" +
      " in Midtown" +
      " Manhattan. It" +
      " was completed" +
      " in 1931 and was" +
      " the world's" +
      " tallest" +
      " building until" +
      " 1970. It's" +
      " named after New" +
      " York's" +
      " nickname, the" +
      " Empire State."

  const LibertyHistoryText: string :=
    "The Statue of" +
      " Liberty is a" +
      " colossal" +
      " neoclassical" +
      " sculpture on" +
      " Liberty Island" +
      " in New York" +
      " Harbor. It was" +
      " a gift from the" +
      " people of" +
      " France," +
      " dedicated in" +
      " 1886. The" +
      " statue" +
      " represents" +
      " Libertas, the" +
      " Roman goddess" +
      " of freedom."

  const LocalHistoryText: string :=
    "This area has a" +
      " rich history." +
      " It was first" +
      " settled by" +
      " Native" +
      " Americans, and" +
      " later became an" +
      " important" +
      " center for" +
      " trade and" +
      " commerce. Many" +
      " historical" +
      " events have" +
      " taken place" +
      " here over the" +
      " centuries."

  const WhereAmIText: string :=
    "You are" +
      " currently in" +
      " Midtown" +
      " Manhattan, New" +
      " York City." +
      " There are" +
      " several points" +
      " of interest" +
      " nearby," +
      " including Times" +
      " Square, the" +
      " Empire State" +
      " Building, and" +
      " Central Park."

  const FallbackText: string :=
    "I'm not sure how" +
      " to help with" +
      " that. You can" +
      " ask me about" +
      " nearby" +
      " attractions," +
      " the history of" +
      " a place, or how" +
      " to get to a" +
      " specific" +
      " location."

  /** The record the history and navigation replies attach for the Empire State Building (the two copies in the source are identical). */
  const EmpireStateLandmark: POI :=
    POI(
      id := "1",
      name := "Empire State" +
          " Building",
      location := "New York City," +
          " USA",
      latitude := 40.7484,
      longitude := -73.9857,
      shortDescription := "Iconic 102-story" +
          " skyscraper in" +
          " Midtown" +
          " Manhattan",
      description := "The Empire State" +
          " Building is a" +
          " 102-story Art" +
          " Deco skyscraper" +
          " in Midtown" +
          " Manhattan, New" +
          " York City. The" +
          " building was" +
          " designed by" +
          " Shreve, Lamb &" +
          " Harmon and" +
          " built from 1930" +
          " to 1931.",
      imageUrl := "https://" +
          "images.pexels.com" +
          "/photos/" +
          "2190283/" +
          "pexels-photo-" +
          "2190283.jpeg")

  /** The record the history reply attaches for the Statue of Liberty. */
  const LibertyLandmark: POI :=
    POI(
      id := "2",
      name := "Statue of" +
          " Liberty",
      location := "New York Harbor," +
          " USA",
      latitude := 40.6892,
      longitude := -74.0445,
      shortDescription := "Colossal" +
          " neoclassical" +
          " sculpture on" +
          " Liberty Island",
      description := "The Statue of" +
          " Liberty is a" +
          " colossal" +
          " neoclassical" +
          " sculpture on" +
          " Liberty Island" +
          " in New York" +
          " Harbor in New" +
          " York City. The" +
          " copper statue," +
          " a gift from the" +
          " people of" +
          " France, was" +
          " designed by" +
          " French sculptor" +
          " Frédéric" +
          " Auguste" +
          " Bartholdi.",
      imageUrl := "https://" +
          "images.pexels.com" +
          "/photos/" +
          "64271/" +
          "queen-of-liberty-" +
          "statue-of-liberty-" +
          "new-york-liberty-" +
          "statue-64271.jpeg")

  /** The record the navigation reply attaches for Central Park. */
  const CentralParkLandmark: POI :=
    POI(
      id := "3",
      name := "Central Park",
      location := "Manhattan, New" +
          " York City, USA",
      latitude := 40.7829,
      longitude := -73.9654,
      shortDescription := "Urban park in" +
          " the heart of" +
          " Manhattan",
      description := "Central Park is" +
          " an urban park" +
          " in New York" +
          " City located" +
          " between the" +
          " Upper West and" +
          " Upper East" +
          " Sides of" +
          " Manhattan. It" +
          " is the" +
          " fifth-largest" +
          " park in the" +
          " city, covering" +
          " 843 acres.",
      imageUrl := "https://" +
          "images.pexels.com" +
          "/photos/" +
          "449627/" +
          "pexels-photo-" +
          "449627.jpeg")
}
