/**
 * The POI service: the fixed `mockPOIs` catalog, lookup by id (`getPOIById`) and the
 * "nearby" query (`getNearbyPOIs`), which hands back the whole catalog re-positioned
 * around the caller.
 *
 * Long string constants are written as concatenations of short pieces, split between
 * words or after a `/` or `-` of a URL: the verifier handles a few short literals far
 * more cheaply than one long one. Joined, the pieces are the text they stand for.
 */
module PoiService {
  import opened Types

  /** The message of the error `getPOIById` rejects with. */
  const PoiNotFound := "POI not found"

  // ---------------------------------------------------------------------------
  // The catalog
  // ---------------------------------------------------------------------------

  /** Catalog entry '1'. */
  const EmpireStateBuilding: POI :=
    POI(
      id := "1",
      name := "Empire State" +
        " Building",
      location := "New York City," +
        " USA",
      latitude := 40.7484,
      longitude := -73.9857,
      shortDescription := "Iconic 102-story" +
        " skyscraper in" +
        " Midtown" +
        " Manhattan",
      description := EmpireStateBuildingDescription,
      imageUrl := "https://" +
        "images.pexels.com" +
        "/photos/" +
        "2190283/" +
        "pexels-photo-" +
        "2190283.jpeg")

  /** The opening sentence of the entry's description. */
  const EmpireStateBuildingDescription: string :=
    "The Empire State" +
    " Building is a" +
    " 102-story Art" +
    " Deco skyscraper" +
    " in Midtown" +
    " Manhattan, New" +
    " York City."

  /** Catalog entry '2'. */
  const StatueOfLiberty: POI :=
    POI(
      id := "2",
      name := "Statue of" +
        " Liberty",
      location := "New York Harbor," +
        " USA",
      latitude := 40.6892,
      longitude := -74.0445,
      shortDescription := "Colossal" +
        " neoclassical" +
        " sculpture on" +
        " Liberty Island",
      description := StatueOfLibertyDescription,
      imageUrl := "https://" +
        "images.pexels.com" +
        "/photos/" +
        "64271/" +
        "queen-of-liberty-" +
        "statue-of-liberty-" +
        "new-york-liberty-" +
        "statue-64271.jpeg")

  /** The opening sentence of the entry's description. */
  const StatueOfLibertyDescription: string :=
    "The Statue of" +
    " Liberty" +
    " (Liberty" +
    " Enlightening" +
    " the World;" +
    " French: La" +
    " Liberté" +
    " éclairant le" +
    " monde) is a" +
    " colossal" +
    " neoclassical" +
    " sculpture on" +
    " Liberty Island" +
    " in New York" +
    " Harbor in New" +
    " York City, in" +
    " the United" +
    " States."

  /** Catalog entry '3'. */
  const CentralPark: POI :=
    POI(
      id := "3",
      name := "Central Park",
      location := "Manhattan, New" +
        " York City, USA",
      latitude := 40.7829,
      longitude := -73.9654,
      shortDescription := "Urban park in" +
        " the heart of" +
        " Manhattan",
      description := CentralParkDescription,
      imageUrl := "https://" +
        "images.pexels.com" +
        "/photos/" +
        "449627/" +
        "pexels-photo-" +
        "449627.jpeg")

  /** The opening sentence of the entry's description. */
  const CentralParkDescription: string :=
    "Central Park is" +
    " an urban park" +
    " in New York" +
    " City located" +
    " between the" +
    " Upper West and" +
    " Upper East" +
    " Sides of" +
    " Manhattan."

  /** Catalog entry '4'. */
  const MetropolitanMuseum: POI :=
    POI(
      id := "4",
      name := "Metropolitan" +
        " Museum of Art",
      location := "New York City," +
        " USA",
      latitude := 40.7794,
      longitude := -73.9632,
      shortDescription := "The largest art" +
        " museum in the" +
        " United States",
      description := MetropolitanMuseumDescription,
      imageUrl := "https://" +
        "images.pexels.com" +
        "/photos/" +
        "3019019/" +
        "pexels-photo-" +
        "3019019.jpeg")

  /** The opening sentence of the entry's description. */
  const MetropolitanMuseumDescription: string :=
    "The Metropolitan" +
    " Museum of Art" +
    " of New York" +
    " City," +
    " colloquially" +
    " \"the Met\", is" +
    " the largest art" +
    " museum in the" +
    " United States."

  /** Catalog entry '5'. */
  const TimesSquare: POI :=
    POI(
      id := "5",
      name := "Times Square",
      location := "Manhattan, New" +
        " York City, USA",
      latitude := 40.7580,
      longitude := -73.9855,
      shortDescription := "Major commercial" +
        " intersection" +
        " and tourist" +
        " destination",
      description := TimesSquareDescription,
      imageUrl := "https://" +
        "images.pexels.com" +
        "/photos/" +
        "5155784/" +
        "pexels-photo-" +
        "5155784.jpeg")

  /** The opening sentence of the entry's description. */
  const TimesSquareDescription: string :=
    "Times Square is" +
    " a major" +
    " commercial" +
    " intersection," +
    " tourist" +
    " destination," +
    " entertainment" +
    " center, and" +
    " neighborhood in" +
    " the Midtown" +
    " Manhattan" +
    " section of New" +
    " York City, at" +
    " the junction of" +
    " Broadway and" +
    " Seventh Avenue."

  /** `mockPOIs`, in declaration order. */
  const Catalog: seq<POI> := [EmpireStateBuilding, StatueOfLiberty, CentralPark, MetropolitanMuseum, TimesSquare]

  predicate DistinctIds(pois: seq<POI>) {
    forall i, j :: 0 <= i < j < |pois| ==> pois[i].id != pois[j].id
  }

  /** The catalog ids are '1' to '5' in order, so no two entries share one. */
  lemma CatalogIds()
    ensures forall i :: 0 <= i < |Catalog| ==> Catalog[i].id == [('1' as int + i) as char]
    ensures DistinctIds(Catalog)
  {
  }

  // ---------------------------------------------------------------------------
  // Lookup by id
  // ---------------------------------------------------------------------------

  /** `pois.find(p => p.id === id)`, as the index of the first record with that id. */
  function FindIndex(pois: seq<POI>, id: string): (r: Option<nat>)
    ensures r.Some? ==> r.value < |pois| && pois[r.value].id == id
    ensures r.Some? ==> forall j :: 0 <= j < r.value ==> pois[j].id != id
    ensures r.None? ==> forall j :: 0 <= j < |pois| ==> pois[j].id != id
  {
    if |pois| == 0 then None
    else if pois[0].id == id then Some(0)
    else
      match FindIndex(pois[1..], id)
      case None => None
      case Some(k) => Some(k + 1)
  }

  /** `getPOIById`: the catalog record with the given id, or a rejection with "POI not found". */
  function GetPOIById(id: string): (r: Result<POI, string>)
    ensures r.Ok? ==> r.value in Catalog && r.value.id == id
    ensures r.Err? <==> forall p :: p in Catalog ==> p.id != id
    ensures r.Err? ==> r.error == PoiNotFound
  {
    match FindIndex(Catalog, id)
    case None => Err(PoiNotFound)
    case Some(k) => Ok(Catalog[k])
  }

  /** Every catalog record is found, unchanged, by its own id. */
  lemma GetPOIByIdFindsEveryEntry(i: nat)
    requires i < |Catalog|
    ensures GetPOIById(Catalog[i].id) == Ok(Catalog[i])
  {
    CatalogIds();
    var k := FindIndex(Catalog, Catalog[i].id).value;
    assert !(k < i) && !(i < k);
  }

  /** Because ids are distinct, a lookup succeeds with exactly the record carrying that id. */
  lemma GetPOIByIdExact(id: string, p: POI)
    ensures GetPOIById(id) == Ok(p) <==> p in Catalog && p.id == id
  {
    if p in Catalog && p.id == id {
      var i :| 0 <= i < |Catalog| && Catalog[i] == p;
      GetPOIByIdFindsEveryEntry(i);
    }
  }

  // ---------------------------------------------------------------------------
  // The nearby query
  // ---------------------------------------------------------------------------

  /**
   * `getNearbyPOIs(latitude, longitude, radius)`: every catalog record, in catalog order,
   * moved to the position `scatter(i)` that the random offset around the query point gives
   * the i-th record. No record is filtered out by `radius`.
   */
  function NearbyPOIs(latitude: real, longitude: real, scatter: nat -> Position, radius: real := 5.0): (r: seq<POI>)
    ensures |r| == |Catalog|
    ensures forall i :: 0 <= i < |r| ==> SameExceptCoordinates(r[i], Catalog[i])
    ensures forall i :: 0 <= i < |r| ==> r[i].latitude == scatter(i).latitude && r[i].longitude == scatter(i).longitude
  {
    Scattered(Catalog, scatter)
  }

  /** `pois.map((poi, i) => ({...poi, latitude, longitude}))` with the i-th position `scatter(i)`. */
  function Scattered(pois: seq<POI>, scatter: nat -> Position): (r: seq<POI>)
    ensures |r| == |pois|
    ensures forall i :: 0 <= i < |r| ==> r[i] == pois[i].MovedTo(scatter(i))
  {
    seq(|pois|, i requires 0 <= i < |pois| => pois[i].MovedTo(scatter(i)))
  }

  /** The radius argument has no effect on the answer. */
  lemma NearbyIgnoresRadius(latitude: real, longitude: real, scatter: nat -> Position, r1: real, r2: real)
    ensures NearbyPOIs(latitude, longitude, scatter, r1) == NearbyPOIs(latitude, longitude, scatter, r2)
  {
  }

  /** Each nearby record still resolves, through its id, to the catalog record it was made from. */
  lemma NearbyEntriesResolve(latitude: real, longitude: real, scatter: nat -> Position, i: nat)
    requires i < |Catalog|
    ensures var p := NearbyPOIs(latitude, longitude, scatter)[i];
      GetPOIById(p.id) == Ok(Catalog[i]) && SameExceptCoordinates(p, Catalog[i])
  {
    GetPOIByIdFindsEveryEntry(i);
  }
}
