/**
 * The attractions adapter of `lib/opentripmap.ts`: a cache-aside read keyed by
 * destination, a guard on unknown coordinates, the radius search, one detail
 * lookup per place (falling back to the basic record), the name filter and
 * the length bound.
 */
module OpenTripMap {
  import opened Wrappers
  import opened JsText
  import opened Seqs
  import opened Types
  import opened Cache
  import Utils

  /** A place from the radius search. */
  datatype Place = Place(
    xid: string,
    name: Option<string>,
    kinds: Option<string>,
    point: Coordinates,
    rate: Option<int>)

  /** The fields read from a place's detail record. */
  datatype Details = Details(
    name: Option<string>,
    wikipediaText: Option<string>,
    infoDescr: Option<string>,
    wikipedia: Option<string>,
    previewSource: Option<string>)

  /** `place.kinds?.split(',')[0] || 'attraction'`. */
  function Category(kinds: Option<string>): (r: string)
    ensures r != ""
    ensures kinds.Some? && Split(kinds.value, ',')[0] != "" ==> r == Split(kinds.value, ',')[0]
    ensures kinds.None? || Split(kinds.value, ',')[0] == "" ==> r == "attraction"
  {
    if kinds.Some? && Split(kinds.value, ',')[0] != "" then Split(kinds.value, ',')[0] else "attraction"
  }

  /** The category is the text before the first comma of `kinds`, never containing one. */
  lemma CategoryIsFirstKind(kinds: string)
    requires Split(kinds, ',')[0] != ""
    ensures Category(Some(kinds)) == kinds[..|Category(Some(kinds))|]
    ensures ',' !in Category(Some(kinds))
    ensures |Category(Some(kinds))| < |kinds| ==> kinds[|Category(Some(kinds))|] == ','
  {
    SplitFirstField(kinds, ',');
  }

  /**
   * One place as an attraction: with its details when the lookup succeeded,
   * otherwise the basic record (name, category, coordinates, rating).
   */
  function ToAttraction(place: Place, details: Option<Details>): (a: Attraction)
    ensures a.name != ""
    ensures a.category == Category(place.kinds) && a.coordinates == place.point && a.rating == place.rate
    ensures details.None? ==>
              a.name == OrElse(place.name, "Unknown")
              && a.description.None? && a.wikipediaUrl.None? && a.image.None?
    ensures details.Some? ==>
              a.name == OrElse(details.value.name, OrElse(place.name, "Unknown"))
              && a.wikipediaUrl == details.value.wikipedia && a.image == details.value.previewSource
              // the Wikipedia extract when it is non-empty, else the short description
              && a.description == (if Truthy(details.value.wikipediaText) then details.value.wikipediaText
                                   else details.value.infoDescr)
  {
    match details
    case Some(d) =>
      Attraction(
        name := OrElse(d.name, OrElse(place.name, "Unknown")),
        description := if Truthy(d.wikipediaText) then d.wikipediaText else d.infoDescr,
        category := Category(place.kinds),
        coordinates := place.point,
        wikipediaUrl := d.wikipedia,
        image := d.previewSource,
        rating := place.rate)
    case None =>
      Attraction(
        name := OrElse(place.name, "Unknown"),
        description := None,
        category := Category(place.kinds),
        coordinates := place.point,
        wikipediaUrl := None,
        image := None,
        rating := place.rate)
  }

  /**
   * `Promise.all(places.map(...))`, sequentially: one attraction per place, in
   * order; `detailsOf` is the detail request (`None` when it throws).
   */
  function ToAttractions(places: seq<Place>, detailsOf: string -> Option<Details>): (r: seq<Attraction>)
    ensures |r| == |places|
    ensures forall i :: 0 <= i < |places| ==> r[i] == ToAttraction(places[i], detailsOf(places[i].xid))
  {
    if places == [] then []
    else [ToAttraction(places[0], detailsOf(places[0].xid))] + ToAttractions(places[1..], detailsOf)
  }

  /** `a.name && a.name !== 'Unknown'`. */
  predicate Named(a: Attraction) {
    a.name != "" && a.name != "Unknown"
  }

  /** `attractions:${destination}`: the cache key ignores `limit`. */
  function AttractionsKey(destination: string): string {
    "attractions:" + destination
  }

  /** What a cache miss ends in. Only `Found` is written to the cache. */
  datatype Lookup =
    | NoCoordinates                       // unknown destination: `[]`, no provider call
    | SearchFailed                        // the radius search threw: `[]`
    | NoPlaces                            // an empty (or missing) response: `[]`
    | Found(attractions: seq<Attraction>) // the named attractions of the first `limit` places

  /**
   * What a miss computes: the named attractions built, in order, from the
   * first `limit` places of the radius search, each with its details or its
   * basic record.
   */
  function FreshAttractions(destination: string, limit: int,
                            search: Coordinates -> Option<seq<Place>>, detailsOf: string -> Option<Details>)
    : (r: Lookup)
    ensures r.NoCoordinates? <==> Utils.GetCoordinates(destination) == Utils.ZERO
    ensures Utils.GetCoordinates(destination) != Utils.ZERO ==>
              (r.SearchFailed? <==> search(Utils.GetCoordinates(destination)).None?)
              && (r.NoPlaces? <==> search(Utils.GetCoordinates(destination)) == Some([]))
    ensures r.Found? ==>
              var places := search(Utils.GetCoordinates(destination)).value;
              places != []
              && r.attractions == Filter(ToAttractions(SliceTo(places, limit), detailsOf), Named)
    ensures r.Found? ==> forall i :: 0 <= i < |r.attractions| ==> Named(r.attractions[i])
    ensures r.Found? && limit >= 0 ==> |r.attractions| <= limit
  {
    var coords := Utils.GetCoordinates(destination);
    if coords.lat == 0 && coords.lon == 0 then NoCoordinates
    else
      match search(coords)
      case None => SearchFailed
      case Some(places) =>
        if places == [] then NoPlaces
        else Found(Filter(ToAttractions(SliceTo(places, limit), detailsOf), Named))
  }

  /**
   * A place whose detail lookup fails is kept with its basic record rather than
   * dropped, unless it has no usable name.
   */
  lemma FailedDetailsDegrade(destination: string, limit: int, search: Coordinates -> Option<seq<Place>>,
                             detailsOf: string -> Option<Details>, place: Place)
    requires Utils.GetCoordinates(destination) != Utils.ZERO
    requires search(Utils.GetCoordinates(destination)).Some?
    requires place in SliceTo(search(Utils.GetCoordinates(destination)).value, limit)
    requires detailsOf(place.xid).None? && Truthy(place.name) && place.name.value != "Unknown"
    ensures FreshAttractions(destination, limit, search, detailsOf).Found?
    ensures ToAttraction(place, None) in FreshAttractions(destination, limit, search, detailsOf).attractions
  {
    var places := SliceTo(search(Utils.GetCoordinates(destination)).value, limit);
    var all := ToAttractions(places, detailsOf);
    var i :| 0 <= i < |places| && places[i] == place;
    assert all[i] == ToAttraction(place, None);
    assert all[i] in all;
  }

  /** Every cached list holds only named attractions. */
  ghost predicate CachedAttractionsValid(entries: map<string, seq<Attraction>>) {
    forall k :: k in entries ==> forall i :: 0 <= i < |entries[k]| ==> Named(entries[k][i])
  }

  /**
   * `getAttractions`: a hit returns the first `limit` cached entries; a miss
   * computes the named attractions, caches them and returns the first `limit`;
   * any thrown error gives `[]`. A read failure counts as a miss and a write
   * failure is ignored.
   */
  method GetAttractions(destination: string, limit: int, store: Store<string, seq<Attraction>>,
                        search: Coordinates -> Option<seq<Place>>, detailsOf: string -> Option<Details>,
                        readOk: bool, writeOk: bool)
    returns (r: seq<Attraction>)
    modifies store
    ensures readOk && AttractionsKey(destination) in old(store.entries) ==>
              r == SliceTo(old(store.entries)[AttractionsKey(destination)], limit)
              && store.entries == old(store.entries)
    ensures !(readOk && AttractionsKey(destination) in old(store.entries)) ==>
              match FreshAttractions(destination, limit, search, detailsOf)
              case Found(valid) =>
                r == SliceTo(valid, limit)
                && store.entries == if writeOk then old(store.entries)[AttractionsKey(destination) := valid]
                                    else old(store.entries)
              case _ => r == [] && store.entries == old(store.entries)
    ensures limit >= 0 ==> |r| <= limit
    ensures CachedAttractionsValid(old(store.entries)) ==>
              CachedAttractionsValid(store.entries) && forall i :: 0 <= i < |r| ==> Named(r[i])
  {
    var key := AttractionsKey(destination);
    var cached := store.Get(key, readOk);
    if cached.Some? {
      return SliceTo(cached.value, limit);
    }
    var computed := FreshAttractions(destination, limit, search, detailsOf);
    if !computed.Found? {
      return [];
    }
    var valid := computed.attractions;
    store.SetEx(key, valid, writeOk);
    r := SliceTo(valid, limit);
  }
}
