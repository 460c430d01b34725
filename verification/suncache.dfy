/** Daylight data for a date and location, cached in key-value storage and
    fetched from the sunrise/sunset service on a miss. */
module SunCache {

  import opened Wrappers
  import opened Text

  /** Sunset and civil-twilight end, as the ISO-8601 UTC strings the service returns. */
  datatype SunData = SunData(sunset: string, civilTwilightEnd: string)

  /** The sun-data entries of the browser's key-value storage. */
  type Store = map<string, SunData>

  /** The service's JSON reply, or a request that failed before a reply was read. */
  datatype Response =
    | Response(status: string, sunset: string, civilTwilightEnd: string)
    | NetworkFailure

  datatype SunError = StatusNotOk(status: string) | NetworkError

  /** A successful lookup: the data, the storage afterwards, and whether the service was called. */
  datatype Fetched = Fetched(data: SunData, store: Store, networkCalled: bool)

  /** Dates come from the date picker as `yyyy-MM-dd`. */
  predicate WellFormedDate(date: string) { |date| == 10 }

  /** Coordinates are decimal strings and never contain the key separator. */
  predicate WellFormedCoordinate(c: string) { '_' !in c }

  /** `sunData_${date}_${lat}_${lng}`, built the same way on save and on load. */
  function StorageKey(date: string, lat: string, lng: string): string {
    "sunData_" + date + "_" + lat + "_" + lng
  }

  /** Distinct (date, latitude, longitude) triples never share a storage entry:
      the fixed-width date and the underscore-free latitude fix the boundaries. */
  lemma StorageKeyInjective(d1: string, lat1: string, lng1: string,
                                               d2: string, lat2: string, lng2: string)
    requires WellFormedDate(d1) && WellFormedDate(d2)
    requires WellFormedCoordinate(lat1) && WellFormedCoordinate(lat2)
    ensures StorageKey(d1, lat1, lng1) == StorageKey(d2, lat2, lng2)
            <==> d1 == d2 && lat1 == lat2 && lng1 == lng2
  {
    var k1, k2 := StorageKey(d1, lat1, lng1), StorageKey(d2, lat2, lng2);
    if k1 == k2 {
      assert d1 == k1[8..18] == k2[8..18] == d2;
      var t1 := lat1 + "_" + lng1;
      var t2 := lat2 + "_" + lng2;
      assert k1 == "sunData_" + d1 + "_" + t1;
      assert k2 == "sunData_" + d2 + "_" + t2;
      assert t1 == k1[19..] == k2[19..] == t2;
      SplitAtSeparator(lat1, lng1, lat2, lng2, '_');
    }
  }

  /** `saveSunDataToStorage`: the entry for the triple becomes `data`; every other entry stays. */
  function Save(store: Store, date: string, lat: string, lng: string, data: SunData): (r: Store)
    ensures StorageKey(date, lat, lng) in r && r[StorageKey(date, lat, lng)] == data
    ensures r.Keys == store.Keys + {StorageKey(date, lat, lng)}
    ensures forall k :: k in store && k != StorageKey(date, lat, lng) ==> r[k] == store[k]
  {
    store[StorageKey(date, lat, lng) := data]
  }

  /** `loadSunDataFromStorage`: the stored entry for the triple, or nothing. */
  function Load(store: Store, date: string, lat: string, lng: string): (r: Option<SunData>)
    ensures r.Some? <==> StorageKey(date, lat, lng) in store
    ensures r.Some? ==> r.value == store[StorageKey(date, lat, lng)]
  {
    var key := StorageKey(date, lat, lng);
    if key in store then Some(store[key]) else None
  }

  /** Loading the triple just saved returns what was saved. */
  lemma LoadAfterSave(store: Store, date: string, lat: string, lng: string, data: SunData)
    ensures Load(Save(store, date, lat, lng, data), date, lat, lng) == Some(data)
  {
  }

  /** Saving one well-formed triple does not disturb what another loads. */
  lemma LoadAfterSaveOther(store: Store, date: string, lat: string, lng: string, data: SunData,
                           date': string, lat': string, lng': string)
    requires WellFormedDate(date) && WellFormedDate(date')
    requires WellFormedCoordinate(lat) && WellFormedCoordinate(lat')
    requires (date, lat, lng) != (date', lat', lng')
    ensures Load(Save(store, date, lat, lng, data), date', lat', lng') == Load(store, date', lat', lng')
  {
    StorageKeyInjective(date, lat, lng, date', lat', lng');
  }

  /** The service writes UTC as `+00:00`; the first such marker becomes `Z`. */
  function NormaliseUtc(stamp: string): (r: string)
    ensures (forall j :: !OccursAt(stamp, "+00:00", j)) ==> r == stamp
    ensures forall i :: FirstOccurrence(stamp, "+00:00", i) ==> r == stamp[..i] + "Z" + stamp[i + 6..]
  {
    ReplaceFirst(stamp, "+00:00", "Z")
  }

  /** A typical service timestamp is rewritten to the `Z` form, and a timestamp
      already in that form is left alone. */
  lemma NormaliseUtcServiceStamp(d: string)
    requires '+' !in d
    ensures NormaliseUtc(d + "+00:00") == d + "Z"
    ensures NormaliseUtc(d + "Z") == d + "Z"
  {
    ReplaceUtcSuffix(d);
    ReplaceWithoutPlus(d + "Z");
  }

  /** `fetchSunData`: answer from storage when it holds the triple; otherwise
      ask the service, and on an "OK" reply store and return the normalised data.
      Any other reply, or a failed request, is an error and stores nothing. */
  function FetchSunData(store: Store, date: string, lat: string, lng: string,
                        response: Response): (r: Result<Fetched, SunError>)
    ensures StorageKey(date, lat, lng) in store ==>
              r == Success(Fetched(store[StorageKey(date, lat, lng)], store, false))
    ensures r.Success? ==> Load(r.value.store, date, lat, lng) == Some(r.value.data)
    ensures r.Success? ==> r.value.networkCalled <==> StorageKey(date, lat, lng) !in store
    ensures r.Success? && r.value.networkCalled ==>
              && response.Response? && response.status == "OK"
              && r.value.data == SunData(NormaliseUtc(response.sunset),
                                         NormaliseUtc(response.civilTwilightEnd))
    ensures r.Success? && r.value.networkCalled ==>
              r.value.store == Save(store, date, lat, lng, r.value.data)
    ensures r.Failure? <==>
              StorageKey(date, lat, lng) !in store && !(response.Response? && response.status == "OK")
  {
    match Load(store, date, lat, lng)
    case Some(cached) => Success(Fetched(cached, store, false))
    case None =>
      match response
      case NetworkFailure => Failure(NetworkError)
      case Response(status, sunset, twilight) =>
        if status != "OK" then Failure(StatusNotOk(status))
        else
          var data := SunData(NormaliseUtc(sunset), NormaliseUtc(twilight));
          Success(Fetched(data, Save(store, date, lat, lng, data), true))
  }

  /** Storage only grows: a lookup never drops or rewrites an entry it found. */
  lemma FetchKeepsEntries(store: Store, date: string, lat: string, lng: string, response: Response)
    requires FetchSunData(store, date, lat, lng, response).Success?
    ensures var s' := FetchSunData(store, date, lat, lng, response).value.store;
            forall k :: k in store ==> k in s' && s'[k] == store[k]
  {
  }

  /** Two lookups of the same triple call the service at most once, and the
      second answers what the first did, whatever the service would now reply. */
  lemma FetchTwiceCallsOnce(store: Store, date: string, lat: string, lng: string,
                            first: Response, second: Response)
    requires FetchSunData(store, date, lat, lng, first).Success?
    ensures var f := FetchSunData(store, date, lat, lng, first).value;
            var g := FetchSunData(f.store, date, lat, lng, second);
            g == Success(Fetched(f.data, f.store, false))
  {
  }
}
