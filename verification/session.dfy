/** The application's session state and the recalculation that ties the
    cache, the play-time estimate and the tee-time derivation together. */
module Session {

  import opened Wrappers
  import opened Clock
  import opened PlayTime
  import opened TeeTime
  import opened SunCache

  /** The page's state object. An unset location field is the empty string;
      `lastUsed*` remember the triple whose sun data is in `lastSunData`. */
  datatype State = State(
    lat: string, lng: string, timezone: string,
    lastUsedDate: string, lastUsedLat: string, lastUsedLng: string,
    lastSunData: Option<SunData>,
    store: Store)

  /** The state at page load: no location, nothing remembered, storage as found. */
  function Initial(store: Store): State {
    State("", "", "", "", "", "", None, store)
  }

  /** A latitude, a longitude and a timezone are all known. */
  predicate LocationSet(s: State) {
    s.lat != "" && s.lng != "" && s.timezone != ""
  }

  /** Sun data is remembered whenever a triple has been recorded. */
  predicate Consistent(s: State) {
    s.lastSunData.None? ==> s.lastUsedLat == ""
  }

  /** The remembered sun data is what storage holds for the recorded triple. */
  predicate MemoCoherent(s: State) {
    s.lastSunData.Some? ==> Load(s.store, s.lastUsedDate, s.lastUsedLat, s.lastUsedLng) == s.lastSunData
  }

  /** The remembered sun data belongs to another date or location. */
  predicate MemoStale(s: State, date: string) {
    date != s.lastUsedDate || s.lat != s.lastUsedLat || s.lng != s.lastUsedLng
  }

  lemma InitialConsistent(store: Store)
    ensures Consistent(Initial(store)) && !LocationSet(Initial(store))
  {
  }

  datatype Refreshed = Refreshed(state: State, networkCalled: bool)

  /** The memo check: only when the triple changed is the sun data looked up
      (storage first, then the service); the new triple is recorded only once
      the lookup succeeded. */
  function RefreshSunData(s: State, date: string, response: Response): (r: Result<Refreshed, SunError>)
    ensures !MemoStale(s, date) ==> r == Success(Refreshed(s, false))
    ensures r.Failure? ==> MemoStale(s, date) && FetchSunData(s.store, date, s.lat, s.lng, response).Failure?
    ensures r.Success? ==> var t := r.value.state;
              && t.lastUsedDate == date && t.lastUsedLat == s.lat && t.lastUsedLng == s.lng
              && t.lat == s.lat && t.lng == s.lng && t.timezone == s.timezone
    ensures r.Success? && MemoStale(s, date) ==>
              var f := FetchSunData(s.store, date, s.lat, s.lng, response);
              f.Success? && r.value.state.lastSunData == Some(f.value.data) && r.value.state.store == f.value.store
    ensures r.Success? ==>
              (r.value.networkCalled <==> MemoStale(s, date) && StorageKey(date, s.lat, s.lng) !in s.store)
  {
    if !MemoStale(s, date) then Success(Refreshed(s, false))
    else
      match FetchSunData(s.store, date, s.lat, s.lng, response)
      case Failure(e) => Failure(e)
      case Success(f) =>
        Success(Refreshed(s.(lastSunData := Some(f.data), store := f.store,
                             lastUsedDate := date, lastUsedLat := s.lat, lastUsedLng := s.lng),
                          f.networkCalled))
  }

  /** With a location set, a successful refresh leaves sun data to work with and keeps the state consistent. */
  lemma RefreshKeepsConsistent(s: State, date: string, response: Response)
    requires Consistent(s) && LocationSet(s)
    requires RefreshSunData(s, date, response).Success?
    ensures var t := RefreshSunData(s, date, response).value.state;
            Consistent(t) && LocationSet(t) && t.lastSunData.Some?
  {
  }

  lemma InitialCoherent(store: Store)
    ensures MemoCoherent(Initial(store))
  {
  }

  /** A successful refresh keeps the remembered data in step with storage. */
  lemma RefreshKeepsCoherent(s: State, date: string, response: Response)
    requires MemoCoherent(s)
    requires RefreshSunData(s, date, response).Success?
    ensures MemoCoherent(RefreshSunData(s, date, response).value.state)
  {
  }

  /** The memo is invisible: whether it is reused or refreshed, the remembered
      sun data afterwards is what a storage-then-service lookup returns. */
  lemma MemoTransparent(s: State, date: string, response: Response)
    requires Consistent(s) && MemoCoherent(s) && LocationSet(s)
    requires RefreshSunData(s, date, response).Success?
    ensures var f := FetchSunData(s.store, date, s.lat, s.lng, response);
            f.Success? && RefreshSunData(s, date, response).value.state.lastSunData == Some(f.value.data)
  {
  }

  /** A second refresh for the same date and location changes nothing and asks no one. */
  lemma RefreshTwiceIsMemoised(s: State, date: string, first: Response, second: Response)
    requires RefreshSunData(s, date, first).Success?
    ensures var t := RefreshSunData(s, date, first).value.state;
            RefreshSunData(t, date, second) == Success(Refreshed(t, false))
  {
  }

  /** What one recalculation shows: minutes per hole, the round's total minutes,
      the two daylight-end instants and the two latest tee times, and the one on display. */
  datatype Report = Report(
    perHole: int, totalMinutes: int,
    sunsetEnd: int, twilightEnd: int,
    lastTeeSunset: int, lastTeeTwilight: int,
    shown: int)

  datatype CalcError = LocationNotSet | SunDataUnavailable(cause: SunError)

  datatype Calculation = Calculation(state: State, report: Report, networkCalled: bool)

  /** The tee time on display: the twilight-based one when twilight is included. */
  function Displayed(report: Report, includeTwilight: bool): int {
    if includeTwilight then report.lastTeeTwilight else report.lastTeeSunset
  }

  /** `calculateLastTeeTime`. The ISO timestamps are read into instants by
      `parse`; the resolved timezone is the offset function `offset`. Both
      latest tee times are floored on the local minute field. */
  function CalculateLastTeeTime(s: State, date: string, holes: int, flightSize: int,
                                slowFactor: int, includeTwilight: bool,
                                response: Response, parse: string -> int, offset: Offset)
    : (r: Result<Calculation, CalcError>)
    requires Consistent(s)
    requires ValidHoles(holes) && ValidFlight(flightSize)
    ensures r == Failure(LocationNotSet) <==> !LocationSet(s)
    ensures r.Failure? && LocationSet(s) ==>
              r.error.SunDataUnavailable? && MemoStale(s, date) && StorageKey(date, s.lat, s.lng) !in s.store
    ensures r.Success? ==>
              var refreshed := RefreshSunData(s, date, response);
              && refreshed.Success?
              && r.value.state == refreshed.value.state
              && r.value.networkCalled == refreshed.value.networkCalled
    ensures r.Success? ==> var c := r.value;
              && Consistent(c.state) && c.state.lastSunData.Some?
              && c.state.lastUsedDate == date && c.state.lastUsedLat == s.lat && c.state.lastUsedLng == s.lng
              && (!MemoStale(s, date) ==> c.state == s && !c.networkCalled)
              && (c.networkCalled <==> MemoStale(s, date) && StorageKey(date, s.lat, s.lng) !in s.store)
    ensures r.Success? ==> var c := r.value; var rep := c.report;
              && rep.totalMinutes == CalculatePlayTime(holes, flightSize) + slowFactor * holes
              && 2 * holes * rep.perHole - holes <= 2 * rep.totalMinutes < 2 * holes * rep.perHole + holes
              && rep.sunsetEnd == parse(c.state.lastSunData.value.sunset)
              && rep.twilightEnd == parse(c.state.lastSunData.value.civilTwilightEnd)
              && rep.lastTeeSunset <= rep.sunsetEnd - rep.totalMinutes * MsPerMinute
                                   < rep.lastTeeSunset + SlotMillis
              && rep.lastTeeTwilight <= rep.twilightEnd - rep.totalMinutes * MsPerMinute
                                     < rep.lastTeeTwilight + SlotMillis
              && rep.shown == Displayed(rep, includeTwilight)
    ensures r.Success? ==> var rep := r.value.report;
              var sunsetStart := SubtractMinutes(rep.sunsetEnd, rep.totalMinutes);
              var twilightStart := SubtractMinutes(rep.twilightEnd, rep.totalMinutes);
              var w := FromMillis(rep.lastTeeSunset + offset(sunsetStart) * MsPerMinute);
              var v := FromMillis(rep.lastTeeTwilight + offset(twilightStart) * MsPerMinute);
              && w.minute % 10 == 0 && w.second == 0 && w.millisecond == 0
              && v.minute % 10 == 0 && v.second == 0 && v.millisecond == 0
  {
    if !LocationSet(s) then Failure(LocationNotSet)
    else
      match RefreshSunData(s, date, response)
      case Failure(e) => Failure(SunDataUnavailable(e))
      case Success(refreshed) =>
        var t := refreshed.state;
        var sun := t.lastSunData.value;
        var total := TotalPlayTime(holes, flightSize, slowFactor);
        var sunsetEnd := parse(sun.sunset);
        var twilightEnd := parse(sun.civilTwilightEnd);
        var lastTeeSunset := LastTeeTime(sunsetEnd, total, offset);
        var lastTeeTwilight := LastTeeTime(twilightEnd, total, offset);
        var shown := if includeTwilight then lastTeeTwilight else lastTeeSunset;
        Success(Calculation(t, Report(MinutesPerHole(total, holes), total, sunsetEnd, twilightEnd,
                                      lastTeeSunset, lastTeeTwilight, shown),
                            refreshed.networkCalled))
  }

  /** Recalculating for the same date and location, with any other round
      settings, reuses the remembered sun data: the state stays as it is and the
      service is not asked. */
  lemma RecalculateReusesSunData(s: State, date: string, holes: int, flightSize: int,
                                 slowFactor: int, includeTwilight: bool,
                                 holes': int, flightSize': int, slowFactor': int, includeTwilight': bool,
                                 first: Response, second: Response, parse: string -> int, offset: Offset)
    requires Consistent(s)
    requires ValidHoles(holes) && ValidFlight(flightSize) && ValidHoles(holes') && ValidFlight(flightSize')
    requires LocationSet(s) && RefreshSunData(s, date, first).Success?
    ensures var r := CalculateLastTeeTime(s, date, holes, flightSize, slowFactor, includeTwilight,
                                          first, parse, offset);
            r.Success? &&
            var c := r.value;
            var d := CalculateLastTeeTime(c.state, date, holes', flightSize', slowFactor', includeTwilight',
                                          second, parse, offset);
            d.Success? && d.value.state == c.state && !d.value.networkCalled
            && d.value.report.sunsetEnd == c.report.sunsetEnd
            && d.value.report.twilightEnd == c.report.twilightEnd
  {
  }

  /** Flipping the twilight toggle only changes which of the two stored tee
      times is displayed (`updateLastTeeTimeDisplay`), and that is the one a
      full recalculation with the toggle flipped would show. */
  lemma ToggleMatchesRecalculation(s: State, date: string, holes: int, flightSize: int,
                                   slowFactor: int, includeTwilight: bool,
                                   response: Response, parse: string -> int, offset: Offset)
    requires Consistent(s)
    requires ValidHoles(holes) && ValidFlight(flightSize)
    requires LocationSet(s) && RefreshSunData(s, date, response).Success?
    ensures var r := CalculateLastTeeTime(s, date, holes, flightSize, slowFactor, includeTwilight,
                                          response, parse, offset);
            r.Success? &&
            var c := r.value;
            var d := CalculateLastTeeTime(c.state, date, holes, flightSize, slowFactor, !includeTwilight,
                                          response, parse, offset);
            d.Success? && d.value.report.shown == Displayed(c.report, !includeTwilight)
  {
  }
}
