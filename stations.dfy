/**
 * The hydrological station directory: which states are downloaded, how the
 * directory's GeoJSON features become stations, when the whole run stops, and
 * the nearest-station scan with its 25 km bound.
 */
module Stations {
  import opened Wrappers
  import opened Text
  import opened Http

  /** A monitoring location: its number (`None` when the directory gave `null`) and position in degrees. */
  datatype Station = Station(id: Option<string>, lat: real, lon: real)

  /** A distance in kilometres between (lat1, lon1) and (lat2, lon2); the source uses haversine. */
  type Distance = (real, real, real, real) -> real

  /** `MAX_DISTANCE_KM`: a station must be strictly closer than this to be used. */
  const MaxDistanceKm: real := 25.0

  /** `state_name_to_fips`: the 14 flood-prone states and their FIPS codes. */
  const StateFips: map<string, string> := map[
    "Texas" := "48", "California" := "06", "Florida" := "12", "Louisiana" := "22",
    "Georgia" := "13", "South Carolina" := "45", "North Carolina" := "37", "Virginia" := "51",
    "Illinois" := "17", "Indiana" := "18", "Kentucky" := "21", "Tennessee" := "47",
    "Alabama" := "01", "Arkansas" := "05"]

  /** The codes queried when no known state is targeted, in query order. */
  const AllStateCodes: seq<string> :=
    ["48", "06", "12", "22", "13", "45", "37", "51", "17", "18", "21", "47", "01", "05"]

  /**
   * The FIPS codes to download: only the target's when it is a known state name,
   * otherwise all 14 in their fixed order.
   */
  function StateCodes(target: Option<string>): (codes: seq<string>)
    ensures Truthy(target) && target.value in StateFips ==> codes == [StateFips[target.value]]
    ensures !(Truthy(target) && target.value in StateFips) ==> codes == AllStateCodes
    ensures codes != [] && forall c :: c in codes ==> c in AllStateCodes
  {
    if Truthy(target) && target.value in StateFips then [StateFips[target.value]]
    else AllStateCodes
  }

  // ---------- directory responses ----------

  /** The `properties` object of a feature: its `monitoring_location_number` member. */
  datatype Properties = Properties(locationNumber: Member<Option<string>>)

  /** A feature's `geometry` object: its `type` and `coordinates` members, if present. */
  datatype Geometry = Geometry(kind: Option<string>, coordinates: Option<seq<Number>>)

  /**
   * One GeoJSON feature. `properties` is `None` when the member is missing or
   * null; `geometry` is `None` when it is missing, null or an empty object.
   */
  datatype Feature = Feature(properties: Option<Properties>, geometry: Option<Geometry>)

  /** The decoded directory response: `numberReturned` (if present) and `features`. */
  datatype DirectoryBody = DirectoryBody(numberReturned: Option<int>, features: seq<Feature>)

  /**
   * A feature whose geometry is a Point with two numeric coordinates and whose
   * properties have a location number member, even a `null` one.
   */
  predicate IsStationFeature(f: Feature)
  {
    && f.properties.Some? && f.properties.value.locationNumber.Present?
    && f.geometry.Some? && f.geometry.value.kind == Some("Point")
    && f.geometry.value.coordinates.Some?
    && |f.geometry.value.coordinates.value| >= 2
    && f.geometry.value.coordinates.value[0].Num?
    && f.geometry.value.coordinates.value[1].Num?
  }

  /**
   * The station a feature contributes: GeoJSON order is (longitude, latitude).
   * Every other feature is skipped, including those on which the source raises
   * `KeyError`, `TypeError` or `ValueError`.
   */
  function FeatureStation(f: Feature): (r: Option<Station>)
    ensures r.Some? <==> IsStationFeature(f)
    ensures r.Some? ==> r.value.id == f.properties.value.locationNumber.content
                        && r.value.lon == f.geometry.value.coordinates.value[0].value
                        && r.value.lat == f.geometry.value.coordinates.value[1].value
  {
    match (f.properties, f.geometry)
    case (Some(Properties(Present(id))), Some(Geometry(Some(kind), Some(coords)))) =>
      if kind == "Point" && |coords| >= 2 && coords[0].Num? && coords[1].Num? then
        Some(Station(id, coords[1].value, coords[0].value))
      else None
    case _ => None
  }

  /** The stations a list of features contributes, in feature order. */
  function FeatureStations(fs: seq<Feature>): (r: seq<Station>)
    ensures |r| <= |fs|
  {
    if fs == [] then []
    else
      FeatureStations(fs[..|fs| - 1])
        + match FeatureStation(fs[|fs| - 1]) { case Some(st) => [st] case None => [] }
  }

  /** Features contribute independently: the stations of `a + b` are those of `a`, then those of `b`. */
  lemma {:induction false} FeatureStationsAppend(a: seq<Feature>, b: seq<Feature>)
    ensures FeatureStations(a + b) == FeatureStations(a) + FeatureStations(b)
    decreases |b|
  {
    if b != [] {
      var b' := b[..|b| - 1];
      assert (a + b)[..|a + b| - 1] == a + b';
      FeatureStationsAppend(a, b');
    } else {
      assert a + b == a;
    }
  }

  /** Every station comes from a well-formed Point feature, and every such feature gives one. */
  lemma {:induction false} FeatureStationsSound(fs: seq<Feature>)
    ensures forall st :: st in FeatureStations(fs) ==> exists f :: f in fs && FeatureStation(f) == Some(st)
    ensures forall f :: f in fs && IsStationFeature(f) ==> FeatureStation(f).value in FeatureStations(fs)
  {
    if fs != [] {
      var init := fs[..|fs| - 1];
      FeatureStationsSound(init);
      assert forall f :: f in init ==> f in fs;
      assert forall f :: f in fs ==> f in init || f == fs[|fs| - 1];
    }
  }

  /** What one state's download amounts to. */
  datatype StateResult =
    | Fatal                            // `sys.exit(1)`: the directory reported zero stations
    | Skipped                          // a warning is printed and the state contributes nothing
    | Fetched(features: seq<Feature>)  // the features to parse

  /**
   * The outcome of the request for one state. A 429 is retried once; a retry
   * that fails, any other HTTP error, a request exception and an undecodable
   * body skip the state. Only the first response is checked for
   * `numberReturned == 0`; a successful retry is not.
   */
  function StateDownload(ex: Exchange<DirectoryBody>): (r: StateResult)
    ensures r.Fatal? <==> ex.first.Response? && !RaisesForStatus(ex.first.status)
                          && ex.first.body.Some? && ex.first.body.value.numberReturned == Some(0)
    ensures ex.first.RequestFailed? ==> r == Skipped
    ensures ex.first.Response? && RaisesForStatus(ex.first.status) && ex.first.status != TooManyRequests
            ==> r == Skipped
    ensures ex.first.Response? && ex.first.status == TooManyRequests
            ==> r == (if ex.retry.Response? && !RaisesForStatus(ex.retry.status) && ex.retry.body.Some?
                      then Fetched(ex.retry.body.value.features) else Skipped)
    ensures ex.first.Response? && !RaisesForStatus(ex.first.status) && ex.first.body.None? ==> r == Skipped
    ensures ex.first.Response? && !RaisesForStatus(ex.first.status) && ex.first.body.Some?
            && ex.first.body.value.numberReturned != Some(0)
            ==> r == Fetched(ex.first.body.value.features)
  {
    match ex.first
    case RequestFailed => Skipped
    case Response(status, body) =>
      if RaisesForStatus(status) then
        if status == TooManyRequests then
          match ex.retry
          case Response(status2, Some(body2)) =>
            if RaisesForStatus(status2) then Skipped else Fetched(body2.features)
          case _ => Skipped
        else Skipped
      else
        match body
        case None => Skipped
        case Some(b) => if b.numberReturned == Some(0) then Fatal else Fetched(b.features)
  }

  /** A whole download: the stations collected, and the state code that stopped the run if any. */
  datatype DirectoryRun =
    | Completed(stations: seq<Station>)
    | Exited(stateCode: string, stations: seq<Station>)

  /** The stations one state contributes, or `None` when it stops the run. */
  function StateStations(ex: Exchange<DirectoryBody>): Option<seq<Station>>
  {
    match StateDownload(ex)
    case Fatal => None
    case Skipped => Some([])
    case Fetched(fs) => Some(FeatureStations(fs))
  }

  /** Downloading the given state codes in order, starting from an empty station list. */
  function Download(codes: seq<string>, replies: string -> Exchange<DirectoryBody>): DirectoryRun
  {
    if codes == [] then Completed([])
    else
      var prev := Download(codes[..|codes| - 1], replies);
      if prev.Exited? then prev
      else Then(prev.stations, codes[|codes| - 1], replies)
  }

  /** The run after `stations` were collected and state `code` is queried next. */
  function Then(stations: seq<Station>, code: string, replies: string -> Exchange<DirectoryBody>): DirectoryRun
  {
    var more := StateStations(replies(code));
    if more.None? then Exited(code, stations) else Completed(stations + more.value)
  }

  /** One more state: the download of `codes[..i + 1]` extends that of `codes[..i]`. */
  lemma DownloadStep(codes: seq<string>, i: nat, replies: string -> Exchange<DirectoryBody>)
    requires i < |codes|
    ensures var prev := Download(codes[..i], replies);
            Download(codes[..i + 1], replies) == if prev.Exited? then prev else Then(prev.stations, codes[i], replies)
  {
    assert codes[..i + 1][..i] == codes[..i];
  }

  /** Once a state stops the run, the states after it change nothing. */
  lemma {:induction false} ExitIsFinal(codes: seq<string>, k: nat, replies: string -> Exchange<DirectoryBody>)
    requires k <= |codes|
    requires Download(codes[..k], replies).Exited?
    ensures Download(codes, replies) == Download(codes[..k], replies)
    decreases |codes|
  {
    if k < |codes| {
      var init := codes[..|codes| - 1];
      assert init[..k] == codes[..k];
      ExitIsFinal(init, k, replies);
    } else {
      assert codes[..k] == codes;
    }
  }

  /**
   * The run stops exactly when some queried state reports zero stations, and it
   * is the first such state that stops it.
   */
  lemma {:induction false} DownloadExits(codes: seq<string>, replies: string -> Exchange<DirectoryBody>)
    ensures Download(codes, replies).Exited?
            <==> exists i :: 0 <= i < |codes| && StateDownload(replies(codes[i])).Fatal?
    ensures Download(codes, replies).Exited? ==>
              exists i :: 0 <= i < |codes| && codes[i] == Download(codes, replies).stateCode
                          && StateDownload(replies(codes[i])).Fatal?
                          && forall j :: 0 <= j < i ==> !StateDownload(replies(codes[j])).Fatal?
  {
    if codes != [] {
      var init := codes[..|codes| - 1];
      DownloadExits(init, replies);
      assert forall i :: 0 <= i < |init| ==> init[i] == codes[i];
    }
  }

  /** Stations collected earlier stay in front of what the next state adds. */
  lemma ThenAppend(front: seq<Station>, s: seq<Station>, code: string, replies: string -> Exchange<DirectoryBody>)
    requires Then(s, code, replies).Completed?
    ensures Then(front + s, code, replies) == Completed(front + Then(s, code, replies).stations)
  {
    var more := StateStations(replies(code)).value;
    assert front + s + more == front + (s + more);
  }

  /** States are downloaded in order: the stations of `a + b` are those of `a`, then those of `b`. */
  lemma {:induction false} DownloadAppend(a: seq<string>, b: seq<string>, replies: string -> Exchange<DirectoryBody>)
    requires Download(a, replies).Completed? && Download(b, replies).Completed?
    ensures Download(a + b, replies)
            == Completed(Download(a, replies).stations + Download(b, replies).stations)
    decreases |b|
  {
    if b == [] {
      assert a + b == a;
    } else {
      var b', last := b[..|b| - 1], b[|b| - 1];
      var sb' := Download(b', replies).stations;
      assert Download(b, replies) == Then(sb', last, replies);
      DownloadAppend(a, b', replies);
      assert (a + b)[..|a + b| - 1] == a + b';
      ThenAppend(Download(a, replies).stations, sb', last, replies);
    }
  }

  // ---------- nearest station ----------

  /** Station `k` is the first station at the smallest distance, and that distance is within bound. */
  predicate FirstNearest(stations: seq<Station>, lat: real, lon: real, dist: Distance, k: int)
  {
    && 0 <= k < |stations|
    && dist(lat, lon, stations[k].lat, stations[k].lon) < MaxDistanceKm
    && (forall j :: 0 <= j < |stations| ==>
          dist(lat, lon, stations[k].lat, stations[k].lon) <= dist(lat, lon, stations[j].lat, stations[j].lon))
    && (forall j :: 0 <= j < k ==>
          dist(lat, lon, stations[k].lat, stations[k].lon) < dist(lat, lon, stations[j].lat, stations[j].lon))
  }

  /** Some station is strictly closer than 25 km. */
  predicate AnyInRange(stations: seq<Station>, lat: real, lon: real, dist: Distance)
  {
    exists k :: 0 <= k < |stations| && dist(lat, lon, stations[k].lat, stations[k].lon) < MaxDistanceKm
  }

  /**
   * What `find_nearest_usgs_station` answers: `None` when no station is strictly
   * closer than 25 km, otherwise the id of the first station at the minimum
   * distance (itself `None` for a station listed with a `null` number).
   */
  predicate NearestAnswer(stations: seq<Station>, lat: real, lon: real, dist: Distance, r: Option<string>)
  {
    if AnyInRange(stations, lat, lon, dist) then
      exists k :: 0 <= k < |stations| && FirstNearest(stations, lat, lon, dist, k) && stations[k].id == r
    else r == None
  }

  /** The answer is determined by the stations: at most one index is the first nearest. */
  lemma FirstNearestUnique(stations: seq<Station>, lat: real, lon: real, dist: Distance, k1: int, k2: int)
    requires FirstNearest(stations, lat, lon, dist, k1) && FirstNearest(stations, lat, lon, dist, k2)
    ensures k1 == k2
  {
  }

  /** The candidate id and the distance bound the scan holds after visiting `stations` in order. */
  function Scan(stations: seq<Station>, lat: real, lon: real, dist: Distance): (r: (Option<string>, real))
  {
    if stations == [] then (None, MaxDistanceKm)
    else
      var prev := Scan(stations[..|stations| - 1], lat, lon, dist);
      var last := stations[|stations| - 1];
      var d := dist(lat, lon, last.lat, last.lon);
      if d < prev.1 then (last.id, d) else prev
  }

  /** `find_nearest_usgs_station(lat, lon)` over the station list `stations`. */
  function Nearest(stations: seq<Station>, lat: real, lon: real, dist: Distance): Option<string>
  {
    Scan(stations, lat, lon, dist).0
  }

  /** What the scan holds after each station: its bound is the least distance seen, capped at 25 km. */
  lemma {:induction false} ScanBound(stations: seq<Station>, lat: real, lon: real, dist: Distance)
    ensures var r := Scan(stations, lat, lon, dist);
            && r.1 <= MaxDistanceKm
            && (r.1 < MaxDistanceKm <==> AnyInRange(stations, lat, lon, dist))
            && (r.1 == MaxDistanceKm ==> r.0 == None)
            && (forall k :: 0 <= k < |stations| ==> r.1 <= dist(lat, lon, stations[k].lat, stations[k].lon))
  {
    if stations != [] {
      var n := |stations| - 1;
      var init := stations[..n];
      ScanBound(init, lat, lon, dist);
      assert forall k :: 0 <= k < n ==> init[k] == stations[k];
      if AnyInRange(init, lat, lon, dist) {
        var k :| 0 <= k < n && dist(lat, lon, init[k].lat, init[k].lon) < MaxDistanceKm;
        assert dist(lat, lon, stations[k].lat, stations[k].lon) < MaxDistanceKm;
      }
    }
  }

  /** Once the bound is below 25 km, the scan holds the id of the first nearest station and its distance. */
  lemma {:induction false} ScanWitness(stations: seq<Station>, lat: real, lon: real, dist: Distance)
    ensures var r := Scan(stations, lat, lon, dist);
            r.1 < MaxDistanceKm ==> exists b :: FirstNearest(stations, lat, lon, dist, b) && stations[b].id == r.0
                                               && r.1 == dist(lat, lon, stations[b].lat, stations[b].lon)
  {
    if stations != [] {
      var n := |stations| - 1;
      var init := stations[..n];
      ScanBound(init, lat, lon, dist);
      ScanWitness(init, lat, lon, dist);
      var prev := Scan(init, lat, lon, dist);
      var d := dist(lat, lon, stations[n].lat, stations[n].lon);
      if d < prev.1 {
        assert forall k :: 0 <= k < n ==> init[k] == stations[k];
        LastIsFirstNearest(stations, lat, lon, dist);
      } else if prev.1 < MaxDistanceKm {
        var b :| FirstNearest(init, lat, lon, dist, b) && init[b].id == prev.0
                 && prev.1 == dist(lat, lon, init[b].lat, init[b].lon);
        EarlierStaysFirstNearest(stations, lat, lon, dist, b);
      }
    }
  }

  /** A last station closer than 25 km and than every earlier station is the first nearest. */
  lemma LastIsFirstNearest(stations: seq<Station>, lat: real, lon: real, dist: Distance)
    requires stations != []
    requires var last := stations[|stations| - 1];
             && dist(lat, lon, last.lat, last.lon) < MaxDistanceKm
             && forall k :: 0 <= k < |stations| - 1 ==>
                  dist(lat, lon, last.lat, last.lon) < dist(lat, lon, stations[k].lat, stations[k].lon)
    ensures FirstNearest(stations, lat, lon, dist, |stations| - 1)
  {
  }

  /** The first nearest of all but the last station stays first when the last is no closer. */
  lemma EarlierStaysFirstNearest(stations: seq<Station>, lat: real, lon: real, dist: Distance, b: int)
    requires stations != []
    requires FirstNearest(stations[..|stations| - 1], lat, lon, dist, b)
    requires var last := stations[|stations| - 1];
             dist(lat, lon, stations[b].lat, stations[b].lon) <= dist(lat, lon, last.lat, last.lon)
    ensures FirstNearest(stations, lat, lon, dist, b)
  {
    var n := |stations| - 1;
    assert forall k :: 0 <= k < n ==> stations[..n][k] == stations[k];
  }

  /** The functional scan gives the answer `NearestAnswer` describes. */
  lemma NearestIsFirstNearest(stations: seq<Station>, lat: real, lon: real, dist: Distance)
    ensures NearestAnswer(stations, lat, lon, dist, Nearest(stations, lat, lon, dist))
  {
    ScanBound(stations, lat, lon, dist);
    ScanWitness(stations, lat, lon, dist);
  }

  /** The in-memory station list (`USGS_STATIONS`) and the station cache file it is saved to. */
  class StationDirectory {
    var stations: seq<Station>
    /** Contents of the station cache file; written after each completed download, never read back. */
    var cacheFile: Option<seq<Station>>

    constructor ()
      ensures stations == [] && cacheFile == None
    {
      stations := [];
      cacheFile := None;
    }

    /**
     * `load_usgs_stations`: resets the list, downloads the selected states in
     * order and appends each state's stations in feature order. Returns the code
     * of the state that stopped the run, or `None` when the download completed
     * and the list was written to the cache file.
     */
    method Load(target: Option<string>, replies: string -> Exchange<DirectoryBody>) returns (exited: Option<string>)
      modifies this
      ensures var run := Download(StateCodes(target), replies);
              && stations == run.stations
              && (exited == if run.Exited? then Some(run.stateCode) else None)
              && cacheFile == if run.Completed? then Some(run.stations) else old(cacheFile)
    {
      var codes := StateCodes(target);
      stations := [];
      var i := 0;
      while i < |codes|
        invariant 0 <= i <= |codes|
        invariant Download(codes[..i], replies) == Completed(stations)
        invariant cacheFile == old(cacheFile)
      {
        var code := codes[i];
        DownloadStep(codes, i, replies);
        match StateDownload(replies(code)) {
          case Fatal =>
            ExitIsFinal(codes, i + 1, replies);
            return Some(code);
          case Skipped =>
          case Fetched(features) =>
            AppendStations(features);
        }
        i := i + 1;
      }
      assert codes[..i] == codes;
      cacheFile := Some(stations);
      return None;
    }

    /** The inner loop of `load_usgs_stations`: appends the stations of one state's features. */
    method AppendStations(features: seq<Feature>)
      modifies this`stations
      ensures stations == old(stations) + FeatureStations(features)
    {
      var j := 0;
      while j < |features|
        invariant 0 <= j <= |features|
        invariant stations == old(stations) + FeatureStations(features[..j])
      {
        assert features[..j + 1][..j] == features[..j];
        match FeatureStation(features[j]) {
          case Some(st) => stations := stations + [st];
          case None =>
        }
        j := j + 1;
      }
      assert features[..j] == features;
    }

    /** `find_nearest_usgs_station`: a scan that replaces its candidate only on a strictly smaller distance. */
    method FindNearest(lat: real, lon: real, dist: Distance) returns (nearest: Option<string>)
      ensures nearest == Nearest(stations, lat, lon, dist)
      ensures NearestAnswer(stations, lat, lon, dist, nearest)
    {
      nearest := None;
      var minDist := MaxDistanceKm;
      for i := 0 to |stations|
        invariant (nearest, minDist) == Scan(stations[..i], lat, lon, dist)
      {
        assert stations[..i + 1][..i] == stations[..i];
        var d := dist(lat, lon, stations[i].lat, stations[i].lon);
        if d < minDist {
          minDist := d;
          nearest := stations[i].id;
        }
      }
      assert stations[..|stations|] == stations;
      NearestIsFirstNearest(stations, lat, lon, dist);
    }
  }
}
