/**
 * `build_dataset`: loads the station list, then for every processed year and
 * month fetches the month's alerts, turns each located alert into a positive
 * sample and a randomly displaced, later-dated negative sample, and enriches
 * every sample from the cached services.
 */
module Dataset {
  import opened Wrappers
  import opened Text
  import opened Http
  import opened Calendar
  import opened Stations
  import opened Enrichment
  import opened Alerts

  // ---------- run configuration ----------

  /** The draws of one negative sample: `uniform(-0.5, 0.5)` twice, then `randint(1, 28)`. */
  datatype Noise = Noise(dLat: real, dLon: real, days: nat)

  /** The ranges the random draws come from. */
  predicate NoiseInRange(z: Noise)
  {
    -0.5 <= z.dLat <= 0.5 && -0.5 <= z.dLon <= 0.5 && 1 <= z.days <= 28
  }

  /** The replies of every external service, as functions of the request parameters. */
  datatype Services = Services(
    directory: string -> Exchange<DirectoryBody>,
    offices: OfficeReplies,
    precipitation: (real, real, Date) -> Exchange<PrecipitationBody>,
    elevation: (real, real) -> Exchange<ElevationBody>,
    gage: GageReplies)

  /**
   * One run: the parsed options, the current year, the distance function, the
   * services, the `:.4f` cache-key formats and the random draws, indexed by the
   * year, the month and the alert's position in that month's list.
   */
  datatype Run = Run(
    target: Option<string>, months: int, years: int, currentYear: int,
    dist: Distance, services: Services,
    precipitationKey: (real, real, Date) -> string, elevationKey: (real, real) -> string,
    noise: (int, int, nat) -> Noise)

  // ---------- records ----------

  /** The enrichment columns of a row. */
  datatype Measurements = Measurements(precipMm: Option<real>, elevationM: Option<real>,
                                       stationId: Option<string>, gageHeightFt: Option<real>)

  /** One row of the dataset. */
  datatype Record = Record(year: int, month: int, lat: real, lon: real, event: string, area: string,
                           severity: string, certainty: string, urgency: string,
                           measurements: Measurements, floodOccurred: int)

  function PositiveRecord(year: int, month: int, lat: real, lon: real, a: Alert, m: Measurements): Record
  {
    Record(year, month, lat, lon, a.event, a.areaDesc, a.severity, a.certainty, a.urgency, m, 1)
  }

  function NegativeRecord(date: Date, lat: real, lon: real, m: Measurements): Record
  {
    Record(date.year, date.month, lat, lon, "None", "None", "None", "None", "None", m, 0)
  }

  // ---------- stores ----------

  /** The three enrichment caches. */
  datatype Caches = Caches(precipitation: Cache, elevation: Cache, gageHeight: Cache)

  /** Everything a run reads and writes besides the station list: alert files and caches. */
  datatype Stores = Stores(alertFiles: map<(int, int), seq<Alert>>, caches: Caches)

  /** `b` keeps every entry of `a`. */
  predicate Grows<K, V(==)>(a: map<K, V>, b: map<K, V>)
  {
    forall k :: k in a ==> k in b && b[k] == a[k]
  }

  predicate CachesGrow(c: Caches, d: Caches)
  {
    Grows(c.precipitation, d.precipitation) && Grows(c.elevation, d.elevation) && Grows(c.gageHeight, d.gageHeight)
  }

  predicate StoresGrow(s: Stores, t: Stores)
  {
    Grows(s.alertFiles, t.alertFiles) && CachesGrow(s.caches, t.caches)
  }

  // ---------- one sample ----------

  /**
   * A row's station column is the nearest-station answer (characterised by
   * `NearestIsFirstNearest`), and without a station there is no gage height.
   */
  predicate Measured(m: Measurements, stations: seq<Station>, lat: real, lon: real, dist: Distance)
  {
    m.stationId == Nearest(stations, lat, lon, dist) && (!Truthy(m.stationId) ==> m.gageHeightFt == None)
  }

  /**
   * `get_precipitation` raises: the key is not cached and the day before `date`
   * leaves the calendar.
   */
  predicate Drops(c: Caches, lat: real, lon: real, date: Date, run: Run)
  {
    run.precipitationKey(lat, lon, date) !in c.precipitation && WindowOverflows(date)
  }

  /**
   * The four enrichment calls of a sample, in source order, and the caches they
   * leave. `None` when the precipitation call raises, which drops the sample.
   */
  function Measure(c: Caches, lat: real, lon: real, date: Date, stations: seq<Station>, run: Run)
    : (r: (Option<Measurements>, Caches))
    requires ValidDate(date) && date.year <= MaxYear
    ensures r.0.None? <==> Drops(c, lat, lon, date, run)
    ensures r.0.None? ==> r.1 == c
    ensures r.0.Some? ==> Measured(r.0.value, stations, lat, lon, run.dist)
    ensures r.0.Some? ==>
              var p := Lookup(c.precipitation, run.precipitationKey(lat, lon, date),
                              PrecipitationFetch(run.services.precipitation(lat, lon, date)));
              var e := Lookup(c.elevation, run.elevationKey(lat, lon), ElevationFetch(run.services.elevation(lat, lon)));
              var g := GageHeight(c.gageHeight, Nearest(stations, lat, lon, run.dist), date, run.services.gage);
              && r.0.value.precipMm == p.0 && r.1.precipitation == p.1
              && r.0.value.elevationM == e.0 && r.1.elevation == e.1
              && r.0.value.gageHeightFt == g.0 && r.1.gageHeight == g.1
    ensures CachesGrow(c, r.1)
  {
    var key := run.precipitationKey(lat, lon, date);
    if key !in c.precipitation && WindowOverflows(date) then (None, c)
    else
      var p := Lookup(c.precipitation, key, PrecipitationFetch(run.services.precipitation(lat, lon, date)));
      var e := Lookup(c.elevation, run.elevationKey(lat, lon), ElevationFetch(run.services.elevation(lat, lon)));
      var id := Nearest(stations, lat, lon, run.dist);
      var g := GageHeight(c.gageHeight, id, date, run.services.gage);
      (Some(Measurements(p.0, e.0, id, g.0)), Caches(p.1, e.1, g.1))
  }

  /**
   * Where and when an alert happened, when the builder can use it: its centroid
   * has a latitude and its onset parses. Every other alert is skipped.
   */
  function Locate(a: Alert): (r: Option<(real, real, Date)>)
    ensures r.Some? ==> ValidDate(r.value.2) && r.value.2.year <= MaxYear
    ensures r.Some? <==> AlertCentroid(a).At? && ParseIsoDate(Prefix(a.onset, 10)).Some?
  {
    match AlertCentroid(a)
    case At(lat, lon) =>
      (match ParseIsoDate(Prefix(a.onset, 10))
       case Some(d) => Some((lat, lon, d))
       case None => None)
    case _ => None
  }

  /** A freshly fetched alert is located exactly when its area text is. */
  lemma FreshAlertLocated(a: Alert, month: int, target: Option<string>)
    requires Admitted(a, month, target)
    ensures Locate(a).Some? <==> LocationCoordinates(a.areaDesc).Some?
    ensures Locate(a).Some? ==> Locate(a).value.2.month == month
  {
    if a.areaDesc == "" {
      assert CountyName(a.areaDesc) == None;
      assert !Contains(a.areaDesc, "[TX]");
    }
  }

  // ---------- one month ----------

  /** Row `rec` is the positive sample of alert `a`. */
  predicate PositiveOf(rec: Record, a: Alert, year: int, month: int)
  {
    Locate(a).Some? && rec == PositiveRecord(year, month, Locate(a).value.0, Locate(a).value.1, a, rec.measurements)
  }

  /** Row `rec` is the negative sample of alert `a` under the draws `z`. */
  predicate NegativeOf(rec: Record, a: Alert, z: Noise)
  {
    && Locate(a).Some?
    && ShiftDate(Locate(a).value.2, z.days).Some?
    && rec == NegativeRecord(ShiftDate(Locate(a).value.2, z.days).value,
                             Displaced(Locate(a).value, z).0, Displaced(Locate(a).value, z).1, rec.measurements)
  }

  /** The positive sample of one alert, if it is located and measured, and the caches it leaves. */
  function PositiveStep(c: Caches, year: int, month: int, a: Alert, stations: seq<Station>, run: Run)
    : (r: (Option<Record>, Caches))
    ensures r.0.Some? <==> Locate(a).Some? && !Drops(c, Locate(a).value.0, Locate(a).value.1, Locate(a).value.2, run)
    ensures r.0.None? ==> r.1 == c
    ensures CachesGrow(c, r.1)
    ensures r.0.Some? ==> PositiveOf(r.0.value, a, year, month)
    ensures r.0.Some? ==>
              var m := Measure(c, Locate(a).value.0, Locate(a).value.1, Locate(a).value.2, stations, run);
              r.0.value.measurements == m.0.value && r.1 == m.1
    ensures r.0.Some? ==> Measured(r.0.value.measurements, stations, r.0.value.lat, r.0.value.lon, run.dist)
  {
    var loc := Locate(a);
    if loc.None? then (None, c)
    else
      var m := Measure(c, loc.value.0, loc.value.1, loc.value.2, stations, run);
      if m.0.None? then (None, c)
      else
        var rec := PositiveRecord(year, month, loc.value.0, loc.value.1, a, m.0.value);
        assert Measured(rec.measurements, stations, rec.lat, rec.lon, run.dist);
        (Some(rec), m.1)
  }

  /** The negative sample of one alert under the draws `z`, if it is located, dated and measured. */
  function NegativeStep(c: Caches, a: Alert, z: Noise, stations: seq<Station>, run: Run)
    : (r: (Option<Record>, Caches))
    ensures r.0.Some? <==>
              && Locate(a).Some? && ShiftDate(Locate(a).value.2, z.days).Some?
              && !Drops(c, Displaced(Locate(a).value, z).0, Displaced(Locate(a).value, z).1,
                        ShiftDate(Locate(a).value.2, z.days).value, run)
    ensures r.0.None? ==> r.1 == c
    ensures CachesGrow(c, r.1)
    ensures r.0.Some? ==> NegativeOf(r.0.value, a, z)
    ensures r.0.Some? ==>
              var m := Measure(c, Displaced(Locate(a).value, z).0, Displaced(Locate(a).value, z).1,
                               ShiftDate(Locate(a).value.2, z.days).value, stations, run);
              r.0.value.measurements == m.0.value && r.1 == m.1
    ensures r.0.Some? ==> Measured(r.0.value.measurements, stations, r.0.value.lat, r.0.value.lon, run.dist)
  {
    var loc := Locate(a);
    if loc.None? then (None, c)
    else
      var later := ShiftDate(loc.value.2, z.days);
      if later.None? then (None, c)
      else
        var (lat, lon) := Displaced(loc.value, z);
        var m := Measure(c, lat, lon, later.value, stations, run);
        if m.0.None? then (None, c)
        else
          var rec := NegativeRecord(later.value, lat, lon, m.0.value);
          assert Measured(rec.measurements, stations, rec.lat, rec.lon, run.dist);
          (Some(rec), m.1)
  }

  /** The negative sample's position: the alert's, displaced by the draws. */
  function Displaced(loc: (real, real, Date), z: Noise): (real, real)
  {
    (loc.0 + z.dLat, loc.1 + z.dLon)
  }

  function Rows(r: Option<Record>): seq<Record>
  {
    if r.Some? then [r.value] else []
  }

  /** The positive rows of a month's alerts, in alert order, and the caches they leave. */
  function Positives(c: Caches, year: int, month: int, alerts: seq<Alert>, stations: seq<Station>, run: Run)
    : (r: (seq<Record>, Caches))
    ensures |r.0| <= |alerts| && CachesGrow(c, r.1)
    ensures forall rec :: rec in r.0 ==>
              rec.floodOccurred == 1 && rec.year == year && rec.month == month
              && Measured(rec.measurements, stations, rec.lat, rec.lon, run.dist)
  {
    if alerts == [] then ([], c)
    else
      var prev := Positives(c, year, month, alerts[..|alerts| - 1], stations, run);
      var step := PositiveStep(prev.1, year, month, alerts[|alerts| - 1], stations, run);
      (prev.0 + Rows(step.0), step.1)
  }

  /** The negative rows of a month's alerts, in alert order, and the caches they leave. */
  function Negatives(c: Caches, year: int, month: int, alerts: seq<Alert>, stations: seq<Station>, run: Run)
    : (r: (seq<Record>, Caches))
    ensures |r.0| <= |alerts| && CachesGrow(c, r.1)
    ensures forall rec :: rec in r.0 ==>
              rec.floodOccurred == 0 && Measured(rec.measurements, stations, rec.lat, rec.lon, run.dist)
  {
    if alerts == [] then ([], c)
    else
      var prev := Negatives(c, year, month, alerts[..|alerts| - 1], stations, run);
      var step := NegativeStep(prev.1, alerts[|alerts| - 1], run.noise(year, month, |alerts| - 1), stations, run);
      (prev.0 + Rows(step.0), step.1)
  }

  /** An alert whose positive sample no cache state can drop: located, and not dated 1 January of year 1. */
  predicate PositiveSampleable(a: Alert)
  {
    Locate(a).Some? && !WindowOverflows(Locate(a).value.2)
  }

  /** An alert whose negative sample under draws `z` no cache state can drop. */
  predicate NegativeSampleable(a: Alert, z: Noise)
  {
    && Locate(a).Some?
    && ShiftDate(Locate(a).value.2, z.days).Some?
    && !WindowOverflows(ShiftDate(Locate(a).value.2, z.days).value)
  }

  /**
   * Row `k` is `of`-related to alert `idx[k]` (at its position), `idx` is
   * increasing, and it lists every position `i` whose alert is `sure`.
   */
  predicate Indexed(rows: seq<Record>, alerts: seq<Alert>, idx: seq<int>,
                    of: (Record, Alert, nat) -> bool, sure: (Alert, nat) -> bool)
  {
    && |idx| == |rows|
    && (forall k :: 0 <= k < |idx| ==> 0 <= idx[k] < |alerts| && of(rows[k], alerts[idx[k]], idx[k]))
    && (forall k, l :: 0 <= k < l < |idx| ==> idx[k] < idx[l])
    && (forall i :: 0 <= i < |alerts| && sure(alerts[i], i) ==> i in idx)
  }

  /** One more alert: its row, if any, extends the index of the rows before it. */
  lemma IndexedStep(rows: seq<Record>, alerts: seq<Alert>, idx: seq<int>, rec: Option<Record>,
                    of: (Record, Alert, nat) -> bool, sure: (Alert, nat) -> bool)
    requires alerts != []
    requires Indexed(rows, alerts[..|alerts| - 1], idx, of, sure)
    requires rec.Some? ==> of(rec.value, alerts[|alerts| - 1], |alerts| - 1)
    requires sure(alerts[|alerts| - 1], |alerts| - 1) ==> rec.Some?
    ensures Indexed(rows + Rows(rec), alerts, if rec.Some? then idx + [|alerts| - 1] else idx, of, sure)
  {
    var n := |alerts| - 1;
    var rows', idx' := rows + Rows(rec), if rec.Some? then idx + [n] else idx;
    forall k | 0 <= k < |idx'|
      ensures 0 <= idx'[k] < |alerts| && of(rows'[k], alerts[idx'[k]], idx'[k])
    {
      if k < |idx| {
        assert rows'[k] == rows[k] && idx'[k] == idx[k] && alerts[..n][idx[k]] == alerts[idx[k]];
      }
    }
    forall i | 0 <= i < |alerts| && sure(alerts[i], i)
      ensures i in idx'
    {
      if i < n {
        assert alerts[..n][i] == alerts[i];
      }
    }
  }

  /** Relates a row to the alert it is the positive sample of. */
  function PositiveRelation(year: int, month: int): (Record, Alert, nat) -> bool
  {
    (rec: Record, a: Alert, i: nat) => PositiveOf(rec, a, year, month)
  }

  /** Relates a row to the alert it is the negative sample of, under that alert's draws. */
  function NegativeRelation(year: int, month: int, run: Run): (Record, Alert, nat) -> bool
  {
    (rec: Record, a: Alert, i: nat) => NegativeOf(rec, a, run.noise(year, month, i))
  }

  /** Holds of the alerts whose positive sample cannot be dropped. */
  function PositiveSure(): (Alert, nat) -> bool
  {
    (a: Alert, i: nat) => PositiveSampleable(a)
  }

  /** Holds of the alerts whose negative sample, under their draws, cannot be dropped. */
  function NegativeSure(year: int, month: int, run: Run): (Alert, nat) -> bool
  {
    (a: Alert, i: nat) => NegativeSampleable(a, run.noise(year, month, i))
  }

  /**
   * Row `k` is the positive sample of alert `idx[k]`, `idx` is increasing, and
   * it lists every alert that cannot be dropped.
   */
  predicate PositiveIndex(rows: seq<Record>, alerts: seq<Alert>, year: int, month: int, idx: seq<int>)
  {
    Indexed(rows, alerts, idx, PositiveRelation(year, month), PositiveSure())
  }

  /**
   * Row `k` is the negative sample of alert `idx[k]` under that alert's draws,
   * `idx` is increasing, and it lists every alert that cannot be dropped.
   */
  predicate NegativeIndex(rows: seq<Record>, alerts: seq<Alert>, year: int, month: int, run: Run, idx: seq<int>)
  {
    Indexed(rows, alerts, idx, NegativeRelation(year, month, run), NegativeSure(year, month, run))
  }

  /**
   * The positive rows are the positive samples of distinct alerts, in alert
   * order, and every alert that cannot be dropped has its row.
   */
  lemma {:induction false} PositivesFromAlerts(c: Caches, year: int, month: int, alerts: seq<Alert>,
                                               stations: seq<Station>, run: Run)
    ensures exists idx :: PositiveIndex(Positives(c, year, month, alerts, stations, run).0, alerts, year, month, idx)
  {
    if alerts == [] {
      assert Positives(c, year, month, alerts, stations, run).0 == [];
      assert PositiveIndex([], alerts, year, month, []);
    } else {
      var n := |alerts| - 1;
      PositivesFromAlerts(c, year, month, alerts[..n], stations, run);
      var prev := Positives(c, year, month, alerts[..n], stations, run);
      var idx :| PositiveIndex(prev.0, alerts[..n], year, month, idx);
      var step := PositiveStep(prev.1, year, month, alerts[n], stations, run);
      IndexedStep(prev.0, alerts, idx, step.0, PositiveRelation(year, month), PositiveSure());
      var idx' := if step.0.Some? then idx + [n] else idx;
      assert PositiveIndex(Positives(c, year, month, alerts, stations, run).0, alerts, year, month, idx');
    }
  }

  /**
   * The negative rows are the negative samples of distinct alerts under their
   * draws, in alert order, and every alert that cannot be dropped has its row.
   */
  lemma {:induction false} NegativesFromAlerts(c: Caches, year: int, month: int, alerts: seq<Alert>,
                                               stations: seq<Station>, run: Run)
    ensures exists idx :: NegativeIndex(Negatives(c, year, month, alerts, stations, run).0, alerts, year, month, run, idx)
  {
    if alerts == [] {
      assert Negatives(c, year, month, alerts, stations, run).0 == [];
      assert NegativeIndex([], alerts, year, month, run, []);
    } else {
      var n := |alerts| - 1;
      NegativesFromAlerts(c, year, month, alerts[..n], stations, run);
      var prev := Negatives(c, year, month, alerts[..n], stations, run);
      var idx :| NegativeIndex(prev.0, alerts[..n], year, month, run, idx);
      var step := NegativeStep(prev.1, alerts[n], run.noise(year, month, n), stations, run);
      IndexedStep(prev.0, alerts, idx, step.0, NegativeRelation(year, month, run), NegativeSure(year, month, run));
      var idx' := if step.0.Some? then idx + [n] else idx;
      assert NegativeIndex(Negatives(c, year, month, alerts, stations, run).0, alerts, year, month, run, idx');
    }
  }

  /**
   * With draws in their ranges, only the year-9999 overflow of `timedelta` can
   * stop a located alert's negative sample: the shifted day is never the first
   * day of the calendar.
   */
  lemma NegativeSampleableInRange(a: Alert, z: Noise)
    requires NoiseInRange(z)
    ensures NegativeSampleable(a, z) <==> Locate(a).Some? && ShiftDate(Locate(a).value.2, z.days).Some?
  {
    if Locate(a).Some? {
      LaterDayNotFirst(Locate(a).value.2, z.days);
    }
  }

  /** A day at least one day after a valid date is never the first day of the calendar. */
  lemma LaterDayNotFirst(d: Date, n: nat)
    requires ValidDate(d) && 1 <= n
    ensures !WindowOverflows(AddDays(d, n))
  {
    assert AddDays(d, n) == NextDay(AddDays(d, n - 1));
  }

  /**
   * A negative sample lies within half a degree of its alert in each coordinate
   * and is dated in the alert's month or the month after.
   */
  lemma NegativeNearAlert(rec: Record, a: Alert, z: Noise)
    requires NegativeOf(rec, a, z) && NoiseInRange(z)
    ensures var loc := Locate(a).value;
            var next := NextMonthStart(loc.2);
            && loc.0 - 0.5 <= rec.lat <= loc.0 + 0.5 && loc.1 - 0.5 <= rec.lon <= loc.1 + 0.5
            && ((rec.year == loc.2.year && rec.month == loc.2.month) || (rec.year == next.year && rec.month == next.month))
  {
    ShortShift(Locate(a).value.2, z.days);
  }

  /** `fetch_historical_flood_alerts(year, month)` against the stored alert files. */
  function FetchAlerts(s: Stores, year: int, month: int, run: Run): (r: (seq<Alert>, Stores))
    ensures r.1.caches == s.caches && Grows(s.alertFiles, r.1.alertFiles)
    ensures (year, month) in s.alertFiles ==> r == (s.alertFiles[(year, month)], s)
    ensures (year, month) !in s.alertFiles ==>
              r.0 == FreshAlerts(year, month, run.target, run.services.offices)
              && r.1 == s.(alertFiles := s.alertFiles[(year, month) := r.0])
  {
    if (year, month) in s.alertFiles then (s.alertFiles[(year, month)], s)
    else
      var alerts := FreshAlerts(year, month, run.target, run.services.offices);
      (alerts, s.(alertFiles := s.alertFiles[(year, month) := alerts]))
  }

  /** No negative row comes before a positive row. */
  predicate PositivesFirst(rows: seq<Record>)
  {
    forall i, j :: 0 <= i < j < |rows| && rows[j].floodOccurred == 1 ==> rows[i].floodOccurred == 1
  }

  /** A block of positive rows followed by a block of negative rows has its positives first. */
  lemma LabelledBlocks(pos: seq<Record>, neg: seq<Record>)
    requires forall rec :: rec in pos ==> rec.floodOccurred == 1
    requires forall rec :: rec in neg ==> rec.floodOccurred == 0
    ensures PositivesFirst(pos + neg)
  {
    var rows := pos + neg;
    forall i, j | 0 <= i < j < |rows| && rows[j].floodOccurred == 1
      ensures rows[i].floodOccurred == 1
    {
      assert rows[i] in pos;
    }
  }

  /** Row `a` is dated no later than row `b`, by year and then month. */
  predicate NotLater(a: Record, b: Record)
  {
    a.year < b.year || (a.year == b.year && a.month <= b.month)
  }

  /** The positive rows appear in (year, month) order. */
  predicate PositivesInOrder(rows: seq<Record>)
  {
    forall i, j :: 0 <= i < j < |rows| && rows[i].floodOccurred == 1 && rows[j].floodOccurred == 1
                   ==> NotLater(rows[i], rows[j])
  }

  /** Positive rows that all carry one year and month are in order. */
  lemma OneMonthInOrder(rows: seq<Record>, year: int, month: int)
    requires forall rec :: rec in rows && rec.floodOccurred == 1 ==> rec.year == year && rec.month == month
    ensures PositivesInOrder(rows)
  {
    forall i, j | 0 <= i < j < |rows| && rows[i].floodOccurred == 1 && rows[j].floodOccurred == 1
      ensures NotLater(rows[i], rows[j])
    {
      assert rows[i] in rows && rows[j] in rows;
    }
  }

  /**
   * Two runs of ordered positive rows stay in order when some (year, month)
   * is no earlier than every positive row of the first and no later than every
   * positive row of the second.
   */
  lemma InOrderAppend(a: seq<Record>, b: seq<Record>, year: int, month: int)
    requires PositivesInOrder(a) && PositivesInOrder(b)
    requires forall x :: x in a && x.floodOccurred == 1 ==> x.year < year || (x.year == year && x.month <= month)
    requires forall y :: y in b && y.floodOccurred == 1 ==> year < y.year || (y.year == year && month <= y.month)
    ensures PositivesInOrder(a + b)
  {
    var rows := a + b;
    forall i, j | 0 <= i < j < |rows| && rows[i].floodOccurred == 1 && rows[j].floodOccurred == 1
      ensures NotLater(rows[i], rows[j])
    {
      if j < |a| {
        assert rows[i] == a[i] && rows[j] == a[j];
      } else if i >= |a| {
        assert rows[i] == b[i - |a|] && rows[j] == b[j - |a|];
      } else {
        assert rows[i] in a && rows[j] in b;
      }
    }
  }

  /** One month: its positive rows, then its negative rows, and the stores they leave. */
  function MonthRecords(s: Stores, year: int, month: int, stations: seq<Station>, run: Run): (r: (seq<Record>, Stores))
    ensures |r.0| <= 2 * |FetchAlerts(s, year, month, run).0|
    ensures StoresGrow(s, r.1)
    ensures (year, month) in r.1.alertFiles && r.1.alertFiles[(year, month)] == FetchAlerts(s, year, month, run).0
    ensures forall rec :: rec in r.0 ==> Measured(rec.measurements, stations, rec.lat, rec.lon, run.dist)
    ensures forall rec :: rec in r.0 && rec.floodOccurred == 1 ==> rec.year == year && rec.month == month
    ensures PositivesFirst(r.0) && PositivesInOrder(r.0)
  {
    var fetched := FetchAlerts(s, year, month, run);
    var pos := Positives(fetched.1.caches, year, month, fetched.0, stations, run);
    var neg := Negatives(pos.1, year, month, fetched.0, stations, run);
    LabelledBlocks(pos.0, neg.0);
    OneMonthInOrder(pos.0 + neg.0, year, month);
    (pos.0 + neg.0, Stores(fetched.1.alertFiles, neg.1))
  }

  /**
   * A month's rows are the positive samples of its fetched alerts followed by
   * their negative samples, each complete in the sense of `PositiveIndex` and
   * `NegativeIndex`.
   */
  lemma MonthRows(s: Stores, year: int, month: int, stations: seq<Station>, run: Run)
    ensures var alerts := FetchAlerts(s, year, month, run).0;
            var rows := MonthRecords(s, year, month, stations, run).0;
            exists k :: 0 <= k <= |rows|
                        && (exists idx :: PositiveIndex(rows[..k], alerts, year, month, idx))
                        && (exists idx :: NegativeIndex(rows[k..], alerts, year, month, run, idx))
  {
    var fetched := FetchAlerts(s, year, month, run);
    var pos := Positives(fetched.1.caches, year, month, fetched.0, stations, run);
    var neg := Negatives(pos.1, year, month, fetched.0, stations, run);
    PositivesFromAlerts(fetched.1.caches, year, month, fetched.0, stations, run);
    NegativesFromAlerts(pos.1, year, month, fetched.0, stations, run);
    var rows := MonthRecords(s, year, month, stations, run).0;
    assert rows == pos.0 + neg.0;
    var k := |pos.0|;
    assert rows[..k] == pos.0 && rows[k..] == neg.0;
  }

  /** Months 1 to `k` of `year`, in order. */
  function Months(s: Stores, year: int, k: int, stations: seq<Station>, run: Run): (r: (seq<Record>, Stores))
    ensures StoresGrow(s, r.1)
    ensures forall m :: 1 <= m <= k ==> (year, m) in r.1.alertFiles
    ensures forall rec :: rec in r.0 ==> Measured(rec.measurements, stations, rec.lat, rec.lon, run.dist)
    ensures forall rec :: rec in r.0 && rec.floodOccurred == 1 ==> rec.year == year && 1 <= rec.month <= k
    ensures PositivesInOrder(r.0)
    decreases k
  {
    if k < 1 then ([], s)
    else
      var prev := Months(s, year, k - 1, stations, run);
      var month := MonthRecords(prev.1, year, k, stations, run);
      MonthsStep(s, prev, month, year, k, stations, run);
      (prev.0 + month.0, month.1)
  }

  /** The months before `k`, followed by month `k`, have the properties `Months` promises. */
  lemma MonthsStep(s: Stores, prev: (seq<Record>, Stores), month: (seq<Record>, Stores), year: int, k: int,
                   stations: seq<Station>, run: Run)
    requires 1 <= k
    requires StoresGrow(s, prev.1) && StoresGrow(prev.1, month.1)
    requires forall m :: 1 <= m < k ==> (year, m) in prev.1.alertFiles
    requires (year, k) in month.1.alertFiles
    requires forall rec :: rec in prev.0 ==> Measured(rec.measurements, stations, rec.lat, rec.lon, run.dist)
    requires forall rec :: rec in month.0 ==> Measured(rec.measurements, stations, rec.lat, rec.lon, run.dist)
    requires forall rec :: rec in prev.0 && rec.floodOccurred == 1 ==> rec.year == year && 1 <= rec.month < k
    requires forall rec :: rec in month.0 && rec.floodOccurred == 1 ==> rec.year == year && rec.month == k
    requires PositivesInOrder(prev.0) && PositivesInOrder(month.0)
    ensures StoresGrow(s, month.1)
    ensures forall m :: 1 <= m <= k ==> (year, m) in month.1.alertFiles
    ensures forall rec :: rec in prev.0 + month.0 ==> Measured(rec.measurements, stations, rec.lat, rec.lon, run.dist)
    ensures forall rec :: rec in prev.0 + month.0 && rec.floodOccurred == 1 ==> rec.year == year && 1 <= rec.month <= k
    ensures PositivesInOrder(prev.0 + month.0)
  {
    InOrderAppend(prev.0, month.0, year, k);
  }

  /** The years from `first` up to, not including, `end`, each with its first `run.months` months. */
  function Years(s: Stores, first: int, end: int, stations: seq<Station>, run: Run): (r: (seq<Record>, Stores))
    ensures StoresGrow(s, r.1)
    ensures forall y, m :: first <= y < end && 1 <= m <= run.months ==> (y, m) in r.1.alertFiles
    ensures forall rec :: rec in r.0 ==> Measured(rec.measurements, stations, rec.lat, rec.lon, run.dist)
    ensures forall rec :: rec in r.0 && rec.floodOccurred == 1 ==>
              first <= rec.year < end && 1 <= rec.month <= run.months
    ensures PositivesInOrder(r.0)
    decreases end - first
  {
    if end <= first then ([], s)
    else
      var prev := Years(s, first, end - 1, stations, run);
      var year := Months(prev.1, end - 1, run.months, stations, run);
      InOrderAppend(prev.0, year.0, end - 1, 1);
      YearsCover(prev.1.alertFiles, year.1.alertFiles, first, end - 1, run.months);
      (prev.0 + year.0, year.1)
  }

  /** Kept files for the years before `last`, and files for every month of `last`, cover every year up to `last`. */
  lemma YearsCover(files: map<(int, int), seq<Alert>>, files': map<(int, int), seq<Alert>>, first: int, last: int,
                   months: int)
    requires forall y, m :: first <= y < last && 1 <= m <= months ==> (y, m) in files
    requires forall m :: 1 <= m <= months ==> (last, m) in files'
    requires Grows(files, files')
    ensures forall y, m :: first <= y <= last && 1 <= m <= months ==> (y, m) in files'
  {
    forall y, m | first <= y <= last && 1 <= m <= months
      ensures (y, m) in files'
    {
      if y < last {
        assert (y, m) in files;
      }
    }
  }

  /** `range(current_year - YEARS_BACK, current_year + 1)`: its first year. */
  function FirstYear(run: Run): int
  {
    run.currentYear - run.years
  }

  /** How a run ends: the station download stops the program, or the rows are written out. */
  datatype Outcome = Stopped(stateCode: string) | Written(records: seq<Record>)

  /** The whole run and the stores it leaves. */
  function Build(s: Stores, run: Run): (r: (Outcome, Stores))
    ensures r.0.Stopped? <==> Download(StateCodes(run.target), run.services.directory).Exited?
    ensures r.0.Stopped? ==> r.1 == s
    ensures StoresGrow(s, r.1)
    ensures r.0.Written? ==> forall y, m :: FirstYear(run) <= y <= run.currentYear && 1 <= m <= run.months
                                            ==> (y, m) in r.1.alertFiles
    ensures r.0.Written? ==> forall rec :: rec in r.0.records ==>
              Measured(rec.measurements, Download(StateCodes(run.target), run.services.directory).stations,
                       rec.lat, rec.lon, run.dist)
    ensures r.0.Written? ==> forall rec :: rec in r.0.records && rec.floodOccurred == 1 ==>
              run.currentYear - run.years <= rec.year <= run.currentYear && 1 <= rec.month <= run.months
    ensures r.0.Written? ==> PositivesInOrder(r.0.records)
  {
    match Download(StateCodes(run.target), run.services.directory)
    case Exited(code, _) => (Stopped(code), s)
    case Completed(stations) =>
      var years := Years(s, FirstYear(run), run.currentYear + 1, stations, run);
      (Written(years.0), years.1)
  }

  // ---------- the builder ----------

  function CachesOf(caches: EnrichmentCaches): Caches
    reads caches
  {
    Caches(caches.precipitation, caches.elevation, caches.gageHeight)
  }

  function StoresOf(archive: AlertArchive, caches: EnrichmentCaches): Stores
    reads archive, caches
  {
    Stores(archive.files, CachesOf(caches))
  }

  /** The enrichment of one sample. */
  method MeasureAt(directory: StationDirectory, caches: EnrichmentCaches, lat: real, lon: real, date: Date, run: Run)
    returns (m: Option<Measurements>)
    requires ValidDate(date) && date.year <= MaxYear
    modifies caches
    ensures (m, CachesOf(caches)) == Measure(old(CachesOf(caches)), lat, lon, date, directory.stations, run)
  {
    var precip, raised := caches.GetPrecipitation(run.precipitationKey(lat, lon, date), date,
                                                  run.services.precipitation(lat, lon, date));
    if raised {
      return None;
    }
    var elevation := caches.GetElevation(run.elevationKey(lat, lon), run.services.elevation(lat, lon));
    var station := directory.FindNearest(lat, lon, run.dist);
    var gage := caches.GetGageHeight(station, date, run.services.gage);
    m := Some(Measurements(precip, elevation, station, gage));
  }

  /** The body of the positive-sample loop for one alert. */
  method PositiveSample(directory: StationDirectory, caches: EnrichmentCaches, year: int, month: int,
                        a: Alert, run: Run) returns (record: Option<Record>)
    modifies caches
    ensures (record, CachesOf(caches)) == PositiveStep(old(CachesOf(caches)), year, month, a, directory.stations, run)
  {
    var loc := Locate(a);
    if loc.None? {
      return None;
    }
    var m := MeasureAt(directory, caches, loc.value.0, loc.value.1, loc.value.2, run);
    if m.None? {
      return None;
    }
    return Some(PositiveRecord(year, month, loc.value.0, loc.value.1, a, m.value));
  }

  /** The body of the negative-sample loop for one alert and its draws. */
  method NegativeSample(directory: StationDirectory, caches: EnrichmentCaches, a: Alert, z: Noise, run: Run)
    returns (record: Option<Record>)
    modifies caches
    ensures (record, CachesOf(caches)) == NegativeStep(old(CachesOf(caches)), a, z, directory.stations, run)
  {
    var loc := Locate(a);
    if loc.None? {
      return None;
    }
    var later := ShiftDate(loc.value.2, z.days);
    if later.None? {
      return None;
    }
    var (lat, lon) := Displaced(loc.value, z);
    var m := MeasureAt(directory, caches, lat, lon, later.value, run);
    if m.None? {
      return None;
    }
    return Some(NegativeRecord(later.value, lat, lon, m.value));
  }

  /** The positive-sample loop over a month's alerts. */
  method SamplePositives(directory: StationDirectory, caches: EnrichmentCaches, year: int, month: int,
                         alerts: seq<Alert>, run: Run) returns (records: seq<Record>)
    modifies caches
    ensures (records, CachesOf(caches)) == Positives(old(CachesOf(caches)), year, month, alerts, directory.stations, run)
  {
    records := [];
    for i := 0 to |alerts|
      invariant (records, CachesOf(caches)) == Positives(old(CachesOf(caches)), year, month, alerts[..i], directory.stations, run)
    {
      assert alerts[..i + 1][..i] == alerts[..i];
      var record := PositiveSample(directory, caches, year, month, alerts[i], run);
      records := records + Rows(record);
    }
    assert alerts[..|alerts|] == alerts;
  }

  /** The negative-sample loop over a month's alerts; the draws are taken per alert. */
  method SampleNegatives(directory: StationDirectory, caches: EnrichmentCaches, year: int, month: int,
                         alerts: seq<Alert>, run: Run) returns (records: seq<Record>)
    modifies caches
    ensures (records, CachesOf(caches)) == Negatives(old(CachesOf(caches)), year, month, alerts, directory.stations, run)
  {
    records := [];
    for i := 0 to |alerts|
      invariant (records, CachesOf(caches)) == Negatives(old(CachesOf(caches)), year, month, alerts[..i], directory.stations, run)
    {
      assert alerts[..i + 1][..i] == alerts[..i];
      var record := NegativeSample(directory, caches, alerts[i], run.noise(year, month, i), run);
      records := records + Rows(record);
    }
    assert alerts[..|alerts|] == alerts;
  }

  /** One month of the builder's loop. */
  method SampleMonth(directory: StationDirectory, archive: AlertArchive, caches: EnrichmentCaches,
                     year: int, month: int, run: Run) returns (records: seq<Record>)
    modifies archive, caches
    ensures (records, StoresOf(archive, caches))
            == MonthRecords(old(StoresOf(archive, caches)), year, month, directory.stations, run)
  {
    var alerts := archive.Fetch(year, month, run.target, run.services.offices);
    var positives := SamplePositives(directory, caches, year, month, alerts, run);
    var negatives := SampleNegatives(directory, caches, year, month, alerts, run);
    records := positives + negatives;
  }

  /** One year of the builder's loop: months 1 to `run.months`. */
  method SampleYear(directory: StationDirectory, archive: AlertArchive, caches: EnrichmentCaches,
                    year: int, run: Run) returns (records: seq<Record>)
    modifies archive, caches
    ensures (records, StoresOf(archive, caches))
            == Months(old(StoresOf(archive, caches)), year, run.months, directory.stations, run)
  {
    records := [];
    if run.months < 1 {
      return;
    }
    for month := 1 to run.months + 1
      invariant (records, StoresOf(archive, caches))
                == Months(old(StoresOf(archive, caches)), year, month - 1, directory.stations, run)
    {
      var more := SampleMonth(directory, archive, caches, year, month, run);
      records := records + more;
    }
  }

  /** The builder's outer loop over the years of the range. */
  method SampleYears(directory: StationDirectory, archive: AlertArchive, caches: EnrichmentCaches, run: Run)
    returns (records: seq<Record>)
    modifies archive, caches
    ensures (records, StoresOf(archive, caches))
            == Years(old(StoresOf(archive, caches)), FirstYear(run), run.currentYear + 1, directory.stations, run)
  {
    records := [];
    if run.years < 0 {
      return;
    }
    for year := FirstYear(run) to run.currentYear + 1
      invariant (records, StoresOf(archive, caches))
                == Years(old(StoresOf(archive, caches)), FirstYear(run), year, directory.stations, run)
    {
      var more := SampleYear(directory, archive, caches, year, run);
      records := records + more;
    }
  }

  /**
   * `build_dataset`: loads the station list (a fatal station reply stops the
   * program), then samples every year of the range and returns the rows that
   * are written out.
   */
  method BuildDataset(directory: StationDirectory, archive: AlertArchive, caches: EnrichmentCaches, run: Run)
    returns (outcome: Outcome)
    modifies directory, archive, caches
    ensures (outcome, StoresOf(archive, caches)) == Build(old(StoresOf(archive, caches)), run)
    ensures directory.stations == Download(StateCodes(run.target), run.services.directory).stations
    ensures directory.cacheFile
            == if outcome.Written? then Some(directory.stations) else old(directory.cacheFile)
  {
    var exited := directory.Load(run.target, run.services.directory);
    if exited.Some? {
      return Stopped(exited.value);
    }
    var records := SampleYears(directory, archive, caches, run);
    return Written(records);
  }
}
