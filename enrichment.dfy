/**
 * The three read-through caches of the enrichment fetchers (gage height,
 * precipitation, elevation): which replies are written to the cache, which
 * give up without writing, and how a response body becomes a value.
 */
module Enrichment {
  import opened Wrappers
  import opened Text
  import opened Http
  import opened Calendar

  /** A cache file's contents: key to value, where a stored `None` is a remembered failure. */
  type Cache = map<string, Option<real>>

  /** What a fresh lookup decides: store this value (possibly `None`), or return `None` without storing. */
  datatype Fetched = Store(value: Option<real>) | GiveUp

  /**
   * A read-through lookup: a present key returns its stored value and changes
   * nothing; an absent key stores what the fetch decided, or returns `None`
   * and leaves the cache as it was.
   */
  function Lookup(cache: Cache, key: string, f: Fetched): (r: (Option<real>, Cache))
    ensures key in cache ==> r == (cache[key], cache)
    ensures forall k :: k in cache ==> k in r.1 && r.1[k] == cache[k]
    ensures r.1.Keys <= cache.Keys + {key}
    ensures (key in r.1 && r.0 == r.1[key]) || (key !in r.1 && r.0 == None && r.1 == cache)
    ensures key !in cache ==> (key in r.1 <==> f.Store?) && (f.Store? ==> r.0 == f.value)
  {
    if key in cache then (cache[key], cache)
    else
      match f
      case Store(v) => (v, cache[key := v])
      case GiveUp => (None, cache)
  }

  /**
   * A lookup that found or stored its key is answered from the cache the next
   * time, whatever the service would reply then: no second request is made.
   */
  lemma SecondLookupHits(cache: Cache, key: string, f1: Fetched, f2: Fetched)
    requires key in cache || f1.Store?
    ensures key in Lookup(cache, key, f1).1
    ensures Lookup(Lookup(cache, key, f1).1, key, f2) == Lookup(cache, key, f1)
  {
  }

  // ---------- gage height ----------

  /** One feature of the daily-values response: its `properties.value`, `None` when missing or null. */
  datatype GageFeature = GageFeature(value: Option<Number>)

  /** The decoded gage-height response: its `features` list (empty when missing). */
  datatype GageBody = GageBody(features: seq<GageFeature>)

  /**
   * The value a decoded gage-height body gives: the first feature's value, or
   * `None` when there is no feature or it has no value; `float()` of a value
   * that is not a number raises, and the lookup gives up.
   */
  function GageReading(b: GageBody): (f: Fetched)
    ensures b.features == [] ==> f == Store(None)
    ensures b.features != [] ==>
              f == match b.features[0].value
                   case None => Store(None)
                   case Some(Num(v)) => Store(Some(v))
                   case Some(NotANumber) => GiveUp
  {
    if b.features == [] then Store(None)
    else
      match b.features[0].value
      case None => Store(None)
      case Some(Num(v)) => Store(Some(v))
      case Some(NotANumber) => GiveUp
  }

  /**
   * `get_usgs_gage_height` after a cache miss. `raise_for_status` turns 4xx and
   * 5xx into `HTTPError`; a 429 is retried once. A request exception, any other
   * HTTP error, and a retry that fails all return `None` without caching.
   */
  function GageFetch(ex: Exchange<GageBody>): (f: Fetched)
    ensures ex.first.RequestFailed? ==> f == GiveUp
    ensures ex.first.Response? && RaisesForStatus(ex.first.status) && ex.first.status != TooManyRequests
            ==> f == GiveUp
    ensures ex.first.Response? && ex.first.status == TooManyRequests
            ==> f == (if ex.retry.Response? && !RaisesForStatus(ex.retry.status) && ex.retry.body.Some?
                      then GageReading(ex.retry.body.value) else GiveUp)
    ensures ex.first.Response? && !RaisesForStatus(ex.first.status)
            ==> f == (if ex.first.body.Some? then GageReading(ex.first.body.value) else GiveUp)
  {
    match ex.first
    case RequestFailed => GiveUp
    case Response(status, body) =>
      if RaisesForStatus(status) then
        if status == TooManyRequests then
          match ex.retry
          case Response(status2, Some(body2)) =>
            if RaisesForStatus(status2) then GiveUp else GageReading(body2)
          case _ => GiveUp
        else GiveUp
      else
        match body
        case None => GiveUp
        case Some(b) => GageReading(b)
  }

  /** The gage-height cache key: `"{station_id},{YYYY-MM-DD}"`. */
  function GageKey(station: string, date: Date): (k: string)
    requires ValidDate(date) && date.year <= MaxYear
    ensures |k| == |station| + 11 && k[..|station|] == station
  {
    station + "," + IsoDate(date)
  }

  /** Distinct (station, day) pairs never share a gage-height cache entry. */
  lemma GageKeyInjective(s1: string, d1: Date, s2: string, d2: Date)
    requires ValidDate(d1) && d1.year <= MaxYear && ValidDate(d2) && d2.year <= MaxYear
    requires GageKey(s1, d1) == GageKey(s2, d2)
    ensures s1 == s2 && d1 == d2
  {
    var k := GageKey(s1, d1);
    assert |s1| == |s2|;
    assert k[|s1| + 1..] == IsoDate(d1);
    assert GageKey(s2, d2)[|s2| + 1..] == IsoDate(d2);
    IsoDateInjective(d1, d2);
  }

  // ---------- precipitation ----------

  /** The decoded NOAA response: the `value` of each item of `results` (empty when missing). */
  datatype PrecipitationBody = PrecipitationBody(results: seq<Number>)

  /** `sum(item["value"] for item in results)`: `None` when some value is not a number (Python raises). */
  function SumReadings(xs: seq<Number>): (r: Option<real>)
    ensures r.Some? <==> forall i :: 0 <= i < |xs| ==> xs[i].Num?
    ensures xs == [] ==> r == Some(0.0)
  {
    if xs == [] then Some(0.0)
    else
      match (SumReadings(xs[..|xs| - 1]), xs[|xs| - 1])
      case (Some(s), Num(v)) => Some(s + v)
      case _ => None
  }

  /** Readings add up independently of how the list is split. */
  lemma {:induction false} SumReadingsAppend(a: seq<Number>, b: seq<Number>)
    requires SumReadings(a).Some? && SumReadings(b).Some?
    ensures SumReadings(a + b) == Some(SumReadings(a).value + SumReadings(b).value)
    decreases |b|
  {
    if b == [] {
      assert a + b == a;
    } else {
      var b' := b[..|b| - 1];
      assert (a + b)[..|a + b| - 1] == a + b';
      assert (a + b)[|a + b| - 1] == b[|b| - 1];
      assert forall i :: 0 <= i < |b'| ==> b'[i] == b[i];
      SumReadingsAppend(a, b');
    }
  }

  /** The reply whose status decides: the retry after a first 429, otherwise the first. */
  function Decisive<B>(ex: Exchange<B>): Reply<B>
  {
    if ex.first.Response? && ex.first.status == TooManyRequests then ex.retry else ex.first
  }

  /**
   * `get_precipitation` after a cache miss. A 429 is retried once. A 200 stores
   * the sum of all readings (0 when there are none); every other status, a
   * second 429 included, stores `None`. A request exception, an undecodable
   * body and a non-numeric reading return `None` without caching.
   */
  function PrecipitationFetch(ex: Exchange<PrecipitationBody>): (f: Fetched)
    ensures Decisive(ex).RequestFailed? ==> f == GiveUp
    ensures Decisive(ex).Response? && Decisive(ex).status != 200 ==> f == Store(None)
    ensures Decisive(ex).Response? && Decisive(ex).status == 200 ==>
              f == match Decisive(ex).body
                   case None => GiveUp
                   case Some(b) => if SumReadings(b.results).Some? then Store(SumReadings(b.results)) else GiveUp
    ensures Decisive(ex).Response? && Decisive(ex).status == 200 && Decisive(ex).body == Some(PrecipitationBody([]))
            ==> f == Store(Some(0.0))
  {
    match Decisive(ex)
    case RequestFailed => GiveUp
    case Response(status, body) =>
      if status == 200 then
        match body
        case None => GiveUp
        case Some(b) =>
          match SumReadings(b.results)
          case Some(total) => Store(Some(total))
          case None => GiveUp
      else Store(None)
  }

  // ---------- elevation ----------

  /** The decoded elevation response: its `value` and `elevation` members. */
  datatype ElevationBody = ElevationBody(value: Member<Option<real>>, elevation: Member<Option<real>>)

  /**
   * `get_elevation` after a cache miss. A 429 is retried once. A 200 stores the
   * `value` member if present, else the `elevation` member; a 200 with neither
   * returns `None` without caching. Every other status stores `None`. A request
   * exception or an undecodable body returns `None` without caching.
   */
  function ElevationFetch(ex: Exchange<ElevationBody>): (f: Fetched)
    ensures Decisive(ex).RequestFailed? ==> f == GiveUp
    ensures Decisive(ex).Response? && Decisive(ex).status != 200 ==> f == Store(None)
    ensures Decisive(ex).Response? && Decisive(ex).status == 200 && Decisive(ex).body == None ==> f == GiveUp
    ensures Decisive(ex).Response? && Decisive(ex).status == 200 && Decisive(ex).body.Some? ==>
              var b := Decisive(ex).body.value;
              && (b.value.Present? ==> f == Store(b.value.content))
              && (b.value.Missing? && b.elevation.Present? ==> f == Store(b.elevation.content))
              && (b.value.Missing? && b.elevation.Missing? ==> f == GiveUp)
  {
    match Decisive(ex)
    case RequestFailed => GiveUp
    case Response(status, body) =>
      if status == 200 then
        match body
        case None => GiveUp
        case Some(b) =>
          if b.value.Present? then Store(b.value.content)
          else if b.elevation.Present? then Store(b.elevation.content)
          else GiveUp
      else Store(None)
  }

  /** `date - timedelta(days=1)` leaves the calendar only for 1 January of year 1. */
  predicate WindowOverflows(date: Date)
  {
    date == Date(1, 1, 1)
  }

  /** The window overflows exactly when no valid day comes before `date`. */
  lemma WindowOverflowsExactly(date: Date)
    requires ValidDate(date)
    ensures WindowOverflows(date) <==> !exists p :: ValidDate(p) && NextDay(p) == date
  {
    if WindowOverflows(date) {
      forall p | ValidDate(p)
        ensures NextDay(p) != date
      {
        assert Before(p, NextDay(p));
      }
    } else {
      var p := if date.day > 1 then Date(date.year, date.month, date.day - 1)
               else if date.month > 1 then Date(date.year, date.month - 1, DaysInMonth(date.year, date.month - 1))
               else Date(date.year - 1, 12, 31);
      assert ValidDate(p) && NextDay(p) == date;
    }
  }

  /** The gage-height service's replies for a station id and a day. */
  type GageReplies = (string, Date) -> Exchange<GageBody>

  /**
   * The value and the new cache of `get_usgs_gage_height`: without a station id
   * (or with an empty one) it answers `None` and neither reads nor writes the
   * cache; otherwise it is a cached lookup under the station-and-day key.
   */
  function GageHeight(cache: Cache, station: Option<string>, date: Date, replies: GageReplies): (r: (Option<real>, Cache))
    requires ValidDate(date) && date.year <= MaxYear
    ensures !Truthy(station) ==> r == (None, cache)
    ensures Truthy(station) && GageKey(station.value, date) in cache ==>
              r == (cache[GageKey(station.value, date)], cache)
    ensures Truthy(station) && GageKey(station.value, date) !in cache ==>
              match GageFetch(replies(station.value, date))
              case Store(v) => r == (v, cache[GageKey(station.value, date) := v])
              case GiveUp => r == (None, cache)
    ensures forall k :: k in cache ==> k in r.1 && r.1[k] == cache[k]
  {
    if !Truthy(station) then (None, cache)
    else Lookup(cache, GageKey(station.value, date), GageFetch(replies(station.value, date)))
  }

  /** The three cache files, as loaded and saved by the getters. */
  class EnrichmentCaches {
    var precipitation: Cache
    var elevation: Cache
    var gageHeight: Cache

    constructor (precipitation: Cache, elevation: Cache, gageHeight: Cache)
      ensures this.precipitation == precipitation && this.elevation == elevation
      ensures this.gageHeight == gageHeight
    {
      this.precipitation := precipitation;
      this.elevation := elevation;
      this.gageHeight := gageHeight;
    }

    /**
     * `get_precipitation(lat, lon, date)`, with `key` its rounded cache key and
     * `ex` the service's replies. On a cache miss the request window starts the
     * day before `date`; for the first representable day that subtraction
     * overflows, and `raised` reports the exception the caller then sees.
     */
    method GetPrecipitation(key: string, date: Date, ex: Exchange<PrecipitationBody>)
      returns (value: Option<real>, raised: bool)
      modifies this`precipitation
      ensures raised <==> key !in old(precipitation) && WindowOverflows(date)
      ensures raised ==> value == None && precipitation == old(precipitation)
      ensures !raised ==> (value, precipitation) == Lookup(old(precipitation), key, PrecipitationFetch(ex))
    {
      if key in precipitation {
        return precipitation[key], false;
      }
      if WindowOverflows(date) {
        return None, true;
      }
      raised := false;
      match PrecipitationFetch(ex) {
        case GiveUp => value := None;
        case Store(v) =>
          precipitation := precipitation[key := v];
          value := v;
      }
    }

    /** `get_elevation(lat, lon)`, with `key` its rounded cache key and `ex` the service's replies. */
    method GetElevation(key: string, ex: Exchange<ElevationBody>) returns (value: Option<real>)
      modifies this`elevation
      ensures (value, elevation) == Lookup(old(elevation), key, ElevationFetch(ex))
    {
      if key in elevation {
        return elevation[key];
      }
      match ElevationFetch(ex) {
        case GiveUp => value := None;
        case Store(v) =>
          elevation := elevation[key := v];
          value := v;
      }
    }

    /** `get_usgs_gage_height(station_id, date)`, with `replies` the service's replies per station and day. */
    method GetGageHeight(station: Option<string>, date: Date, replies: GageReplies) returns (value: Option<real>)
      requires ValidDate(date) && date.year <= MaxYear
      modifies this`gageHeight
      ensures (value, gageHeight) == GageHeight(old(gageHeight), station, date, replies)
    {
      if !Truthy(station) {
        return None;
      }
      var key := GageKey(station.value, date);
      if key in gageHeight {
        return gageHeight[key];
      }
      match GageFetch(replies(station.value, date)) {
        case GiveUp => value := None;
        case Store(v) =>
          gageHeight := gageHeight[key := v];
          value := v;
      }
    }
  }
}
