/**
 * Historical flood alerts: which weather offices are asked, which events are
 * kept (issue month, target state), the fixed shape each kept event is given,
 * the per-month alert cache, and the coordinate derived for an alert.
 */
module Alerts {
  import opened Wrappers
  import opened Text
  import opened Http
  import opened Calendar

  // ---------- weather offices ----------

  /** `state_wfos`: the weather forecast offices of each state, in table order. */
  const StateOffices: seq<(string, seq<string>)> := [
    ("Texas", ["EWX", "FWD", "HGX", "SJT", "LUB", "AMA", "CRP", "BRO", "EPZ"]),
    ("California", ["LOX", "SGX", "OXR", "MTR", "STO", "HNX", "EKA", "REV"]),
    ("Florida", ["MFL", "TBW", "MLB", "JAX", "TAE", "KEY"]),
    ("Louisiana", ["LIX", "SHV", "LCH"]),
    ("Georgia", ["FFC"]),
    ("South Carolina", ["CHS"]),
    ("North Carolina", ["RAH"]),
    ("Virginia", ["LWX"]),
    ("Illinois", ["LOT"]),
    ("Indiana", ["IND"]),
    ("Kentucky", ["JKL"]),
    ("Tennessee", ["MEG"]),
    ("Alabama", ["BMX"]),
    ("Arkansas", ["LZK"])]

  /** The offices listed for `state` in `table`, if it has an entry. */
  function OfficesOf(table: seq<(string, seq<string>)>, state: string): (r: Option<seq<string>>)
    ensures r.Some? ==> exists i :: 0 <= i < |table| && table[i] == (state, r.value)
    ensures r.None? ==> forall i :: 0 <= i < |table| ==> table[i].0 != state
  {
    if table == [] then None
    else if table[0].0 == state then Some(table[0].1)
    else OfficesOf(table[1..], state)
  }

  /** Every office of the table, state by state: the nationwide list. */
  function AllOffices(table: seq<(string, seq<string>)>): (r: seq<string>)
  {
    if table == [] then [] else table[0].1 + AllOffices(table[1..])
  }

  /** Each state's offices are part of the nationwide list. */
  lemma {:induction false} OfficesAreNationwide(table: seq<(string, seq<string>)>, i: nat)
    requires i < |table|
    ensures forall o :: o in table[i].1 ==> o in AllOffices(table)
  {
    if i > 0 {
      OfficesAreNationwide(table[1..], i - 1);
    }
  }

  /**
   * The offices asked for alerts: those of the target state when it has an
   * entry, otherwise every office of every state.
   */
  function Offices(target: Option<string>): (offices: seq<string>)
    ensures Truthy(target) && OfficesOf(StateOffices, target.value).Some?
            ==> offices == OfficesOf(StateOffices, target.value).value
    ensures !(Truthy(target) && OfficesOf(StateOffices, target.value).Some?)
            ==> offices == AllOffices(StateOffices)
    ensures forall o :: o in offices ==> o in AllOffices(StateOffices)
  {
    if Truthy(target) && OfficesOf(StateOffices, target.value).Some? then
      var r := OfficesOf(StateOffices, target.value);
      var i :| 0 <= i < |StateOffices| && StateOffices[i] == (target.value, r.value);
      OfficesAreNationwide(StateOffices, i);
      r.value
    else AllOffices(StateOffices)
  }

  /** `state_abbrevs`: postal abbreviations of the 14 states. */
  const StateAbbrevs: map<string, string> := map[
    "Texas" := "TX", "California" := "CA", "Florida" := "FL", "Louisiana" := "LA",
    "Georgia" := "GA", "South Carolina" := "SC", "North Carolina" := "NC",
    "Virginia" := "VA", "Illinois" := "IL", "Indiana" := "IN", "Kentucky" := "KY",
    "Tennessee" := "TN", "Alabama" := "AL", "Arkansas" := "AR"]

  /** `state_abbrevs.get(state, state)`: an unknown state stands for itself. */
  function Abbreviation(state: string): string
  {
    if state in StateAbbrevs then StateAbbrevs[state] else state
  }

  // ---------- events and alerts ----------

  /**
   * One event of the IEM response. `issue` is `None` when missing or null;
   * `locations` is `""` when missing; `phName`, `sigName` and `area` are `None`
   * when missing.
   */
  datatype Event = Event(issue: Option<string>, locations: string, phName: Option<string>,
                         sigName: Option<string>, area: Option<real>)

  /** The decoded IEM response: its `events` list (empty when missing). */
  datatype EventsBody = EventsBody(events: seq<Event>)

  /** An alert's `geometry`: a Point, a Polygon (its rings of positions), or another shape. */
  datatype Geometry = Point(coordinates: seq<real>) | Polygon(rings: seq<seq<seq<real>>>) | OtherShape

  /** The alert record the builder works with (and the alert cache stores). */
  datatype Alert = Alert(event: string, areaDesc: string, severity: string, certainty: string,
                         urgency: string, onset: string, geometry: Option<Geometry>,
                         issueTimestamp: string, areaSqMiles: real)

  /** `datetime.strptime(event["issue"][:10], "%Y-%m-%d")`; `None` where Python raises. */
  function IssueDate(e: Event): (r: Option<Date>)
    ensures r.Some? ==> e.issue.Some? && ValidDate(r.value) && r.value.year <= MaxYear
  {
    match e.issue
    case None => None
    case Some(s) => ParseIsoDate(Prefix(s, 10))
  }

  /** The location filter: with a target state, the text must name `[abbr]` or the state itself. */
  predicate StateMatches(locations: string, target: Option<string>)
  {
    !Truthy(target)
    || Contains(locations, "[" + Abbreviation(target.value) + "]")
    || Contains(locations, target.value)
  }

  /** An event survives filtering: its issue date parses, falls in `month`, and its location matches. */
  predicate Kept(e: Event, month: int, target: Option<string>)
  {
    IssueDate(e).Some? && IssueDate(e).value.month == month && StateMatches(e.locations, target)
  }

  function OrElse(o: Option<string>, default: string): string
  {
    if o.Some? then o.value else default
  }

  /** The fixed alert shape built from a kept event. */
  function ToAlert(e: Event): (a: Alert)
    requires e.issue.Some?
    ensures a.certainty == "Observed" && a.urgency == "Past" && a.geometry == None
    ensures a.event == OrElse(e.phName, "Flood") + " " + OrElse(e.sigName, "Warning")
    ensures a.severity == OrElse(e.sigName, "Warning") && a.areaDesc == e.locations
    ensures a.onset == e.issue.value && a.issueTimestamp == e.issue.value
  {
    Alert(OrElse(e.phName, "Flood") + " " + OrElse(e.sigName, "Warning"), e.locations,
          OrElse(e.sigName, "Warning"), "Observed", "Past", e.issue.value, None, e.issue.value,
          if e.area.Some? then e.area.value else 0.0)
  }

  /** What an alert fetched for `month` satisfies, whatever the office returned. */
  predicate Admitted(a: Alert, month: int, target: Option<string>)
  {
    && ParseIsoDate(Prefix(a.onset, 10)).Some?
    && ParseIsoDate(Prefix(a.onset, 10)).value.month == month
    && StateMatches(a.areaDesc, target)
    && a.certainty == "Observed" && a.urgency == "Past" && a.geometry == None
  }

  /** The alerts of one office's events, in event order. */
  function EventAlerts(events: seq<Event>, month: int, target: Option<string>): seq<Alert>
  {
    if events == [] then []
    else
      var e := events[|events| - 1];
      EventAlerts(events[..|events| - 1], month, target)
        + if Kept(e, month, target) then [ToAlert(e)] else []
  }

  /**
   * Exactly the kept events become alerts: every alert is the shape of some kept
   * event, every kept event's shape is among the alerts, and each is admitted.
   */
  lemma {:induction false} EventAlertsExact(events: seq<Event>, month: int, target: Option<string>)
    ensures forall a :: a in EventAlerts(events, month, target) ==>
              exists e :: e in events && Kept(e, month, target) && a == ToAlert(e)
    ensures forall e :: e in events && Kept(e, month, target) ==> ToAlert(e) in EventAlerts(events, month, target)
    ensures forall a :: a in EventAlerts(events, month, target) ==> Admitted(a, month, target)
  {
    if events != [] {
      var init := events[..|events| - 1];
      EventAlertsExact(init, month, target);
      assert forall e :: e in init ==> e in events;
      assert forall e :: e in events ==> e in init || e == events[|events| - 1];
    }
  }

  /**
   * The events an office's replies yield, or `None` when the office is skipped:
   * a request exception, a non-429 HTTP error, a failed retry after a 429, or
   * an undecodable body.
   */
  function OfficeEvents(ex: Exchange<EventsBody>): (r: Option<seq<Event>>)
    ensures ex.first.RequestFailed? ==> r == None
    ensures ex.first.Response? && RaisesForStatus(ex.first.status) && ex.first.status != TooManyRequests
            ==> r == None
    ensures ex.first.Response? && ex.first.status == TooManyRequests
            ==> r == (if ex.retry.Response? && !RaisesForStatus(ex.retry.status) && ex.retry.body.Some?
                      then Some(ex.retry.body.value.events) else None)
    ensures ex.first.Response? && !RaisesForStatus(ex.first.status)
            ==> r == (if ex.first.body.Some? then Some(ex.first.body.value.events) else None)
  {
    match ex.first
    case RequestFailed => None
    case Response(status, body) =>
      if RaisesForStatus(status) then
        if status == TooManyRequests then
          match ex.retry
          case Response(status2, Some(body2)) =>
            if RaisesForStatus(status2) then None else Some(body2.events)
          case _ => None
        else None
      else
        match body
        case None => None
        case Some(b) => Some(b.events)
  }

  /** The alerts of one office's replies. */
  function OfficeAlerts(ex: Exchange<EventsBody>, month: int, target: Option<string>): seq<Alert>
  {
    match OfficeEvents(ex)
    case None => []
    case Some(events) => EventAlerts(events, month, target)
  }

  /** The IEM service's replies for an office and a year. */
  type OfficeReplies = (string, int) -> Exchange<EventsBody>

  /** The alerts collected from the given offices, in office order then event order. */
  function CollectAlerts(offices: seq<string>, year: int, month: int, target: Option<string>,
                         replies: OfficeReplies): seq<Alert>
  {
    if offices == [] then []
    else
      CollectAlerts(offices[..|offices| - 1], year, month, target, replies)
        + OfficeAlerts(replies(offices[|offices| - 1], year), month, target)
  }

  /** The alerts a fetch without a cache file collects. */
  function FreshAlerts(year: int, month: int, target: Option<string>, replies: OfficeReplies): seq<Alert>
  {
    CollectAlerts(Offices(target), year, month, target, replies)
  }

  /** Every freshly collected alert is admitted for its month and target state. */
  lemma {:induction false} CollectedAlertsAdmitted(offices: seq<string>, year: int, month: int,
                                                   target: Option<string>, replies: OfficeReplies)
    ensures forall a :: a in CollectAlerts(offices, year, month, target, replies) ==> Admitted(a, month, target)
  {
    if offices != [] {
      CollectedAlertsAdmitted(offices[..|offices| - 1], year, month, target, replies);
      var ex := replies(offices[|offices| - 1], year);
      if OfficeEvents(ex).Some? {
        EventAlertsExact(OfficeEvents(ex).value, month, target);
      }
    }
  }

  /** The inner loop over one office's events: the alerts of the kept ones, in order. */
  method KeptAlerts(events: seq<Event>, month: int, target: Option<string>) returns (alerts: seq<Alert>)
    ensures alerts == EventAlerts(events, month, target)
  {
    alerts := [];
    for j := 0 to |events|
      invariant alerts == EventAlerts(events[..j], month, target)
    {
      assert events[..j + 1][..j] == events[..j];
      if Kept(events[j], month, target) {
        alerts := alerts + [ToAlert(events[j])];
      }
    }
    assert events[..|events|] == events;
  }

  /** The loop over the offices: each office's kept alerts are appended in turn. */
  method Collect(offices: seq<string>, year: int, month: int, target: Option<string>, replies: OfficeReplies)
    returns (alerts: seq<Alert>)
    ensures alerts == CollectAlerts(offices, year, month, target, replies)
  {
    alerts := [];
    for i := 0 to |offices|
      invariant alerts == CollectAlerts(offices[..i], year, month, target, replies)
    {
      assert offices[..i + 1][..i] == offices[..i];
      var events := OfficeEvents(replies(offices[i], year));
      if events.Some? {
        var kept := KeptAlerts(events.value, month, target);
        alerts := alerts + kept;
      }
    }
    assert offices[..|offices|] == offices;
  }

  /** The per-month alert cache files (`{year}-{month:02d}.json`), keyed by (year, month). */
  class AlertArchive {
    var files: map<(int, int), seq<Alert>>

    constructor (files: map<(int, int), seq<Alert>>)
      ensures this.files == files
    {
      this.files := files;
    }

    /**
     * `fetch_historical_flood_alerts(year, month)`: an existing cache file is
     * returned as it is; otherwise every office is asked in turn, the kept
     * events are appended, and the list is written to the cache file even when
     * it is empty.
     */
    method Fetch(year: int, month: int, target: Option<string>, replies: OfficeReplies)
      returns (alerts: seq<Alert>)
      modifies this
      ensures (year, month) in old(files) ==> alerts == old(files)[(year, month)] && files == old(files)
      ensures (year, month) !in old(files) ==>
                alerts == FreshAlerts(year, month, target, replies)
                && files == old(files)[(year, month) := alerts]
    {
      if (year, month) in files {
        return files[(year, month)];
      }
      alerts := Collect(Offices(target), year, month, target, replies);
      files := files[(year, month) := alerts];
    }
  }

  // ---------- alert location ----------

  /** `county_coords`: approximate centres of some flood-prone Texas counties. */
  const CountyCoords: map<string, (real, real)> := map[
    "Harris" := (29.7604, -95.3698),
    "Travis" := (30.2672, -97.7431),
    "Bexar" := (29.4241, -98.4936),
    "Dallas" := (32.7767, -96.7970),
    "Tarrant" := (32.7555, -97.3308),
    "Fayette" := (29.8947, -96.9344),
    "DeWitt" := (29.0374, -97.2842),
    "Wilson" := (29.1213, -98.1281),
    "Val Verde" := (29.3605, -100.8965),
    "Kerr" := (30.0474, -99.3420),
    "Bandera" := (29.7574, -99.0717),
    "Kinney" := (29.3505, -100.4440),
    "Uvalde" := (29.2097, -99.7864),
    "Llano" := (30.7591, -98.6723)]

  /** The fallback for any text tagged `[TX]`: roughly the centre of Texas. */
  const TexasCentre: (real, real) := (31.0, -99.0)

  /** The end of the run of lower-case letters starting at `j`. */
  function LowerRunEnd(s: string, j: nat): (k: nat)
    requires j <= |s|
    ensures j <= k <= |s|
    ensures forall t :: j <= t < k ==> IsLower(s[t])
    ensures k < |s| ==> !IsLower(s[k])
    decreases |s| - j
  {
    if j < |s| && IsLower(s[j]) then LowerRunEnd(s, j + 1) else j
  }

  /** The end of the run of whitespace starting at `j`. */
  function SpaceRunEnd(s: string, j: nat): (k: nat)
    requires j <= |s|
    ensures j <= k <= |s|
    ensures forall t :: j <= t < k ==> IsSpace(s[t])
    ensures k < |s| ==> !IsSpace(s[k])
    decreases |s| - j
  {
    if j < |s| && IsSpace(s[j]) then SpaceRunEnd(s, j + 1) else j
  }

  /**
   * The regex `([A-Z][a-z]+)\s*\[` matches at `i` with its group ending at `j`
   * and the `[` at `k`.
   */
  predicate PatternAt(s: string, i: int, j: int, k: int)
  {
    && 0 <= i && i + 1 < j <= k < |s|
    && IsUpper(s[i])
    && (forall t :: i < t < j ==> IsLower(s[t]))
    && (forall t :: j <= t < k ==> IsSpace(s[t]))
    && s[k] == '['
  }

  /**
   * The group the regex captures when it is tried at `i`. The three classes are
   * disjoint, so the greedy runs are the only way to match and no backtracking
   * can change the group.
   */
  function GroupAt(s: string, i: nat): (r: Option<string>)
    requires i <= |s|
  {
    if i < |s| && IsUpper(s[i]) then
      var j := LowerRunEnd(s, i + 1);
      var k := SpaceRunEnd(s, j);
      if j > i + 1 && k < |s| && s[k] == '[' then Some(s[i..j]) else None
    else None
  }

  lemma {:induction false} LowerRunEndExact(s: string, j: nat, e: nat)
    requires j <= e < |s| && !IsLower(s[e])
    requires forall t :: j <= t < e ==> IsLower(s[t])
    ensures LowerRunEnd(s, j) == e
    decreases e - j
  {
    if j < e {
      LowerRunEndExact(s, j + 1, e);
    }
  }

  lemma {:induction false} SpaceRunEndExact(s: string, j: nat, e: nat)
    requires j <= e < |s| && !IsSpace(s[e])
    requires forall t :: j <= t < e ==> IsSpace(s[t])
    ensures SpaceRunEnd(s, j) == e
    decreases e - j
  {
    if j < e {
      SpaceRunEndExact(s, j + 1, e);
    }
  }

  /** `GroupAt` agrees with the regex: it captures exactly when the pattern matches at `i`. */
  lemma GroupAtMatchesPattern(s: string, i: nat)
    requires i <= |s|
    ensures GroupAt(s, i).Some? ==>
              exists j, k :: PatternAt(s, i, j, k) && GroupAt(s, i).value == s[i..j]
    ensures forall j, k :: PatternAt(s, i, j, k) ==> GroupAt(s, i) == Some(s[i..j])
  {
    if GroupAt(s, i).Some? {
      var j := LowerRunEnd(s, i + 1);
      var k := SpaceRunEnd(s, j);
      assert PatternAt(s, i, j, k);
    }
    forall j, k | PatternAt(s, i, j, k) ensures GroupAt(s, i) == Some(s[i..j]) {
      assert !IsLower(s[j]);
      LowerRunEndExact(s, i + 1, j);
      SpaceRunEndExact(s, j, k);
    }
  }

  /** `re.search`: the group of the leftmost position from `i` on where the regex matches. */
  function SearchFrom(s: string, i: nat): (r: Option<string>)
    requires i <= |s|
    ensures r.Some? ==> exists p :: i <= p < |s| && GroupAt(s, p) == r
                                    && forall q :: i <= q < p ==> GroupAt(s, q).None?
    ensures r.None? ==> forall q :: i <= q <= |s| ==> GroupAt(s, q).None?
    decreases |s| - i
  {
    if i == |s| then None
    else if GroupAt(s, i).Some? then GroupAt(s, i)
    else SearchFrom(s, i + 1)
  }

  /** The county name the location text starts with, as the regex finds it. */
  function CountyName(s: string): Option<string>
  {
    SearchFrom(s, 0)
  }

  /** A captured name is one capital followed by lower-case letters only. */
  lemma CountyNameShape(s: string)
    requires CountyName(s).Some?
    ensures var c := CountyName(s).value;
            |c| >= 2 && IsUpper(c[0]) && forall t :: 1 <= t < |c| ==> IsLower(c[t])
  {
    var p :| 0 <= p < |s| && GroupAt(s, p) == CountyName(s);
    GroupAtMatchesPattern(s, p);
  }

  /**
   * `get_coordinates_from_location`: the table entry of the first county name,
   * else the centre of Texas when the text contains `[TX]`, else nothing.
   */
  function LocationCoordinates(s: string): (r: Option<(real, real)>)
    ensures CountyName(s).Some? && CountyName(s).value in CountyCoords ==> r == Some(CountyCoords[CountyName(s).value])
    ensures !(CountyName(s).Some? && CountyName(s).value in CountyCoords) ==>
              r == (if Contains(s, "[TX]") then Some(TexasCentre) else None)
  {
    match CountyName(s)
    case Some(c) =>
      if c in CountyCoords then Some(CountyCoords[c])
      else if Contains(s, "[TX]") then Some(TexasCentre) else None
    case None =>
      if Contains(s, "[TX]") then Some(TexasCentre) else None
  }

  /**
   * The table entries for `DeWitt` and `Val Verde` are never looked up: the
   * pattern cannot capture an inner capital or a blank.
   */
  lemma {:induction false} UnreachableCounties(s: string)
    ensures CountyName(s) != Some("DeWitt")
    ensures CountyName(s) != Some("Val Verde")
  {
    if CountyName(s).Some? {
      var c := CountyName(s).value;
      CountyNameShape(s);
      if |c| > 2 { assert c[2] != 'W'; }
      if |c| > 3 { assert c[3] != ' '; }
      assert c != "DeWitt" && c != "Val Verde";
    }
  }

  /** The regex captures `Fayette` from `"Fayette [TX]"`. */
  lemma FayetteCaptured(s: string)
    requires s == "Fayette [TX]"
    ensures CountyName(s) == Some("Fayette")
  {
    assert PatternAt(s, 0, 7, 8);
    GroupAtMatchesPattern(s, 0);
    assert s[0..7] == "Fayette";
  }

  /** The table entry for `Fayette`. */
  lemma FayetteListed()
    ensures "Fayette" in CountyCoords && CountyCoords["Fayette"] == (29.8947, -96.9344)
  {
  }

  /** `"Fayette [TX]"` finds its table entry. */
  lemma FayetteExample()
    ensures LocationCoordinates("Fayette [TX]") == Some((29.8947, -96.9344))
  {
    FayetteCaptured("Fayette [TX]");
    FayetteListed();
  }

  /** The regex captures `Comal` from the front of a text that also names Harris. */
  lemma ComalCaptured(s: string)
    requires s == "Comal [TX], Harris [TX]"
    ensures CountyName(s) == Some("Comal")
  {
    assert PatternAt(s, 0, 5, 6);
    GroupAtMatchesPattern(s, 0);
    assert s[0..5] == "Comal";
  }

  /** The same text is tagged `[TX]`. */
  lemma ComalTagged(s: string)
    requires s == "Comal [TX], Harris [TX]"
    ensures Contains(s, "[TX]")
  {
    assert s[6..10] == "[TX]";
    assert OccursAt(s, "[TX]", 6);
  }

  /** `Comal` is not in the table. */
  lemma ComalUnlisted()
    ensures "Comal" !in CountyCoords
  {
  }

  /** Only the leftmost name is looked up: a later known county does not rescue an unknown first one. */
  lemma LeftmostNameOnly()
    ensures LocationCoordinates("Comal [TX], Harris [TX]") == Some(TexasCentre)
  {
    var s := "Comal [TX], Harris [TX]";
    ComalCaptured(s);
    ComalTagged(s);
    ComalUnlisted();
  }

  /** Where an alert is: the result of `get_alert_centroid`, or the exception it raises. */
  datatype Centroid = At(lat: real, lon: real) | Unlocated | Raises

  function Sum(xs: seq<real>): real
  {
    if xs == [] then 0.0 else Sum(xs[..|xs| - 1]) + xs[|xs| - 1]
  }

  /** `sum(xs) / len(xs)`. */
  function Mean(xs: seq<real>): real
    requires xs != []
  {
    Sum(xs) / (|xs| as real)
  }

  lemma {:induction false} SumBounds(xs: seq<real>, lo: real, hi: real)
    requires forall i :: 0 <= i < |xs| ==> lo <= xs[i] <= hi
    ensures (|xs| as real) * lo <= Sum(xs) <= (|xs| as real) * hi
  {
    if xs != [] {
      SumBounds(xs[..|xs| - 1], lo, hi);
    }
  }

  /** The vertex mean of a polygon lies within the range of its vertices. */
  lemma MeanBounds(xs: seq<real>, lo: real, hi: real)
    requires xs != []
    requires forall i :: 0 <= i < |xs| ==> lo <= xs[i] <= hi
    ensures lo <= Mean(xs) <= hi
  {
    SumBounds(xs, lo, hi);
  }

  /** The position at index `n` of every vertex of a ring. */
  function Column(ring: seq<seq<real>>, n: nat): (r: seq<real>)
    requires forall v :: v in ring ==> |v| > n
    ensures |r| == |ring| && forall i :: 0 <= i < |ring| ==> r[i] == ring[i][n]
  {
    if ring == [] then [] else Column(ring[..|ring| - 1], n) + [ring[|ring| - 1][n]]
  }

  /**
   * `get_alert_centroid`: a Point gives (coordinates[1], coordinates[0]); a
   * Polygon gives the mean of its first ring's vertices; any other alert is
   * located from its area text. A short Point, an empty polygon or a short
   * vertex raises.
   */
  function AlertCentroid(a: Alert): (c: Centroid)
    ensures a.geometry.Some? && a.geometry.value.Point? && |a.geometry.value.coordinates| >= 2 ==>
              c == At(a.geometry.value.coordinates[1], a.geometry.value.coordinates[0])
    ensures a.geometry.Some? && a.geometry.value.Point? && |a.geometry.value.coordinates| < 2 ==> c == Raises
    ensures a.geometry.Some? && a.geometry.value.Polygon? ==>
              var rings := a.geometry.value.rings;
              (c == Raises <==> rings == [] || rings[0] == [] || exists v :: v in rings[0] && |v| < 2)
    ensures (a.geometry.None? || a.geometry.value.OtherShape?) ==>
              c == if a.areaDesc == "" then Unlocated
                   else match LocationCoordinates(a.areaDesc)
                        case Some((lat, lon)) => At(lat, lon)
                        case None => Unlocated
  {
    match a.geometry
    case Some(Point(coords)) =>
      if |coords| >= 2 then At(coords[1], coords[0]) else Raises
    case Some(Polygon(rings)) =>
      if rings == [] || rings[0] == [] || exists v :: v in rings[0] && |v| < 2 then Raises
      else At(Mean(Column(rings[0], 1)), Mean(Column(rings[0], 0)))
    case _ =>
      if a.areaDesc == "" then Unlocated
      else
        match LocationCoordinates(a.areaDesc)
        case Some((lat, lon)) => At(lat, lon)
        case None => Unlocated
  }
}
