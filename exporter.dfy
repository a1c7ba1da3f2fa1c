/**
 * What one scrape of the collector produces, as functions of the fetched data.
 *
 * Each function follows the order in which the collector evaluates things, so that
 * the first lookup that raises in the collector is the `Failure` returned here: an
 * empty satellite map (`[0]`), a missing audit or uptime sub-key, an empty daily list
 * (`[-1]`). Any such failure aborts the whole scrape.
 */
module Exporter {
  import opened Outcomes
  import opened Metrics
  import opened NodeApi
  import opened Sums

  // ---------------------------------------------------------------------------
  // Satellite ids and the id-to-detail map
  // ---------------------------------------------------------------------------

  /** The `id` of every dashboard satellite entry, in dashboard order, duplicates kept. */
  function SatelliteIds(entries: seq<SatelliteEntry>): (ids: seq<string>)
    ensures |ids| == |entries|
    ensures forall i :: 0 <= i < |entries| ==> ids[i] == entries[i].id
  {
    if entries == [] then []
    else SatelliteIds(entries[..|entries| - 1]) + [entries[|entries| - 1].id]
  }

  /**
   * The map built by updating `{sat: data}` for each id in turn, where `responses[i]`
   * is the detail fetched for `sats[i]`. A repeated id is overwritten by its later fetch.
   */
  function SatTable(sats: seq<string>, responses: seq<SatelliteDetail>): (table: map<string, SatelliteDetail>)
    requires |responses| == |sats|
    ensures forall id :: id in table <==> id in sats
  {
    if sats == [] then map[]
    else SatTable(sats[..|sats| - 1], responses[..|sats| - 1])[sats[|sats| - 1] := responses[|sats| - 1]]
  }

  /** Every satellite id has a detail in the table. */
  predicate Covers(sats: seq<string>, table: map<string, SatelliteDetail>)
  {
    forall i :: 0 <= i < |sats| ==> sats[i] in table
  }

  // ---------------------------------------------------------------------------
  // Node-level families
  // ---------------------------------------------------------------------------

  const InfoKeys: seq<string> := ["nodeID", "wallet", "lastPinged", "lastPingFromID", "lastPingFromAddress", "upToDate"]

  /** Python's `str` of a boolean. */
  function BoolText(b: bool): string
  {
    if b then "True" else "False"
  }

  /** `str(data[key])` for a key of `InfoKeys`. */
  function InfoValue(data: Dashboard, key: string): string
    requires key in InfoKeys
  {
    if key == "nodeID" then data.nodeID
    else if key == "wallet" then data.wallet
    else if key == "lastPinged" then data.lastPinged
    else if key == "lastPingFromID" then data.lastPingFromID
    else if key == "lastPingFromAddress" then data.lastPingFromAddress
    else BoolText(data.upToDate)
  }

  /** An info family carries one sample whose only label is the key itself. */
  function InfoFamily(data: Dashboard, key: string): Family
    requires key in InfoKeys
  {
    Family(Info, "storj_" + key, "Storj " + key, [key], [Sample([InfoValue(data, key)], Count(1))])
  }

  function InfoFamilies(data: Dashboard): (fs: seq<Family>)
    ensures |fs| == |InfoKeys|
  {
    seq(|InfoKeys|, i requires 0 <= i < |InfoKeys| => InfoFamily(data, InfoKeys[i]))
  }

  const SpaceGroups: seq<string> := ["diskSpace", "bandwidth"]
  const SpaceFields: seq<string> := ["used", "available"]

  /** `data[group][field]`. */
  function SpaceValue(data: Dashboard, group: string, field: string): nat
    requires group in SpaceGroups && field in SpaceFields
  {
    var space := if group == "diskSpace" then data.diskSpace else data.bandwidth;
    if field == "used" then space.used else space.available
  }

  /** An unlabelled gauge with the single value `data[group][field]`. */
  function NodeGauge(data: Dashboard, group: string, field: string): Family
    requires group in SpaceGroups && field in SpaceFields
  {
    Family(Gauge, "storj_" + group + "_" + field, "Storj " + group + " " + field, [],
           [Sample([], Count(SpaceValue(data, group, field)))])
  }

  function NodeGauges(data: Dashboard): seq<Family>
  {
    [NodeGauge(data, "diskSpace", "used"), NodeGauge(data, "diskSpace", "available"),
     NodeGauge(data, "bandwidth", "used"), NodeGauge(data, "bandwidth", "available")]
  }

  // ---------------------------------------------------------------------------
  // Per-satellite readings
  // ---------------------------------------------------------------------------

  /** A daily bandwidth counter: `egress[type]` or `ingress[type]`. */
  datatype Counter = EgressOf(egress: Traffic) | IngressOf(ingress: IngressTraffic)
  {
    function Label(): string
    {
      match this
      case EgressOf(t) => t.Label()
      case IngressOf(t) => t.Label()
    }
  }

  function Amount(day: BandwidthDay, c: Counter): nat
  {
    match c
    case EgressOf(t) => day.egress.Get(t)
    case IngressOf(t) => day.ingress.Get(t)
  }

  /** The counter's value on each day of a series. */
  function Counts(days: seq<BandwidthDay>, c: Counter): (xs: seq<nat>)
    ensures |xs| == |days|
    ensures forall i :: 0 <= i < |days| ==> xs[i] == Amount(days[i], c)
  {
    seq(|days|, i requires 0 <= i < |days| => Amount(days[i], c))
  }

  /** `atRestTotal` on each day of a series. */
  function AtRest(days: seq<StorageDay>): (xs: seq<nat>)
    ensures |xs| == |days|
    ensures forall i :: 0 <= i < |days| ==> xs[i] == days[i].atRestTotal
  {
    seq(|days|, i requires 0 <= i < |days| => days[i].atRestTotal)
  }

  /** What one sample reads from a satellite's detail. */
  datatype Reading =
    | ScoreOf(group: ScoreGroup, key: string)
    | Summary(field: SummaryField)
    | Month(counter: Counter)
    | Day(counter: Counter)
    | MonthStorage
    | DayStorage

  /** False exactly where the collector's lookup raises: a missing key or an empty daily list. */
  predicate Readable(d: SatelliteDetail, r: Reading)
  {
    match r
    case ScoreOf(g, key) => key in Keys(d.Scores(g))
    case Day(_) => d.bandwidthDaily != []
    case DayStorage => d.storageDaily != []
    case _ => true
  }

  /** Month readings are totals over the daily list; day readings take its last element. */
  function Read(d: SatelliteDetail, r: Reading): Value
    requires Readable(d, r)
  {
    match r
    case ScoreOf(g, key) => Real(Lookup(d.Scores(g), key))
    case Summary(f) => Count(d.Summary(f))
    case Month(c) => Count(Sum(Counts(d.bandwidthDaily, c)))
    case Day(c) => Count(Amount(Last(d.bandwidthDaily), c))
    case MonthStorage => Count(Sum(AtRest(d.storageDaily)))
    case DayStorage => Count(Last(d.storageDaily).atRestTotal)
  }

  /** Label values: the satellite id, then the traffic type for bandwidth readings. */
  function Labels(sat: string, r: Reading): seq<string>
  {
    match r
    case Month(c) => [sat, c.Label()]
    case Day(c) => [sat, c.Label()]
    case _ => [sat]
  }

  /**
   * Why a scrape aborts. `NoSatellites` is the IndexError of taking the first value of
   * an empty satellite map; `Unreadable` is the KeyError of a missing score key or the
   * IndexError of `[-1]` on an empty daily list, at that satellite.
   */
  datatype Fault = NoSatellites | Unreadable(sat: string, reading: Reading)

  type Outcome<T> = Result<T, Fault>

  function ReadOutcome(d: SatelliteDetail, sat: string, r: Reading): Outcome<Value>
  {
    if Readable(d, r) then Success(Read(d, r)) else Failure(Unreadable(sat, r))
  }

  /** One sample per satellite, in satellite order; fails at the first unreadable satellite. */
  function RowOutcome(sats: seq<string>, table: map<string, SatelliteDetail>, r: Reading): (o: Outcome<seq<Sample>>)
    requires Covers(sats, table)
    ensures o.Success? <==> forall i :: 0 <= i < |sats| ==> Readable(table[sats[i]], r)
    ensures o.Success? ==> |o.value| == |sats|
    ensures o.Success? ==> forall i :: 0 <= i < |sats| ==>
      o.value[i] == Sample(Labels(sats[i], r), Read(table[sats[i]], r))
    ensures o.Failure? ==>
      exists i :: (0 <= i < |sats| && o.error == Unreadable(sats[i], r) &&
                   !Readable(table[sats[i]], r) && forall j :: 0 <= j < i ==> Readable(table[sats[j]], r))
  {
    if sats == [] then Success([])
    else
      var v :- ReadOutcome(table[sats[0]], sats[0], r);
      var rest :- RowOutcome(sats[1..], table, r);
      Success([Sample(Labels(sats[0], r), v)] + rest)
  }

  /** Building the row from satellite `i` on: read satellite `i`, then build the rest of the row. */
  lemma RowOutcomeStep(sats: seq<string>, table: map<string, SatelliteDetail>, r: Reading, i: nat)
    requires Covers(sats, table) && i < |sats|
    ensures Covers(sats[i..], table) && Covers(sats[i + 1..], table)
    ensures RowOutcome(sats[i..], table, r) ==
            if Readable(table[sats[i]], r)
            then Prepend([Sample(Labels(sats[i], r), Read(table[sats[i]], r))], RowOutcome(sats[i + 1..], table, r))
            else Failure(Unreadable(sats[i], r))
  {
    assert sats[i..][0] == sats[i];
    assert sats[i..][1..] == sats[i + 1..];
  }

  /** For each reading in turn, one row over all satellites. */
  function RowsOutcome(sats: seq<string>, table: map<string, SatelliteDetail>, rs: seq<Reading>): (o: Outcome<seq<Sample>>)
    requires Covers(sats, table)
    ensures o.Success? <==> forall k, i :: 0 <= k < |rs| && 0 <= i < |sats| ==> Readable(table[sats[i]], rs[k])
    ensures o.Success? ==> |o.value| == |rs| * |sats|
    ensures o.Failure? ==>
      exists k, i :: (0 <= k < |rs| && 0 <= i < |sats| &&
                      o.error == Unreadable(sats[i], rs[k]) && !Readable(table[sats[i]], rs[k]))
  {
    if rs == [] then Success([])
    else
      var row :- RowOutcome(sats, table, rs[0]);
      var rest :- RowsOutcome(sats, table, rs[1..]);
      Success(row + rest)
  }

  /** Building the samples from reading `k` on: build row `k`, then the rest. */
  lemma RowsOutcomeStep(sats: seq<string>, table: map<string, SatelliteDetail>, rs: seq<Reading>, k: nat)
    requires Covers(sats, table) && k < |rs|
    ensures RowsOutcome(sats, table, rs[k..]) ==
            if RowOutcome(sats, table, rs[k]).Failure?
            then Failure(RowOutcome(sats, table, rs[k]).error)
            else Prepend(RowOutcome(sats, table, rs[k]).value, RowsOutcome(sats, table, rs[k + 1..]))
  {
    assert rs[k..][0] == rs[k];
    assert rs[k..][1..] == rs[k + 1..];
  }

  // ---------------------------------------------------------------------------
  // Per-satellite families
  // ---------------------------------------------------------------------------

  /** How a per-satellite gauge family is laid out: its readings in `add_metric` order. */
  datatype Layout = Layout(name: string, help: string, labelNames: seq<string>, readings: seq<Reading>)

  function FamilyOutcome(sats: seq<string>, table: map<string, SatelliteDetail>, layout: Layout): Outcome<Family>
    requires Covers(sats, table)
  {
    var samples :- RowsOutcome(sats, table, layout.readings);
    Success(Family(Gauge, layout.name, layout.help, layout.labelNames, samples))
  }

  function FamiliesOutcome(sats: seq<string>, table: map<string, SatelliteDetail>, layouts: seq<Layout>): (o: Outcome<seq<Family>>)
    requires Covers(sats, table)
    ensures o.Success? <==> forall l :: 0 <= l < |layouts| ==> FamilyOutcome(sats, table, layouts[l]).Success?
    ensures o.Success? ==> |o.value| == |layouts|
    ensures o.Failure? ==>
      exists l :: 0 <= l < |layouts| && FamilyOutcome(sats, table, layouts[l]) == Failure(o.error)
  {
    if layouts == [] then Success([])
    else
      var family :- FamilyOutcome(sats, table, layouts[0]);
      var rest :- FamiliesOutcome(sats, table, layouts[1..]);
      Success([family] + rest)
  }

  /** Family `l` of a built list is the family of layout `l`. */
  lemma {:induction false} FamiliesAt(sats: seq<string>, table: map<string, SatelliteDetail>, layouts: seq<Layout>, l: nat)
    requires Covers(sats, table) && FamiliesOutcome(sats, table, layouts).Success? && l < |layouts|
    ensures FamilyOutcome(sats, table, layouts[l]).Success?
    ensures FamiliesOutcome(sats, table, layouts).value[l] == FamilyOutcome(sats, table, layouts[l]).value
  {
    if l > 0 {
      assert layouts[1..][l - 1] == layouts[l];
      FamiliesAt(sats, table, layouts[1..], l - 1);
    }
  }

  /** Building the families from layout `j` on: build family `j`, then the rest. */
  lemma FamiliesOutcomeStep(sats: seq<string>, table: map<string, SatelliteDetail>, layouts: seq<Layout>, j: nat)
    requires Covers(sats, table) && j < |layouts|
    ensures FamiliesOutcome(sats, table, layouts[j..]) ==
            if FamilyOutcome(sats, table, layouts[j]).Failure?
            then Failure(FamilyOutcome(sats, table, layouts[j]).error)
            else Prepend([FamilyOutcome(sats, table, layouts[j]).value], FamiliesOutcome(sats, table, layouts[j + 1..]))
  {
    assert layouts[j..][0] == layouts[j];
    assert layouts[j..][1..] == layouts[j + 1..];
  }

  function ScoreLayout(g: ScoreGroup, key: string): Layout
  {
    Layout("storj_sat_" + g.Name() + "_" + key, "Storj satellite " + key, ["satellite"], [ScoreOf(g, key)])
  }

  function ScoreLayouts(g: ScoreGroup, keys: seq<string>): (ls: seq<Layout>)
    ensures |ls| == |keys|
    ensures forall j :: 0 <= j < |keys| ==> ls[j] == ScoreLayout(g, keys[j])
  {
    seq(|keys|, j requires 0 <= j < |keys| => ScoreLayout(g, keys[j]))
  }

  /**
   * One family per sub-key of the score object of the satellite inserted first into the
   * map, which is `sats[0]`; raises when there is no satellite.
   */
  function ScoreFamilies(sats: seq<string>, table: map<string, SatelliteDetail>, g: ScoreGroup): Outcome<seq<Family>>
    requires Covers(sats, table)
  {
    if sats == [] then Failure(NoSatellites)
    else FamiliesOutcome(sats, table, ScoreLayouts(g, Keys(table[sats[0]].Scores(g))))
  }

  function SummaryLayout(f: SummaryField): Layout
  {
    Layout("storj_sat_" + f.Name(), "Storj satellite " + f.Name(), ["satellite"], [Summary(f)])
  }

  const EgressTypes: seq<Traffic> := [Repair, Audit, Usage]
  const IngressTypes: seq<IngressTraffic> := [Repair, Usage]

  const MonthEgressLayout := Layout("storj_sat_month_egress", "Storj satellite egress since current month start",
    ["satellite", "type"], [Month(EgressOf(Repair)), Month(EgressOf(Audit)), Month(EgressOf(Usage))])
  const MonthIngressLayout := Layout("storj_sat_month_ingress", "Storj satellite ingress since current month start",
    ["satellite", "type"], [Month(IngressOf(Repair)), Month(IngressOf(Usage))])
  const DayEgressLayout := Layout("storj_sat_day_egress", "Storj satellite egress since current day start",
    ["satellite", "type"], [Day(EgressOf(Repair)), Day(EgressOf(Audit)), Day(EgressOf(Usage))])
  const DayIngressLayout := Layout("storj_sat_day_ingress", "Storj satellite ingress since current day start",
    ["satellite", "type"], [Day(IngressOf(Repair)), Day(IngressOf(Usage))])
  const MonthStorageLayout := Layout("storj_sat_month_storage", "Storj satellite data stored on disk since current month start",
    ["satellite"], [MonthStorage])
  const DayStorageLayout := Layout("storj_sat_day_storage", "Storj satellite data stored on disk since current day start",
    ["satellite"], [DayStorage])

  /** The eight per-satellite families that follow the score families, in order. */
  const SatelliteLayouts: seq<Layout> := [
    SummaryLayout(StorageSummary), SummaryLayout(BandwidthSummary),
    MonthEgressLayout, MonthIngressLayout, DayEgressLayout, DayIngressLayout,
    MonthStorageLayout, DayStorageLayout]

  // ---------------------------------------------------------------------------
  // One scrape
  // ---------------------------------------------------------------------------

  /** Every family of one collection, in the order the collector yields them. */
  function Scrape(data: Dashboard, sats: seq<string>, table: map<string, SatelliteDetail>): Outcome<seq<Family>>
    requires Covers(sats, table)
  {
    var audit :- ScoreFamilies(sats, table, AuditScores);
    var uptime :- ScoreFamilies(sats, table, UptimeScores);
    var perSatellite :- FamiliesOutcome(sats, table, SatelliteLayouts);
    Success(InfoFamilies(data) + NodeGauges(data) + audit + uptime + perSatellite)
  }

  /**
   * When a scrape succeeds: there is a satellite, every satellite has every audit and
   * uptime sub-key of the first one, and no satellite has an empty daily list.
   */
  predicate WellFormed(sats: seq<string>, table: map<string, SatelliteDetail>)
    requires Covers(sats, table)
  {
    && |sats| > 0
    && (forall g: ScoreGroup, i, j :: 0 <= i < |sats| && 0 <= j < |Keys(table[sats[0]].Scores(g))| ==>
          Keys(table[sats[0]].Scores(g))[j] in Keys(table[sats[i]].Scores(g)))
    && (forall i :: 0 <= i < |sats| ==> table[sats[i]].bandwidthDaily != [] && table[sats[i]].storageDaily != [])
  }
}
