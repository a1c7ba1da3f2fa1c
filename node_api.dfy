/** The storage node's status payloads, as the collector reads them after JSON decoding. */
module NodeApi {
  import opened Metrics

  /** One entry of the dashboard's `satellites` list. */
  datatype SatelliteEntry = SatelliteEntry(id: string)

  /** The `diskSpace` and `bandwidth` objects of the dashboard. */
  datatype Space = Space(used: nat, available: nat)

  /** The `data` object of `/api/dashboard`. */
  datatype Dashboard = Dashboard(
    nodeID: string,
    wallet: string,
    lastPinged: string,
    lastPingFromID: string,
    lastPingFromAddress: string,
    upToDate: bool,
    diskSpace: Space,
    bandwidth: Space,
    satellites: seq<SatelliteEntry>)

  predicate DistinctKeys(entries: seq<(string, Float64)>)
  {
    forall i, j :: 0 <= i < j < |entries| ==> entries[i].0 != entries[j].0
  }

  /** A decoded JSON object of scores: its members in document order, each key once. */
  type ScoreSet = entries: seq<(string, Float64)> | DistinctKeys(entries) witness []

  /** The keys of a score object, in iteration order. */
  function Keys(scores: ScoreSet): (keys: seq<string>)
    ensures |keys| == |scores|
    ensures forall i :: 0 <= i < |scores| ==> keys[i] == scores[i].0
  {
    seq(|scores|, i requires 0 <= i < |scores| => scores[i].0)
  }

  /** `scores[key]`. */
  function Lookup(scores: ScoreSet, key: string): (v: Float64)
    requires key in Keys(scores)
    ensures exists i :: 0 <= i < |scores| && scores[i] == (key, v)
  {
    if scores[0].0 == key then scores[0].1
    else
      assert DistinctKeys(scores[1..]);
      Lookup(scores[1..], key)
  }

  /** Looking up a key of the object gives the value stored with that key. */
  lemma {:induction false} LookupEntry(scores: ScoreSet, i: nat)
    requires i < |scores|
    ensures scores[i].0 in Keys(scores)
    ensures Lookup(scores, scores[i].0) == scores[i].1
  {
    assert Keys(scores)[i] == scores[i].0;
    if i > 0 {
      assert DistinctKeys(scores[1..]);
      assert scores[1..][i - 1] == scores[i];
      LookupEntry(scores[1..], i - 1);
    }
  }

  /** The two score objects of a satellite detail. */
  datatype ScoreGroup = AuditScores | UptimeScores
  {
    function Name(): string
    {
      match this
      case AuditScores => "audit"
      case UptimeScores => "uptime"
    }
  }

  /** The traffic types of the daily bandwidth records. */
  datatype Traffic = Repair | Audit | Usage
  {
    function Label(): string
    {
      match this
      case Repair => "repair"
      case Audit => "audit"
      case Usage => "usage"
    }
  }

  /** Ingress is reported only for repair and usage traffic. */
  type IngressTraffic = t: Traffic | t != Audit witness Repair

  datatype Egress = Egress(repair: nat, audit: nat, usage: nat)
  {
    function Get(t: Traffic): nat
    {
      match t
      case Repair => repair
      case Audit => audit
      case Usage => usage
    }
  }

  datatype Ingress = Ingress(repair: nat, usage: nat)
  {
    function Get(t: IngressTraffic): nat
    {
      if t == Repair then repair else usage
    }
  }

  /** One element of `bandwidthDaily`. */
  datatype BandwidthDay = BandwidthDay(egress: Egress, ingress: Ingress)

  /** One element of `storageDaily`. */
  datatype StorageDay = StorageDay(atRestTotal: nat)

  datatype SummaryField = StorageSummary | BandwidthSummary
  {
    function Name(): string
    {
      match this
      case StorageSummary => "storageSummary"
      case BandwidthSummary => "bandwidthSummary"
    }
  }

  /** The `data` object of `/api/satellite/<id>`; the daily lists are chronological. */
  datatype SatelliteDetail = SatelliteDetail(
    audit: ScoreSet,
    uptime: ScoreSet,
    storageSummary: nat,
    bandwidthSummary: nat,
    bandwidthDaily: seq<BandwidthDay>,
    storageDaily: seq<StorageDay>)
  {
    function Scores(g: ScoreGroup): ScoreSet
    {
      match g
      case AuditScores => audit
      case UptimeScores => uptime
    }

    function Summary(f: SummaryField): nat
    {
      match f
      case StorageSummary => storageSummary
      case BandwidthSummary => bandwidthSummary
    }
  }
}
