/**
 * The families of one scrape have pairwise distinct names, so a registry never sees
 * two families under one name. The fixed names differ among themselves; a score
 * family's name is its group's prefix followed by a sub-key of one score object,
 * whose keys are distinct; and the groups are told apart by the seventh and
 * eleventh characters of their names.
 */
module FamilyNames {
  import opened Metrics
  import opened NodeApi
  import opened Exporter
  import opened ScrapeProperties

  predicate NamesDistinct(fams: seq<Family>)
  {
    forall p, q :: 0 <= p < q < |fams| ==> fams[p].name != fams[q].name
  }

  /** Two lists of distinct names whose names never meet concatenate to a list of distinct names. */
  lemma ConcatDistinct(a: seq<Family>, b: seq<Family>)
    requires NamesDistinct(a) && NamesDistinct(b)
    requires forall p, q :: 0 <= p < |a| && 0 <= q < |b| ==> a[p].name != b[q].name
    ensures NamesDistinct(a + b)
  {
    var ab := a + b;
    forall p, q | 0 <= p < q < |ab|
      ensures ab[p].name != ab[q].name
    {
      if q < |a| {
        assert ab[p] == a[p] && ab[q] == a[q];
      } else if p < |a| {
        assert ab[p] == a[p] && ab[q] == b[q - |a|];
      } else {
        assert ab[p] == b[p - |a|] && ab[q] == b[q - |a|];
      }
    }
  }

  /** A common prefix cancels. */
  lemma PrefixCancels(prefix: string, a: string, b: string)
    requires prefix + a == prefix + b
    ensures a == b
  {
    assert a == (prefix + a)[|prefix|..];
    assert b == (prefix + b)[|prefix|..];
  }

  // ---------------------------------------------------------------------------
  // Info families and node gauges
  // ---------------------------------------------------------------------------

  /** Two names of different lengths, or with different characters at `i`, differ. */
  lemma DifferentShape(a: string, b: string, i: nat)
    requires i < |a| && i < |b| && (|a|, a[i]) != (|b|, b[i])
    ensures a != b
  {
  }

  /**
   * The length and seventh character of each of the ten node-level names, in yield order,
   * which together tell them apart.
   */
  const NodeLevelLengths: seq<nat> := [
    12, // "storj_nodeID"
    12, // "storj_wallet"
    16, // "storj_lastPinged"
    20, // "storj_lastPingFromID"
    25, // "storj_lastPingFromAddress"
    14, // "storj_upToDate"
    20, // "storj_diskSpace_used"
    25, // "storj_diskSpace_available"
    20, // "storj_bandwidth_used"
    25  // "storj_bandwidth_available"
  ]
  const NodeLevelSevenths: seq<char> := [
    'n', // "storj_nodeID"
    'w', // "storj_wallet"
    'l', // "storj_lastPinged"
    'l', // "storj_lastPingFromID"
    'l', // "storj_lastPingFromAddress"
    'u', // "storj_upToDate"
    'd', // "storj_diskSpace_used"
    'd', // "storj_diskSpace_available"
    'b', // "storj_bandwidth_used"
    'b'  // "storj_bandwidth_available"
  ]

  lemma InfoShapes(data: Dashboard, p: nat)
    requires p < |InfoKeys|
    ensures var name := InfoFamilies(data)[p].name;
            |name| == NodeLevelLengths[p] && name[6] == NodeLevelSevenths[p]
  {
    assert InfoFamilies(data)[p] == InfoFamily(data, InfoKeys[p]);
  }

  lemma GaugeShapes(data: Dashboard, p: nat)
    requires p < 4
    ensures var name := NodeGauges(data)[p].name;
            |name| == NodeLevelLengths[6 + p] && name[6] == NodeLevelSevenths[6 + p]
  {
  }

  /** Names whose lengths and seventh characters are those of the ten node-level names are distinct. */
  lemma NodeLevelShapesDistinct(fams: seq<Family>)
    requires |fams| == |NodeLevelLengths|
    requires forall p :: 0 <= p < |fams| ==>
               |fams[p].name| == NodeLevelLengths[p] && fams[p].name[6] == NodeLevelSevenths[p]
    ensures NamesDistinct(fams)
    ensures forall p :: 0 <= p < |fams| ==> |fams[p].name| > 10 && fams[p].name[6] != 's'
  {
    forall p, q | 0 <= p < q < |fams|
      ensures fams[p].name != fams[q].name
    {
      DifferentShape(fams[p].name, fams[q].name, 6);
    }
  }

  /** The ten node-level families have distinct names, none with `s` as seventh character. */
  lemma NodeLevelNames(data: Dashboard)
    ensures var fams := InfoFamilies(data) + NodeGauges(data);
            && NamesDistinct(fams)
            && forall p :: 0 <= p < |fams| ==> |fams[p].name| > 10 && fams[p].name[6] != 's'
  {
    var info := InfoFamilies(data);
    var fams := info + NodeGauges(data);
    forall p | 0 <= p < |fams|
      ensures |fams[p].name| == NodeLevelLengths[p] && fams[p].name[6] == NodeLevelSevenths[p]
    {
      if p < |info| {
        InfoShapes(data, p);
      } else {
        GaugeShapes(data, p - |info|);
      }
    }
    NodeLevelShapesDistinct(fams);
  }

  // ---------------------------------------------------------------------------
  // Score families
  // ---------------------------------------------------------------------------

  /** Names made of one prefix and distinct suffixes are distinct, and each begins with the prefix. */
  lemma PrefixedDistinct(fams: seq<Family>, prefix: string, keys: seq<string>)
    requires |fams| == |keys|
    requires forall p :: 0 <= p < |fams| ==> fams[p].name == prefix + keys[p]
    requires forall p, q :: 0 <= p < q < |keys| ==> keys[p] != keys[q]
    ensures NamesDistinct(fams)
    ensures forall p, i :: 0 <= p < |fams| && 0 <= i < |prefix| ==> i < |fams[p].name| && fams[p].name[i] == prefix[i]
  {
    forall p, q | 0 <= p < q < |fams|
      ensures fams[p].name != fams[q].name
    {
      if fams[p].name == fams[q].name {
        PrefixCancels(prefix, keys[p], keys[q]);
      }
    }
  }

  /** The sub-keys of a score object are distinct. */
  lemma KeysDistinct(scores: ScoreSet)
    ensures forall p, q :: 0 <= p < q < |Keys(scores)| ==> Keys(scores)[p] != Keys(scores)[q]
  {
  }

  /**
   * The families of a score group have distinct names: family `p` is named after the
   * first satellite's `p`-th sub-key under the group's prefix, so each has `s` as
   * seventh character and the group's initial as eleventh.
   */
  lemma ScoreNames(sats: seq<string>, table: map<string, SatelliteDetail>, g: ScoreGroup)
    requires Covers(sats, table) && ScoreFamilies(sats, table, g).Success?
    ensures |sats| > 0
    ensures var fams := ScoreFamilies(sats, table, g).value;
            var keys := Keys(table[sats[0]].Scores(g));
            && |fams| == |keys|
            && (forall p :: 0 <= p < |fams| ==> fams[p].name == "storj_sat_" + g.Name() + "_" + keys[p])
            && NamesDistinct(fams)
            && forall p :: 0 <= p < |fams| ==>
                 |fams[p].name| > 10 && fams[p].name[6] == 's' && fams[p].name[10] == g.Name()[0]
  {
    ScoreFamiliesAt(sats, table, g);
    var keys := Keys(table[sats[0]].Scores(g));
    var fams := ScoreFamilies(sats, table, g).value;
    var prefix := "storj_sat_" + g.Name() + "_";
    forall p | 0 <= p < |fams|
      ensures fams[p].name == prefix + keys[p]
    {
      FamilyHeader(sats, table, ScoreLayout(g, keys[p]));
    }
    KeysDistinct(table[sats[0]].Scores(g));
    PrefixedDistinct(fams, prefix, keys);
    assert |prefix| > 10 && prefix[6] == 's' && prefix[10] == g.Name()[0];
  }

  // ---------------------------------------------------------------------------
  // Per-satellite families
  // ---------------------------------------------------------------------------

  /**
   * The length and seventeenth character of each per-satellite name, in yield order,
   * which together tell them apart.
   */
  const SatelliteLengths: seq<nat> := [
    24, // "storj_sat_storageSummary"
    26, // "storj_sat_bandwidthSummary"
    22, // "storj_sat_month_egress"
    23, // "storj_sat_month_ingress"
    20, // "storj_sat_day_egress"
    21, // "storj_sat_day_ingress"
    23, // "storj_sat_month_storage"
    21  // "storj_sat_day_storage"
  ]
  const SatelliteSeventeenths: seq<char> := [
    'e', // "storj_sat_storageSummary"
    'd', // "storj_sat_bandwidthSummary"
    'e', // "storj_sat_month_egress"
    'i', // "storj_sat_month_ingress"
    'r', // "storj_sat_day_egress"
    'g', // "storj_sat_day_ingress"
    's', // "storj_sat_month_storage"
    'o'  // "storj_sat_day_storage"
  ]
  /** The eleventh character of each per-satellite name: never that of a score group. */
  const SatelliteElevenths: seq<char> := [
    's', // "storj_sat_storageSummary"
    'b', // "storj_sat_bandwidthSummary"
    'm', // "storj_sat_month_egress"
    'm', // "storj_sat_month_ingress"
    'd', // "storj_sat_day_egress"
    'd', // "storj_sat_day_ingress"
    'm', // "storj_sat_month_storage"
    'd'  // "storj_sat_day_storage"
  ]

  lemma SatelliteShape(m: nat)
    requires m < |SatelliteLayouts|
    ensures var name := SatelliteLayouts[m].name;
            && |name| == SatelliteLengths[m] && name[6] == 's'
            && name[10] == SatelliteElevenths[m] && name[16] == SatelliteSeventeenths[m]
  {
  }

  /** Names with the lengths and characters of the eight per-satellite names are distinct. */
  lemma SatelliteShapesDistinct(fams: seq<Family>)
    requires |fams| == |SatelliteLengths|
    requires forall m :: 0 <= m < |fams| ==>
               && |fams[m].name| == SatelliteLengths[m] && fams[m].name[6] == 's'
               && fams[m].name[10] == SatelliteElevenths[m] && fams[m].name[16] == SatelliteSeventeenths[m]
    ensures NamesDistinct(fams)
    ensures forall m :: 0 <= m < |fams| ==>
              |fams[m].name| > 10 && fams[m].name[6] == 's' && fams[m].name[10] !in "au"
  {
    forall p, q | 0 <= p < q < |fams|
      ensures fams[p].name != fams[q].name
    {
      DifferentShape(fams[p].name, fams[q].name, 16);
    }
  }

  /** The eight per-satellite families have distinct names, none with a score group's eleventh character. */
  lemma SatelliteNames(sats: seq<string>, table: map<string, SatelliteDetail>)
    requires Covers(sats, table) && FamiliesOutcome(sats, table, SatelliteLayouts).Success?
    ensures var fams := FamiliesOutcome(sats, table, SatelliteLayouts).value;
            && NamesDistinct(fams)
            && forall m :: 0 <= m < |fams| ==>
                 |fams[m].name| > 10 && fams[m].name[6] == 's' && fams[m].name[10] !in "au"
  {
    var fams := FamiliesOutcome(sats, table, SatelliteLayouts).value;
    forall m | 0 <= m < |fams|
      ensures fams[m].name == SatelliteLayouts[m].name
    {
      FamiliesAt(sats, table, SatelliteLayouts, m);
      FamilyHeader(sats, table, SatelliteLayouts[m]);
    }
    forall m | 0 <= m < |fams|
      ensures && |fams[m].name| == SatelliteLengths[m] && fams[m].name[6] == 's'
              && fams[m].name[10] == SatelliteElevenths[m] && fams[m].name[16] == SatelliteSeventeenths[m]
    {
      SatelliteShape(m);
    }
    SatelliteShapesDistinct(fams);
  }

  // ---------------------------------------------------------------------------
  // One scrape
  // ---------------------------------------------------------------------------

  /**
   * Four lists of distinct names join into one: the node-level names have no `s` as
   * seventh character, and the others are told apart by their eleventh.
   */
  lemma JoinGroups(node: seq<Family>, audit: seq<Family>, uptime: seq<Family>, perSatellite: seq<Family>)
    requires NamesDistinct(node) && NamesDistinct(audit) && NamesDistinct(uptime) && NamesDistinct(perSatellite)
    requires forall p :: 0 <= p < |node| ==> |node[p].name| > 10 && node[p].name[6] != 's'
    requires forall p :: 0 <= p < |audit| ==> |audit[p].name| > 10 && audit[p].name[6] == 's' && audit[p].name[10] == 'a'
    requires forall p :: 0 <= p < |uptime| ==> |uptime[p].name| > 10 && uptime[p].name[6] == 's' && uptime[p].name[10] == 'u'
    requires forall p :: 0 <= p < |perSatellite| ==>
               |perSatellite[p].name| > 10 && perSatellite[p].name[6] == 's' && perSatellite[p].name[10] !in "au"
    ensures NamesDistinct(node + audit + uptime + perSatellite)
  {
    ConcatDistinct(node, audit);
    var front := node + audit;
    assert forall p :: 0 <= p < |front| ==> |front[p].name| > 10 && (front[p].name[10] != 'u' || front[p].name[6] != 's');
    ConcatDistinct(front, uptime);
    var rest := front + uptime;
    assert forall p :: 0 <= p < |rest| ==> |rest[p].name| > 10 && (rest[p].name[10] in "au" || rest[p].name[6] != 's');
    ConcatDistinct(rest, perSatellite);
  }

  /** No two families of a successful scrape share a name. */
  lemma ScrapeNamesDistinct(data: Dashboard, sats: seq<string>, table: map<string, SatelliteDetail>)
    requires Covers(sats, table) && Scrape(data, sats, table).Success?
    ensures NamesDistinct(Scrape(data, sats, table).value)
  {
    ScrapeParts(data, sats, table);
    var node := InfoFamilies(data) + NodeGauges(data);
    var audit := ScoreFamilies(sats, table, AuditScores).value;
    var uptime := ScoreFamilies(sats, table, UptimeScores).value;
    var perSatellite := FamiliesOutcome(sats, table, SatelliteLayouts).value;
    NodeLevelNames(data);
    ScoreNames(sats, table, AuditScores);
    ScoreNames(sats, table, UptimeScores);
    SatelliteNames(sats, table);
    JoinGroups(node, audit, uptime, perSatellite);
  }
}
