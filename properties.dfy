/** What one scrape promises: which inputs it accepts, and the layout and values of its families. */
module ScrapeProperties {
  import opened Outcomes
  import opened Metrics
  import opened NodeApi
  import opened Sums
  import opened Exporter

  // ---------------------------------------------------------------------------
  // The id-to-detail map
  // ---------------------------------------------------------------------------

  /** An id keeps the detail of its last fetch: later fetches of other ids do not disturb it. */
  lemma {:induction false} LastFetchWins(sats: seq<string>, responses: seq<SatelliteDetail>, i: nat)
    requires |responses| == |sats| && i < |sats|
    requires forall j :: i < j < |sats| ==> sats[j] != sats[i]
    ensures SatTable(sats, responses)[sats[i]] == responses[i]
  {
    var n := |sats|;
    if i < n - 1 {
      LastFetchWins(sats[..n - 1], responses[..n - 1], i);
    }
  }

  /** With distinct ids, each id maps to exactly the detail fetched for it. */
  lemma DistinctIdsKeepEveryResponse(sats: seq<string>, responses: seq<SatelliteDetail>)
    requires |responses| == |sats|
    requires forall i, j :: 0 <= i < j < |sats| ==> sats[i] != sats[j]
    ensures forall i :: 0 <= i < |sats| ==> SatTable(sats, responses)[sats[i]] == responses[i]
  {
    forall i | 0 <= i < |sats|
      ensures SatTable(sats, responses)[sats[i]] == responses[i]
    {
      LastFetchWins(sats, responses, i);
    }
  }

  // ---------------------------------------------------------------------------
  // Rows and families
  // ---------------------------------------------------------------------------

  /** Where the sample of reading `k` for satellite `i` sits among `n` satellites per reading. */
  function Slot(k: nat, n: nat, i: nat): nat
  {
    k * n + i
  }

  /** The rows of a family one after another. */
  function Flatten<T>(rows: seq<seq<T>>): seq<T>
  {
    if rows == [] then [] else rows[0] + Flatten(rows[1..])
  }

  lemma BlockStep<T>(all: seq<T>, row: seq<T>, rest: seq<T>, k: nat, n: nat, i: nat, x: T)
    requires all == row + rest && |row| == n && k > 0
    requires Slot(k - 1, n, i) < |rest| && rest[Slot(k - 1, n, i)] == x
    ensures Slot(k, n, i) < |all| && all[Slot(k, n, i)] == x
  {
    assert k * n == (k - 1) * n + n;
  }

  /** In rows of equal length `n`, element `i` of row `k` sits at `k * n + i` of the flattened rows. */
  lemma {:induction false} FlattenAt<T>(rows: seq<seq<T>>, n: nat, k: nat, i: nat)
    requires forall r :: r in rows ==> |r| == n
    requires k < |rows| && i < n
    ensures Slot(k, n, i) < |Flatten(rows)| && Flatten(rows)[Slot(k, n, i)] == rows[k][i]
  {
    if k > 0 {
      assert rows[1..][k - 1] == rows[k];
      FlattenAt(rows[1..], n, k - 1, i);
      BlockStep(Flatten(rows), rows[0], Flatten(rows[1..]), k, n, i, rows[k][i]);
    }
  }

  /** The row of each reading, when every row can be built. */
  function Rows(sats: seq<string>, table: map<string, SatelliteDetail>, rs: seq<Reading>): (rows: seq<seq<Sample>>)
    requires Covers(sats, table) && RowsOutcome(sats, table, rs).Success?
    ensures |rows| == |rs|
    ensures Flatten(rows) == RowsOutcome(sats, table, rs).value
    ensures forall k :: 0 <= k < |rs| ==>
              RowOutcome(sats, table, rs[k]).Success? && rows[k] == RowOutcome(sats, table, rs[k]).value
  {
    if rs == [] then []
    else
      var rows := [RowOutcome(sats, table, rs[0]).value] + Rows(sats, table, rs[1..]);
      assert rows[1..] == Rows(sats, table, rs[1..]);
      rows
  }

  /** Samples are laid out reading-major: all satellites for the first reading, then the next. */
  lemma RowsAt(sats: seq<string>, table: map<string, SatelliteDetail>, rs: seq<Reading>, k: nat, i: nat)
    requires Covers(sats, table) && RowsOutcome(sats, table, rs).Success?
    requires k < |rs| && i < |sats|
    ensures Slot(k, |sats|, i) < |RowsOutcome(sats, table, rs).value|
    ensures RowsOutcome(sats, table, rs).value[Slot(k, |sats|, i)] ==
            Sample(Labels(sats[i], rs[k]), Read(table[sats[i]], rs[k]))
  {
    var rows := Rows(sats, table, rs);
    forall r | r in rows
      ensures |r| == |sats|
    {
      var j :| 0 <= j < |rows| && rows[j] == r;
    }
    FlattenAt(rows, |sats|, k, i);
  }

  /** A built family carries its layout's name, help and label names, and one sample per reading and satellite. */
  lemma FamilyHeader(sats: seq<string>, table: map<string, SatelliteDetail>, layout: Layout)
    requires Covers(sats, table) && FamilyOutcome(sats, table, layout).Success?
    ensures var f := FamilyOutcome(sats, table, layout).value;
            && f.kind == Gauge && f.name == layout.name && f.help == layout.help
            && f.labelNames == layout.labelNames
            && |f.samples| == |layout.readings| * |sats|
  {
  }

  /** For reading `k` and satellite `i`, the sample at `k * |sats| + i` holds that satellite's labels and reading. */
  lemma FamilySamples(sats: seq<string>, table: map<string, SatelliteDetail>, layout: Layout)
    requires Covers(sats, table) && FamilyOutcome(sats, table, layout).Success?
    ensures var samples := FamilyOutcome(sats, table, layout).value.samples;
            forall k, i :: 0 <= k < |layout.readings| && 0 <= i < |sats| ==>
              && Slot(k, |sats|, i) < |samples|
              && samples[Slot(k, |sats|, i)] ==
                 Sample(Labels(sats[i], layout.readings[k]), Read(table[sats[i]], layout.readings[k]))
  {
    var samples := FamilyOutcome(sats, table, layout).value.samples;
    assert samples == RowsOutcome(sats, table, layout.readings).value;
    forall k, i | 0 <= k < |layout.readings| && 0 <= i < |sats|
      ensures Slot(k, |sats|, i) < |samples|
      ensures samples[Slot(k, |sats|, i)] ==
              Sample(Labels(sats[i], layout.readings[k]), Read(table[sats[i]], layout.readings[k]))
    {
      RowsAt(sats, table, layout.readings, k, i);
    }
  }

  /** A family can be built exactly when every satellite is readable for every reading. */
  lemma FamilySucceeds(sats: seq<string>, table: map<string, SatelliteDetail>, layout: Layout)
    requires Covers(sats, table)
    ensures FamilyOutcome(sats, table, layout).Success? <==>
            forall k, i :: 0 <= k < |layout.readings| && 0 <= i < |sats| ==> Readable(table[sats[i]], layout.readings[k])
    ensures FamilyOutcome(sats, table, layout).Success? ==>
            FamilyOutcome(sats, table, layout).value ==
            Family(Gauge, layout.name, layout.help, layout.labelNames, RowsOutcome(sats, table, layout.readings).value)
  {
  }

  /** Score families exist exactly when there is a satellite and all have the first one's keys. */
  lemma ScoreFamiliesSucceed(sats: seq<string>, table: map<string, SatelliteDetail>, g: ScoreGroup)
    requires Covers(sats, table)
    ensures ScoreFamilies(sats, table, g).Success? <==>
            |sats| > 0 &&
            forall i, j :: 0 <= i < |sats| && 0 <= j < |Keys(table[sats[0]].Scores(g))| ==>
              Keys(table[sats[0]].Scores(g))[j] in Keys(table[sats[i]].Scores(g))
  {
    if |sats| > 0 {
      var keys := Keys(table[sats[0]].Scores(g));
      var layouts := ScoreLayouts(g, keys);
      forall j | 0 <= j < |keys|
        ensures FamilyOutcome(sats, table, layouts[j]).Success? <==>
                forall i :: 0 <= i < |sats| ==> keys[j] in Keys(table[sats[i]].Scores(g))
      {
        FamilySucceeds(sats, table, layouts[j]);
        assert layouts[j].readings == [ScoreOf(g, keys[j])];
      }
    }
  }

  // ---------------------------------------------------------------------------
  // When a scrape succeeds, and why it fails
  // ---------------------------------------------------------------------------

  /** Only score readings can miss a key; the others need only non-empty daily lists. */
  lemma ReadableWithDays(d: SatelliteDetail, r: Reading)
    requires !r.ScoreOf? && d.bandwidthDaily != [] && d.storageDaily != []
    ensures Readable(d, r)
  {
  }

  lemma NoScoreReadings(l: nat, k: nat)
    requires l < |SatelliteLayouts| && k < |SatelliteLayouts[l].readings|
    ensures !SatelliteLayouts[l].readings[k].ScoreOf?
  {
  }

  /** Both score groups yield their families exactly when every satellite has the first one's sub-keys. */
  lemma BothScoreGroupsSucceed(sats: seq<string>, table: map<string, SatelliteDetail>)
    requires Covers(sats, table)
    ensures ScoreFamilies(sats, table, AuditScores).Success? && ScoreFamilies(sats, table, UptimeScores).Success? <==>
            |sats| > 0 &&
            forall g: ScoreGroup, i, j :: 0 <= i < |sats| && 0 <= j < |Keys(table[sats[0]].Scores(g))| ==>
              Keys(table[sats[0]].Scores(g))[j] in Keys(table[sats[i]].Scores(g))
  {
    ScoreFamiliesSucceed(sats, table, AuditScores);
    ScoreFamiliesSucceed(sats, table, UptimeScores);
    if ScoreFamilies(sats, table, AuditScores).Success? && ScoreFamilies(sats, table, UptimeScores).Success? {
      forall g: ScoreGroup
        ensures ScoreFamilies(sats, table, g).Success?
      {
        if g == AuditScores {
        } else {
          assert g == UptimeScores;
        }
      }
    }
  }

  /** The eight per-satellite families exist exactly when no satellite has an empty daily list. */
  lemma SatelliteFamiliesSucceed(sats: seq<string>, table: map<string, SatelliteDetail>)
    requires Covers(sats, table)
    ensures FamiliesOutcome(sats, table, SatelliteLayouts).Success? <==>
            forall i :: 0 <= i < |sats| ==> table[sats[i]].bandwidthDaily != [] && table[sats[i]].storageDaily != []
  {
    var L := SatelliteLayouts;
    if forall i :: 0 <= i < |sats| ==> table[sats[i]].bandwidthDaily != [] && table[sats[i]].storageDaily != [] {
      forall l | 0 <= l < |L|
        ensures FamilyOutcome(sats, table, L[l]).Success?
      {
        FamilySucceeds(sats, table, L[l]);
        forall k, i | 0 <= k < |L[l].readings| && 0 <= i < |sats|
          ensures Readable(table[sats[i]], L[l].readings[k])
        {
          NoScoreReadings(l, k);
          ReadableWithDays(table[sats[i]], L[l].readings[k]);
        }
      }
    }
    if FamiliesOutcome(sats, table, L).Success? {
      forall i | 0 <= i < |sats|
        ensures table[sats[i]].bandwidthDaily != [] && table[sats[i]].storageDaily != []
      {
        FamilySucceeds(sats, table, L[4]);
        FamilySucceeds(sats, table, L[7]);
        assert Readable(table[sats[i]], L[4].readings[0]);
        assert Readable(table[sats[i]], L[7].readings[0]);
      }
    }
  }

  /** A scrape is its four parts: info and node families, audit and uptime families, per-satellite families. */
  lemma ScrapeParts(data: Dashboard, sats: seq<string>, table: map<string, SatelliteDetail>)
    requires Covers(sats, table)
    ensures Scrape(data, sats, table).Success? <==>
            && ScoreFamilies(sats, table, AuditScores).Success?
            && ScoreFamilies(sats, table, UptimeScores).Success?
            && FamiliesOutcome(sats, table, SatelliteLayouts).Success?
    ensures Scrape(data, sats, table).Success? ==>
            Scrape(data, sats, table).value ==
            InfoFamilies(data) + NodeGauges(data) + ScoreFamilies(sats, table, AuditScores).value +
            ScoreFamilies(sats, table, UptimeScores).value + FamiliesOutcome(sats, table, SatelliteLayouts).value
  {
  }

  /**
   * A scrape succeeds exactly for well-formed data: at least one satellite, every
   * satellite carrying every audit and uptime sub-key of the first, and non-empty
   * `bandwidthDaily` and `storageDaily` everywhere.
   */
  lemma ScrapeSucceeds(data: Dashboard, sats: seq<string>, table: map<string, SatelliteDetail>)
    requires Covers(sats, table)
    ensures Scrape(data, sats, table).Success? <==> WellFormed(sats, table)
  {
    ScrapeParts(data, sats, table);
    BothScoreGroupsSucceed(sats, table);
    SatelliteFamiliesSucceed(sats, table);
  }

  /** A family list that fails names a satellite and a reading whose lookup raises. */
  lemma FamiliesFaultIsReal(sats: seq<string>, table: map<string, SatelliteDetail>, layouts: seq<Layout>)
    requires Covers(sats, table) && FamiliesOutcome(sats, table, layouts).Failure?
    ensures var e := FamiliesOutcome(sats, table, layouts).error;
            e.Unreadable? && e.sat in sats && !Readable(table[e.sat], e.reading)
  {
    var e := FamiliesOutcome(sats, table, layouts).error;
    var l :| 0 <= l < |layouts| && FamilyOutcome(sats, table, layouts[l]) == Failure(e);
    assert RowsOutcome(sats, table, layouts[l].readings) == Failure(e);
  }

  /**
   * The fault a scrape reports is real: `NoSatellites` exactly when there is no satellite,
   * and otherwise a satellite whose lookup does raise.
   */
  lemma ScrapeFaultIsReal(data: Dashboard, sats: seq<string>, table: map<string, SatelliteDetail>)
    requires Covers(sats, table) && Scrape(data, sats, table).Failure?
    ensures Scrape(data, sats, table).error == NoSatellites <==> sats == []
    ensures var e := Scrape(data, sats, table).error;
            e.Unreadable? ==> e.sat in sats && !Readable(table[e.sat], e.reading)
    ensures Scrape(data, sats, table).error.NoSatellites? || Scrape(data, sats, table).error.Unreadable?
  {
    if sats != [] {
      var audit := ScoreFamilies(sats, table, AuditScores);
      var uptime := ScoreFamilies(sats, table, UptimeScores);
      if audit.Failure? {
        FamiliesFaultIsReal(sats, table, ScoreLayouts(AuditScores, Keys(table[sats[0]].Scores(AuditScores))));
      } else if uptime.Failure? {
        FamiliesFaultIsReal(sats, table, ScoreLayouts(UptimeScores, Keys(table[sats[0]].Scores(UptimeScores))));
      } else {
        FamiliesFaultIsReal(sats, table, SatelliteLayouts);
      }
    }
  }

  // ---------------------------------------------------------------------------
  // What a successful scrape holds
  // ---------------------------------------------------------------------------

  /** One score family per sub-key of the first satellite's score object. */
  lemma ScoreFamiliesCount(sats: seq<string>, table: map<string, SatelliteDetail>, g: ScoreGroup)
    requires Covers(sats, table) && ScoreFamilies(sats, table, g).Success?
    ensures |sats| > 0
    ensures |ScoreFamilies(sats, table, g).value| == |Keys(table[sats[0]].Scores(g))|
  {
  }

  /** Score family `j` is the family of the first satellite's `j`-th sub-key. */
  lemma ScoreFamiliesAt(sats: seq<string>, table: map<string, SatelliteDetail>, g: ScoreGroup)
    requires Covers(sats, table) && ScoreFamilies(sats, table, g).Success?
    ensures |sats| > 0
    ensures var keys := Keys(table[sats[0]].Scores(g));
            var fams := ScoreFamilies(sats, table, g).value;
            && |fams| == |keys|
            && forall j :: 0 <= j < |keys| ==> Success(fams[j]) == FamilyOutcome(sats, table, ScoreLayout(g, keys[j]))
  {
    var keys := Keys(table[sats[0]].Scores(g));
    var layouts := ScoreLayouts(g, keys);
    var fams := FamiliesOutcome(sats, table, layouts).value;
    forall j | 0 <= j < |keys|
      ensures Success(fams[j]) == FamilyOutcome(sats, table, ScoreLayout(g, keys[j]))
    {
      FamiliesAt(sats, table, layouts, j);
      assert layouts[j] == ScoreLayout(g, keys[j]);
    }
  }

  /** The first two of five concatenated parts. */
  lemma LeadingParts<T>(all: seq<T>, a: seq<T>, b: seq<T>, c: seq<T>, d: seq<T>, e: seq<T>)
    requires all == a + b + c + d + e
    ensures |all| == |a| + |b| + |c| + |d| + |e|
    ensures all[..|a|] == a && all[|a|..|a| + |b|] == b
  {
    assert all[..|a|] == a;
    assert all[|a|..|a| + |b|] == b;
  }

  /**
   * The order of a scrape: six info families and four node gauges, then one family
   * per audit sub-key and per uptime sub-key of the first satellite, then the eight
   * per-satellite families.
   */
  lemma ScrapeLayout(data: Dashboard, sats: seq<string>, table: map<string, SatelliteDetail>)
    requires Covers(sats, table) && Scrape(data, sats, table).Success?
    ensures |sats| > 0
    ensures var fams := Scrape(data, sats, table).value;
            && |fams| == 18 + |Keys(table[sats[0]].Scores(AuditScores))| + |Keys(table[sats[0]].Scores(UptimeScores))|
            && fams[..6] == InfoFamilies(data)
            && fams[6..10] == NodeGauges(data)
  {
    ScrapeParts(data, sats, table);
    ScoreFamiliesCount(sats, table, AuditScores);
    ScoreFamiliesCount(sats, table, UptimeScores);
    LeadingParts(Scrape(data, sats, table).value, InfoFamilies(data), NodeGauges(data),
                 ScoreFamilies(sats, table, AuditScores).value, ScoreFamilies(sats, table, UptimeScores).value,
                 FamiliesOutcome(sats, table, SatelliteLayouts).value);
  }

  /** The last three of five concatenated parts. */
  lemma TrailingParts<T>(all: seq<T>, a: seq<T>, b: seq<T>, c: seq<T>, d: seq<T>, e: seq<T>)
    requires all == a + b + c + d + e
    ensures |all| == |a| + |b| + |c| + |d| + |e|
    ensures all[|a| + |b|..|a| + |b| + |c|] == c
    ensures all[|a| + |b| + |c|..|a| + |b| + |c| + |d|] == d
    ensures all[|all| - |e|..] == e
  {
    assert all[|a| + |b|..|a| + |b| + |c|] == c;
    assert all[|a| + |b| + |c|..|a| + |b| + |c| + |d|] == d;
    assert all[|all| - |e|..] == e;
  }

  /** Right after the node families come the audit score families, then the uptime ones. */
  lemma ScrapeScoreSlices(data: Dashboard, sats: seq<string>, table: map<string, SatelliteDetail>)
    requires Covers(sats, table) && Scrape(data, sats, table).Success?
    ensures ScoreFamilies(sats, table, AuditScores).Success? && ScoreFamilies(sats, table, UptimeScores).Success?
    ensures var fams := Scrape(data, sats, table).value;
            var audit := ScoreFamilies(sats, table, AuditScores).value;
            var uptime := ScoreFamilies(sats, table, UptimeScores).value;
            && 10 + |audit| + |uptime| <= |fams|
            && fams[10..10 + |audit|] == audit
            && fams[10 + |audit|..10 + |audit| + |uptime|] == uptime
  {
    ScrapeParts(data, sats, table);
    TrailingParts(Scrape(data, sats, table).value, InfoFamilies(data), NodeGauges(data),
                  ScoreFamilies(sats, table, AuditScores).value, ScoreFamilies(sats, table, UptimeScores).value,
                  FamiliesOutcome(sats, table, SatelliteLayouts).value);
  }

  /** The eight per-satellite families of `SatelliteLayouts` close every scrape, in order. */
  lemma ScrapeEndsWithSatelliteFamilies(data: Dashboard, sats: seq<string>, table: map<string, SatelliteDetail>)
    requires Covers(sats, table) && Scrape(data, sats, table).Success?
    ensures var fams := Scrape(data, sats, table).value;
            && |fams| >= |SatelliteLayouts|
            && forall m :: 0 <= m < |SatelliteLayouts| ==>
                 Success(fams[|fams| - |SatelliteLayouts| + m]) == FamilyOutcome(sats, table, SatelliteLayouts[m])
  {
    ScrapeParts(data, sats, table);
    var fams := Scrape(data, sats, table).value;
    var rest := FamiliesOutcome(sats, table, SatelliteLayouts).value;
    TrailingParts(fams, InfoFamilies(data), NodeGauges(data),
                  ScoreFamilies(sats, table, AuditScores).value, ScoreFamilies(sats, table, UptimeScores).value, rest);
    forall m | 0 <= m < |SatelliteLayouts|
      ensures Success(fams[|fams| - |SatelliteLayouts| + m]) == FamilyOutcome(sats, table, SatelliteLayouts[m])
    {
      assert fams[|fams| - |rest|..][m] == rest[m];
      FamiliesAt(sats, table, SatelliteLayouts, m);
    }
  }

  /** A score family's sample for satellite `i` is `sat_data[sats[i]][group][key]`, labelled by the satellite. */
  lemma ScoreSamples(sats: seq<string>, table: map<string, SatelliteDetail>, g: ScoreGroup, key: string)
    requires Covers(sats, table) && FamilyOutcome(sats, table, ScoreLayout(g, key)).Success?
    ensures var f := FamilyOutcome(sats, table, ScoreLayout(g, key)).value;
            && f.name == "storj_sat_" + g.Name() + "_" + key
            && f.labelNames == ["satellite"]
            && |f.samples| == |sats|
            && forall i :: 0 <= i < |sats| ==>
                 && key in Keys(table[sats[i]].Scores(g))
                 && f.samples[i] == Sample([sats[i]], Real(Lookup(table[sats[i]].Scores(g), key)))
  {
    var layout := ScoreLayout(g, key);
    FamilyHeader(sats, table, layout);
    FamilySamples(sats, table, layout);
    FamilySucceeds(sats, table, layout);
    var f := FamilyOutcome(sats, table, layout).value;
    forall i | 0 <= i < |sats|
      ensures key in Keys(table[sats[i]].Scores(g))
      ensures f.samples[i] == Sample([sats[i]], Real(Lookup(table[sats[i]].Scores(g), key)))
    {
      assert layout.readings[0] == ScoreOf(g, key);
      assert Slot(0, |sats|, i) == i;
    }
  }

  /** The day amount of a counter is one of the summands of its month total. */
  lemma DayWithinMonth(d: SatelliteDetail, c: Counter)
    requires d.bandwidthDaily != []
    ensures Read(d, Day(c)).n <= Read(d, Month(c)).n
  {
    var xs := Counts(d.bandwidthDaily, c);
    LastAtMostSum(xs);
    assert Last(xs) == Amount(Last(d.bandwidthDaily), c);
  }

  /** The day's stored amount is one of the summands of the month's. */
  lemma StorageDayWithinMonth(d: SatelliteDetail)
    requires d.storageDaily != []
    ensures Read(d, DayStorage).n <= Read(d, MonthStorage).n
  {
    var xs := AtRest(d.storageDaily);
    LastAtMostSum(xs);
    assert Last(xs) == Last(d.storageDaily).atRestTotal;
  }

  /**
   * In two families whose `k`-th readings are the day and month readings of one counter,
   * the samples at the same place carry the same labels, and the day's value is at most
   * the month's.
   */
  lemma PairedDayMonth(sats: seq<string>, table: map<string, SatelliteDetail>, day: Layout, month: Layout,
                       c: Counter, k: nat, i: nat)
    requires Covers(sats, table)
    requires FamilyOutcome(sats, table, day).Success? && FamilyOutcome(sats, table, month).Success?
    requires k < |day.readings| && k < |month.readings| && i < |sats|
    requires day.readings[k] == Day(c) && month.readings[k] == Month(c)
    ensures var ds := FamilyOutcome(sats, table, day).value.samples;
            var ms := FamilyOutcome(sats, table, month).value.samples;
            && Slot(k, |sats|, i) < |ds| && Slot(k, |sats|, i) < |ms|
            && ds[Slot(k, |sats|, i)].labels == ms[Slot(k, |sats|, i)].labels == [sats[i], c.Label()]
            && table[sats[i]].bandwidthDaily != []
            && ds[Slot(k, |sats|, i)].value == Count(Amount(Last(table[sats[i]].bandwidthDaily), c))
            && ms[Slot(k, |sats|, i)].value == Count(Sum(Counts(table[sats[i]].bandwidthDaily, c)))
            && ds[Slot(k, |sats|, i)].value.n <= ms[Slot(k, |sats|, i)].value.n
  {
    FamilySamples(sats, table, day);
    FamilySamples(sats, table, month);
    FamilySucceeds(sats, table, day);
    assert Readable(table[sats[i]], day.readings[k]);
    DayWithinMonth(table[sats[i]], c);
  }

  /** Each satellite's current-day egress of a type is at most its month-to-date egress of that type. */
  lemma EgressDayWithinMonth(sats: seq<string>, table: map<string, SatelliteDetail>, k: nat, i: nat)
    requires Covers(sats, table)
    requires FamilyOutcome(sats, table, DayEgressLayout).Success?
    requires FamilyOutcome(sats, table, MonthEgressLayout).Success?
    requires k < |EgressTypes| && i < |sats|
    ensures var ds := FamilyOutcome(sats, table, DayEgressLayout).value.samples;
            var ms := FamilyOutcome(sats, table, MonthEgressLayout).value.samples;
            && Slot(k, |sats|, i) < |ds| && Slot(k, |sats|, i) < |ms|
            && ds[Slot(k, |sats|, i)].labels == ms[Slot(k, |sats|, i)].labels == [sats[i], EgressTypes[k].Label()]
            && ds[Slot(k, |sats|, i)].value.Count? && ms[Slot(k, |sats|, i)].value.Count?
            && ds[Slot(k, |sats|, i)].value.n <= ms[Slot(k, |sats|, i)].value.n
  {
    PairedDayMonth(sats, table, DayEgressLayout, MonthEgressLayout, EgressOf(EgressTypes[k]), k, i);
  }

  /** Each satellite's current-day ingress of a type is at most its month-to-date ingress of that type. */
  lemma IngressDayWithinMonth(sats: seq<string>, table: map<string, SatelliteDetail>, k: nat, i: nat)
    requires Covers(sats, table)
    requires FamilyOutcome(sats, table, DayIngressLayout).Success?
    requires FamilyOutcome(sats, table, MonthIngressLayout).Success?
    requires k < |IngressTypes| && i < |sats|
    ensures var ds := FamilyOutcome(sats, table, DayIngressLayout).value.samples;
            var ms := FamilyOutcome(sats, table, MonthIngressLayout).value.samples;
            && Slot(k, |sats|, i) < |ds| && Slot(k, |sats|, i) < |ms|
            && ds[Slot(k, |sats|, i)].labels == ms[Slot(k, |sats|, i)].labels == [sats[i], IngressTypes[k].Label()]
            && ds[Slot(k, |sats|, i)].value.Count? && ms[Slot(k, |sats|, i)].value.Count?
            && ds[Slot(k, |sats|, i)].value.n <= ms[Slot(k, |sats|, i)].value.n
  {
    PairedDayMonth(sats, table, DayIngressLayout, MonthIngressLayout, IngressOf(IngressTypes[k]), k, i);
  }

  /** Each satellite's stored amount of the current day is at most its month-to-date total. */
  lemma StorageWithinMonth(sats: seq<string>, table: map<string, SatelliteDetail>, i: nat)
    requires Covers(sats, table)
    requires FamilyOutcome(sats, table, DayStorageLayout).Success?
    requires FamilyOutcome(sats, table, MonthStorageLayout).Success?
    requires i < |sats|
    ensures var ds := FamilyOutcome(sats, table, DayStorageLayout).value.samples;
            var ms := FamilyOutcome(sats, table, MonthStorageLayout).value.samples;
            && i < |ds| && i < |ms|
            && ds[i].labels == ms[i].labels == [sats[i]]
            && table[sats[i]].storageDaily != []
            && ds[i].value == Count(Last(table[sats[i]].storageDaily).atRestTotal)
            && ms[i].value == Count(Sum(AtRest(table[sats[i]].storageDaily)))
            && ds[i].value.n <= ms[i].value.n
  {
    FamilySamples(sats, table, DayStorageLayout);
    FamilySamples(sats, table, MonthStorageLayout);
    FamilySucceeds(sats, table, DayStorageLayout);
    assert Slot(0, |sats|, i) == i;
    assert Readable(table[sats[i]], DayStorageLayout.readings[0]);
    StorageDayWithinMonth(table[sats[i]]);
  }
}
