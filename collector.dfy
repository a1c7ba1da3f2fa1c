/**
 * The collector object: `collect` stores the dashboard, the satellite ids and the
 * id-to-detail map in its fields, then builds every metric family by appending samples
 * in nested loops. Each method is proved to compute the matching function of `Exporter`.
 */
module Collector {
  import opened Outcomes
  import opened Metrics
  import opened NodeApi
  import opened Sums
  import opened Exporter

  /** `value = value + day[direction][key]` over every day of `bandwidthDaily`. */
  method MonthTotal(days: seq<BandwidthDay>, c: Counter) returns (value: nat)
    ensures value == Sum(Counts(days, c))
  {
    value := 0;
    for j := 0 to |days|
      invariant value == Sum(Counts(days[..j], c))
    {
      assert Counts(days[..j + 1], c) == Counts(days[..j], c) + [Amount(days[j], c)];
      value := value + Amount(days[j], c);
    }
    assert days[..|days|] == days;
  }

  /** `value = value + day['atRestTotal']` over every day of `storageDaily`. */
  method StorageTotal(days: seq<StorageDay>) returns (value: nat)
    ensures value == Sum(AtRest(days))
  {
    value := 0;
    for j := 0 to |days|
      invariant value == Sum(AtRest(days[..j]))
    {
      assert AtRest(days[..j + 1]) == AtRest(days[..j]) + [days[j].atRestTotal];
      value := value + days[j].atRestTotal;
    }
    assert days[..|days|] == days;
  }

  class StorjCollector {
    /** The dashboard fetched at the start of the current collection. */
    var data: Dashboard
    /** The satellite ids of `data`, in dashboard order. */
    var satellites: seq<string>
    /** The detail fetched for each satellite id. */
    var satData: map<string, SatelliteDetail>

    predicate Valid()
      reads this
    {
      Covers(satellites, satData)
    }

    method GetSatellites() returns (ids: seq<string>)
      ensures ids == SatelliteIds(data.satellites)
    {
      ids := [];
      for i := 0 to |data.satellites|
        invariant ids == SatelliteIds(data.satellites[..i])
      {
        assert data.satellites[..i + 1][..i] == data.satellites[..i];
        ids := ids + [data.satellites[i].id];
      }
      assert data.satellites[..|data.satellites|] == data.satellites;
    }

    /** `responses[i]` stands for the detail fetched for `satellites[i]`. */
    method GetSatData(responses: seq<SatelliteDetail>) returns (table: map<string, SatelliteDetail>)
      requires |responses| == |satellites|
      ensures table == SatTable(satellites, responses)
    {
      table := map[];
      for i := 0 to |satellites|
        invariant table == SatTable(satellites[..i], responses[..i])
      {
        assert satellites[..i + 1][..i] == satellites[..i];
        assert responses[..i + 1][..i] == responses[..i];
        table := table[satellites[i] := responses[i]];
      }
      assert satellites[..|satellites|] == satellites;
      assert responses[..|responses|] == responses;
    }

    method EmitInfo() returns (families: seq<Family>)
      ensures families == InfoFamilies(data)
    {
      families := [];
      for k := 0 to |InfoKeys|
        invariant families == InfoFamilies(data)[..k]
      {
        var key := InfoKeys[k];
        var value := InfoValue(data, key);
        families := families + [Family(Info, "storj_" + key, "Storj " + key, [key], [Sample([value], Count(1))])];
      }
    }

    method EmitNodeGauges() returns (families: seq<Family>)
      ensures families == NodeGauges(data)
    {
      families := [];
      for a := 0 to |SpaceGroups|
        invariant families == NodeGauges(data)[..2 * a]
      {
        var group := SpaceGroups[a];
        for b := 0 to |SpaceFields|
          invariant families == NodeGauges(data)[..2 * a + b]
        {
          var field := SpaceFields[b];
          assert NodeGauges(data)[2 * a + b] == NodeGauge(data, group, field);
          var value := SpaceValue(data, group, field);
          families := families + [Family(Gauge, "storj_" + group + "_" + field, "Storj " + group + " " + field, [],
                                         [Sample([], Count(value))])];
        }
      }
    }

    /** `self.sat_data[sat]...` for one reading; raises where the lookup raises. */
    method ReadValue(sat: string, reading: Reading) returns (r: Outcome<Value>)
      requires sat in satData
      ensures r == ReadOutcome(satData[sat], sat, reading)
    {
      var detail := satData[sat];
      match reading
      case ScoreOf(g, key) =>
        if key in Keys(detail.Scores(g)) {
          r := Success(Real(Lookup(detail.Scores(g), key)));
        } else {
          r := Failure(Unreadable(sat, reading));
        }
      case Summary(f) =>
        r := Success(Count(detail.Summary(f)));
      case Month(c) =>
        var total := MonthTotal(detail.bandwidthDaily, c);
        r := Success(Count(total));
      case Day(c) =>
        var days := detail.bandwidthDaily;
        if days == [] {
          r := Failure(Unreadable(sat, reading));
        } else {
          r := Success(Count(Amount(days[|days| - 1], c)));
        }
      case MonthStorage =>
        var total := StorageTotal(detail.storageDaily);
        r := Success(Count(total));
      case DayStorage =>
        var days := detail.storageDaily;
        if days == [] {
          r := Failure(Unreadable(sat, reading));
        } else {
          r := Success(Count(days[|days| - 1].atRestTotal));
        }
    }

    /** `for sat in self.satellites: metric.add_metric(...)` for one reading. */
    method AddRow(reading: Reading) returns (r: Outcome<seq<Sample>>)
      requires Valid()
      ensures r == RowOutcome(satellites, satData, reading)
    {
      var samples := [];
      assert satellites[0..] == satellites;
      PrependNothing(RowOutcome(satellites, satData, reading));
      for i := 0 to |satellites|
        invariant RowOutcome(satellites, satData, reading) ==
                  Prepend(samples, RowOutcome(satellites[i..], satData, reading))
      {
        var sat := satellites[i];
        var value := ReadValue(sat, reading);
        RowOutcomeStep(satellites, satData, reading, i);
        if value.Failure? {
          return Failure(value.error);
        }
        var sample := Sample(Labels(sat, reading), value.value);
        PrependAssociates(samples, [sample], RowOutcome(satellites[i + 1..], satData, reading));
        samples := samples + [sample];
      }
      assert satellites[|satellites|..] == [];
      assert samples + [] == samples;
      r := Success(samples);
    }

    /** One gauge family: for each reading of the layout, one sample per satellite. */
    method EmitFamily(layout: Layout) returns (r: Outcome<Family>)
      requires Valid()
      ensures r == FamilyOutcome(satellites, satData, layout)
    {
      var samples := [];
      assert layout.readings[0..] == layout.readings;
      PrependNothing(RowsOutcome(satellites, satData, layout.readings));
      for k := 0 to |layout.readings|
        invariant RowsOutcome(satellites, satData, layout.readings) ==
                  Prepend(samples, RowsOutcome(satellites, satData, layout.readings[k..]))
      {
        var outcome := AddRow(layout.readings[k]);
        RowsOutcomeStep(satellites, satData, layout.readings, k);
        if outcome.Failure? {
          return Failure(outcome.error);
        }
        var row := outcome.value;
        PrependAssociates(samples, row, RowsOutcome(satellites, satData, layout.readings[k + 1..]));
        samples := samples + row;
      }
      assert layout.readings[|layout.readings|..] == [];
      assert samples + [] == samples;
      r := Success(Family(Gauge, layout.name, layout.help, layout.labelNames, samples));
    }

    /** Each layout's family in turn; stops at the first family that raises. */
    method EmitFamilies(layouts: seq<Layout>) returns (r: Outcome<seq<Family>>)
      requires Valid()
      ensures r == FamiliesOutcome(satellites, satData, layouts)
    {
      var families := [];
      assert layouts[0..] == layouts;
      PrependNothing(FamiliesOutcome(satellites, satData, layouts));
      for j := 0 to |layouts|
        invariant FamiliesOutcome(satellites, satData, layouts) ==
                  Prepend(families, FamiliesOutcome(satellites, satData, layouts[j..]))
      {
        var outcome := EmitFamily(layouts[j]);
        FamiliesOutcomeStep(satellites, satData, layouts, j);
        if outcome.Failure? {
          return Failure(outcome.error);
        }
        var family := outcome.value;
        PrependAssociates(families, [family], FamiliesOutcome(satellites, satData, layouts[j + 1..]));
        families := families + [family];
      }
      assert layouts[|layouts|..] == [];
      assert families + [] == families;
      r := Success(families);
    }

    /** One family per sub-key of the first satellite's audit (or uptime) object. */
    method EmitScores(g: ScoreGroup) returns (r: Outcome<seq<Family>>)
      requires Valid()
      ensures r == ScoreFamilies(satellites, satData, g)
    {
      if satellites == [] {
        return Failure(NoSatellites);
      }
      // The first value of the map is the detail of the first id inserted into it.
      var keys := Keys(satData[satellites[0]].Scores(g));
      r := EmitFamilies(ScoreLayouts(g, keys));
    }

    /**
     * One collection: store the fetched dashboard, its satellite ids and their details,
     * then build every family in order. `responses[i]` is the detail fetched for the
     * i-th satellite id.
     */
    method Collect(dashboard: Dashboard, responses: seq<SatelliteDetail>) returns (r: Outcome<seq<Family>>)
      requires |responses| == |dashboard.satellites|
      modifies this
      ensures data == dashboard
      ensures satellites == SatelliteIds(dashboard.satellites)
      ensures satData == SatTable(satellites, responses)
      ensures Valid()
      ensures r == Scrape(data, satellites, satData)
    {
      data := dashboard;
      satellites := GetSatellites();
      satData := GetSatData(responses);
      var info := EmitInfo();
      var gauges := EmitNodeGauges();
      var audit :- EmitScores(AuditScores);
      var uptime :- EmitScores(UptimeScores);
      // The eight blocks that follow differ only in their layout.
      var perSatellite :- EmitFamilies(SatelliteLayouts);
      r := Success(info + gauges + audit + uptime + perSatellite);
    }
  }
}
