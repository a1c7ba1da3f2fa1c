# Storj exporter collector, modelled in Dafny

The Storj exporter is a Prometheus exporter for a Storj storage node. Each scrape calls the
collector's `collect`. It does four things:

- It reads the node's dashboard.
- It lists the satellite ids found in the dashboard.
- It fetches the detail of each satellite into an id-to-detail map.
- It yields metric families, in a fixed order:
  - six info families (node id, wallet, last ping, version status);
  - four node gauges (disk space and bandwidth, used and available);
  - one gauge per sub-key of the audit and uptime score objects of the first satellite;
  - eight per-satellite gauges: the storage and bandwidth summaries, month-to-date and current-day egress
    and ingress per traffic type, and month-to-date and current-day stored data.

The model has eight modules:

- `Metrics` is the data model of metric families.
- `NodeApi` holds the decoded node payloads.
- `Sums` covers month-to-date totals and the "current day" element.
- `Outcomes` is a result type, so that a raised lookup aborts a computation.
- `Exporter` holds the specification functions: what one scrape yields, as a function of the fetched data.
  It returns a `Failure` naming the first lookup that raises.
- `Collector` is the `StorjCollector` class. Its fields are the dashboard, the satellite ids and the
  id-to-detail map. Its methods build the same families with the source's loops. Each method is proved to
  compute the matching `Exporter` function.
- `ScrapeProperties` and `FamilyNames` prove what a scrape promises:
  - when it succeeds, and that a failure names a real fault;
  - the order and contents of its families;
  - day-versus-month bounds;
  - distinct family names.

HTTP calls are parameters. `Collect` receives the decoded dashboard, and `responses[i]` is the detail
returned by the i-th satellite fetch.

## Model

| member | source | states |
|---|---|---|
| Exporter.Scrape | storj-exporter.py:37-108 | the families of one collection, in yield order: info families, node gauges, audit and uptime families, then the eight per-satellite families; the first lookup that raises aborts it |
| Exporter.InfoFamilies | storj-exporter.py:37-40 | one info family per key of `InfoKeys`, in key order |
| Exporter.InfoFamily | storj-exporter.py:39 | info family `storj_<key>` with help `Storj <key>`, label name `key` and one sample whose label value is the field's text |
| Exporter.InfoValue | storj-exporter.py:38 | `str(data[key])` for each of the six fixed keys |
| Exporter.BoolText | storj-exporter.py:38 | `str` of a boolean: `True` or `False` |
| Exporter.NodeGauges | storj-exporter.py:42-46 | the four node gauges, disk space before bandwidth, used before available |
| Exporter.NodeGauge | storj-exporter.py:44-45 | unlabelled gauge `storj_<group>_<field>` with help `Storj <group> <field>` and the single value `data[group][field]` |
| Exporter.SpaceValue | storj-exporter.py:44 | `data[group][field]` for the disk space and bandwidth objects |
| Exporter.ScoreFamilies | storj-exporter.py:48-54 | fails with `NoSatellites` when there is no satellite (the `[0]`); otherwise one family per sub-key of the first satellite's score object, in key order |
| Exporter.ScoreLayouts | storj-exporter.py:49-50 | one score layout per sub-key, in key order |
| Exporter.ScoreLayout | storj-exporter.py:50-53 | gauge `storj_sat_<group>_<key>`, help `Storj satellite <key>`, label name `satellite`, one score reading per satellite |
| Exporter.SummaryLayout | storj-exporter.py:56-61 | gauge `storj_sat_<field>`, help `Storj satellite <field>`, label name `satellite`, the summary field per satellite |
| Exporter.Readable | storj-exporter.py:52-106 | a lookup raises exactly for a missing score sub-key, or for `[-1]` on an empty `bandwidthDaily` or `storageDaily` |
| Exporter.Read | storj-exporter.py:52-106 | the value of one reading: a score, a summary, a month total over the daily list, or the last day's amount |
| Exporter.ReadOutcome | storj-exporter.py:52-106 | the value of a readable reading, or `Unreadable` naming the satellite and the reading |
| Exporter.Labels | storj-exporter.py:53-107 | label values: the satellite id, then the traffic type for the bandwidth families |
| Exporter.Amount | storj-exporter.py:68-91 | `day['egress'][type]` or `day['ingress'][type]` |
| Exporter.Counts | storj-exporter.py:67-68 | the counter's amount on each day of a series, in order |
| Exporter.AtRest | storj-exporter.py:99-100 | `atRestTotal` on each day of a series, in order |
| Exporter.FamilyOutcome | storj-exporter.py:57-108 | a gauge with the layout's name, help and label names, whose samples are the layout's rows |
| Exporter.WellFormed | storj-exporter.py:49-106 | the data on which no lookup raises: a satellite exists, every satellite has the first one's audit and uptime sub-keys, and no daily list is empty |
| Sums.Sum | storj-exporter.py:66-68 | the running total `value = value + x`, starting from 0 |
| Sums.Last | storj-exporter.py:84 | the element at index `-1` of a non-empty series |
| Exporter.SatelliteIds | storj-exporter.py:20-24 | one id per dashboard satellite entry, in dashboard order, each the entry's `id` |
| Collector.StorjCollector.GetSatellites | storj-exporter.py:20-24 | the appending loop returns exactly the ids of `SatelliteIds` |
| Exporter.SatTable | storj-exporter.py:26-31 | the map's keys are exactly the satellite ids |
| Collector.StorjCollector.GetSatData | storj-exporter.py:26-31 | the `update` loop builds the map `SatTable` describes |
| ScrapeProperties.LastFetchWins | storj-exporter.py:28-30 | an id maps to the detail of its last fetch; later fetches of other ids do not disturb it |
| ScrapeProperties.DistinctIdsKeepEveryResponse | storj-exporter.py:26-31 | with distinct ids, every id maps to the detail fetched for it |
| Collector.StorjCollector.EmitInfo | storj-exporter.py:37-40 | yields the six info families, one per fixed dashboard key, in key order |
| Collector.StorjCollector.EmitNodeGauges | storj-exporter.py:42-46 | yields the four node gauges, disk space before bandwidth, used before available |
| NodeApi.Keys | storj-exporter.py:49 | the sub-keys of a score object, in iteration order |
| NodeApi.Lookup | storj-exporter.py:52 | the value returned is the one stored under the key |
| NodeApi.LookupEntry | storj-exporter.py:52 | looking up the key of any member yields that member's value |
| Collector.StorjCollector.ReadValue | storj-exporter.py:52-106 | reading one value of a satellite equals `ReadOutcome`: a missing score key or an empty daily list fails, naming the satellite and the reading |
| Collector.MonthTotal | storj-exporter.py:66-68 | the loop total equals `Sum` of the counter over every day of `bandwidthDaily` |
| Collector.StorageTotal | storj-exporter.py:98-100 | the loop total equals `Sum` of `atRestTotal` over every day of `storageDaily` |
| Sums.SumConcat | storj-exporter.py:66-68 | the month total of two consecutive runs of days is the sum of their totals |
| Sums.SumAgreesWithFront | storj-exporter.py:66-68 | the running total equals an independent front-first fold |
| Sums.ElementAtMostSum | storj-exporter.py:66-68 | no day's amount exceeds the month-to-date total |
| Sums.LastAtMostSum | storj-exporter.py:84 | the current day's amount (`[-1]`) is at most the month-to-date total |
| Exporter.RowOutcome | storj-exporter.py:51-53 | one sample per satellite, in satellite order, labelled by the satellite; fails exactly when some satellite is unreadable, and then names the first such satellite |
| Exporter.RowOutcomeStep | storj-exporter.py:51-53 | the row from satellite `i` on reads satellite `i`, then the rest |
| Collector.StorjCollector.AddRow | storj-exporter.py:51-53 | the `add_metric` loop over satellites builds exactly `RowOutcome`, stopping at the first lookup that raises |
| Exporter.RowsOutcome | storj-exporter.py:64-69 | one row per reading, in reading order; as many samples as readings times satellites; fails exactly when some satellite is unreadable for some reading, and names such a pair |
| Exporter.RowsOutcomeStep | storj-exporter.py:64-69 | the samples from reading `k` on are row `k`, then the rest |
| Collector.StorjCollector.EmitFamily | storj-exporter.py:63-70 | the nested loops build exactly `FamilyOutcome` of the layout |
| Exporter.FamiliesOutcome | storj-exporter.py:56-108 | one family per layout; succeeds exactly when every layout's family does, and a failure is some layout's failure |
| Exporter.FamiliesAt | storj-exporter.py:56-108 | family `l` of the list is the family of layout `l` |
| Exporter.FamiliesOutcomeStep | storj-exporter.py:56-108 | the families from layout `j` on are family `j`, then the rest |
| Collector.StorjCollector.EmitFamilies | storj-exporter.py:56-108 | the families are yielded in layout order, stopping at the first that raises |
| Collector.StorjCollector.EmitScores | storj-exporter.py:48-54 | fails when there is no satellite; otherwise yields one family per sub-key of the first satellite's score object |
| Collector.StorjCollector.Collect | storj-exporter.py:33-108 | stores the fetched dashboard, its satellite ids and the id-to-detail map, and yields exactly `Scrape` of them |
| ScrapeProperties.Rows | storj-exporter.py:64-69 | a built family's samples are its readings' rows, one after another |
| ScrapeProperties.RowsAt | storj-exporter.py:64-69 | the sample for reading `k` and satellite `i` sits at position `k * n + i`, where `n` is the number of satellites, and holds that satellite's labels and value |
| ScrapeProperties.FamilyHeader | storj-exporter.py:57-108 | a built family is a gauge with its layout's name, help and label names, and as many samples as readings times satellites |
| ScrapeProperties.FamilySamples | storj-exporter.py:63-69 | every sample of a built family sits at position `k * n + i`, where `n` is the number of satellites, and holds satellite `i`'s labels and reading `k` |
| ScrapeProperties.FamilySucceeds | storj-exporter.py:56-108 | a family is built exactly when every satellite is readable for every reading of its layout |
| ScrapeProperties.ScoreFamiliesSucceed | storj-exporter.py:48-54 | a group's score families are built exactly when there is a satellite and every satellite has every sub-key of the first |
| ScrapeProperties.BothScoreGroupsSucceed | storj-exporter.py:48-54 | the audit and uptime families are both built exactly when every satellite has every sub-key of the first, in both groups |
| ScrapeProperties.ReadableWithDays | storj-exporter.py:56-108 | only score readings can miss a key; the other readings need only non-empty daily lists |
| ScrapeProperties.SatelliteFamiliesSucceed | storj-exporter.py:56-108 | the eight per-satellite families are built exactly when no satellite has an empty `bandwidthDaily` or `storageDaily` |
| ScrapeProperties.ScrapeParts | storj-exporter.py:33-108 | a scrape succeeds exactly when its score and per-satellite parts do, and is their concatenation after the node-level families |
| ScrapeProperties.ScrapeSucceeds | storj-exporter.py:33-108 | a scrape succeeds exactly when there is a satellite, every satellite carries every audit and uptime sub-key of the first, and no daily list is empty |
| ScrapeProperties.FamiliesFaultIsReal | storj-exporter.py:56-108 | a failed family list names a listed satellite whose lookup does raise |
| ScrapeProperties.ScrapeFaultIsReal | storj-exporter.py:49-106 | a failed scrape reports `NoSatellites` exactly when there is no satellite, and otherwise names a satellite whose lookup raises |
| ScrapeProperties.ScoreFamiliesCount | storj-exporter.py:48-54 | there is one score family per sub-key of the first satellite's score object |
| ScrapeProperties.ScoreFamiliesAt | storj-exporter.py:49-54 | score family `j` is the family of the first satellite's `j`-th sub-key |
| ScrapeProperties.ScrapeLayout | storj-exporter.py:37-54 | a scrape has 18 families plus one per audit and per uptime sub-key, and begins with the six info families and the four node gauges |
| ScrapeProperties.ScrapeScoreSlices | storj-exporter.py:48-54 | right after the node gauges come the audit families, then the uptime families |
| ScrapeProperties.ScrapeEndsWithSatelliteFamilies | storj-exporter.py:56-108 | the last eight families are the per-satellite families, in source order |
| ScrapeProperties.ScoreSamples | storj-exporter.py:50-53 | a score family is named `storj_sat_<group>_<key>` and has one sample per satellite, labelled by that satellite, whose value is the satellite's score under that key |
| ScrapeProperties.DayWithinMonth | storj-exporter.py:63-93 | a satellite's current-day amount of a counter is at most its month-to-date amount |
| ScrapeProperties.StorageDayWithinMonth | storj-exporter.py:96-108 | a satellite's current-day stored amount is at most its month-to-date total |
| ScrapeProperties.PairedDayMonth | storj-exporter.py:63-93 | matching samples of a day family and a month family carry the same labels, and the day value is at most the month value |
| ScrapeProperties.EgressDayWithinMonth | storj-exporter.py:63-86 | per satellite and traffic type, the current-day egress sample is at most the month-to-date egress sample, under the same labels |
| ScrapeProperties.IngressDayWithinMonth | storj-exporter.py:72-93 | per satellite and traffic type, the current-day ingress sample is at most the month-to-date ingress sample, under the same labels |
| ScrapeProperties.StorageWithinMonth | storj-exporter.py:96-108 | per satellite, the current-day storage sample is at most the month-to-date storage sample, under the same label |
| FamilyNames.NodeLevelNames | storj-exporter.py:37-46 | the ten node-level families have distinct names, none starting `storj_s` |
| FamilyNames.ScoreNames | storj-exporter.py:48-54 | a score group's family `p` is named `storj_sat_<group>_<key>` for the first satellite's `p`-th sub-key, and these names are distinct |
| FamilyNames.SatelliteNames | storj-exporter.py:56-108 | the eight per-satellite families have distinct names, none sharing a score group's prefix |
| FamilyNames.ScrapeNamesDistinct | storj-exporter.py:33-108 | no two families of a successful scrape share a name |

The eight per-satellite layouts are constants of `Exporter` (storj-exporter.py:56-108), listed in yield
order in `SatelliteLayouts`. They hold the storage and bandwidth summaries, then `MonthEgressLayout`,
`MonthIngressLayout`, `DayEgressLayout`, `DayIngressLayout`, `MonthStorageLayout` and `DayStorageLayout`.
Each layout gives the family's name, its help text and its label names. Its readings are in the source's
loop order: by traffic type first, then by satellite.

## Left out

- HTTP and JSON (`call_api`, `get_data`, storj-exporter.py:13-18) are left out. The decoded dashboard and
  the decoded satellite details are parameters of `Collect`. A failed request or invalid JSON is not modelled.
- The host and port settings from the environment (storj-exporter.py:10-11) are left out. They only build URLs.
- The HTTP server, the registry and the main loop (storj-exporter.py:110-114) are left out.
  So is the text exposition format of the Prometheus client library.
- `collect` is a generator. Families yielded before a lookup raises are never exposed, because the
  exception aborts the whole scrape. The model therefore returns either every family or one `Fault`.
- The eight per-satellite blocks of the source are one loop (`EmitFamilies`) over a
  table of layouts, `SatelliteLayouts`. The single-reading families iterate over a one-element reading list.
- Missing fixed fields are not modelled. These are the dashboard keys, `diskSpace`, `bandwidth`, `storageSummary`,
  `bandwidthSummary`, the daily lists and the egress/ingress keys of a day. They are datatype fields, so the
  KeyError raised when one is absent is not modelled. Missing audit/uptime sub-keys and empty daily lists
  are modelled.
- Audit and uptime scores are floating point and are only copied, as their 64-bit pattern. Byte counts
  (summaries, egress, ingress, `atRestTotal`) are modelled as natural numbers. Python's unbounded
  integers match this, but a float-valued count in the JSON would not.
- Info values are `str` of the dashboard field. The model holds the fields as strings, plus `upToDate`
  as a boolean rendered `True`/`False`.
- Two crashes of the code are modelled as results.
  - With no satellites, `list(self.sat_data.values())[0]` raises IndexError (storj-exporter.py:49).
    The model returns `Failure(NoSatellites)`.
  - A missing score sub-key (line 52), or `[-1]` on an empty daily list (lines 84, 91, 106), raises KeyError
    or IndexError. The model returns `Unreadable(satellite, reading)`.
- Concurrent collections are not modelled. `collect` keeps the dashboard, the ids and the map in
  instance fields (storj-exporter.py:34-36), and the metrics server may run two scrapes at once on the same
  collector, so one can read the other's `satellites` or `sat_data`. `Collect` models one collection at a time.
- The first value of the id-to-detail map is taken to be the detail of the first satellite id. Python
  dicts keep insertion order, and the first inserted key is the first id.
