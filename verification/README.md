# kafka-topic-exporter collector, modelled in Dafny

This project models the aggregation core of kafka-topic-exporter: the `KafkaCollector`
class. The collector turns JSON metric records read from stream topics into metric
families that a pull-based metrics endpoint can scrape. The modelled parts are:

- `add`: deriving the family name from the topic and record name, creating the family,
  and the combination policy. In counter mode a record of a known identity adds its value
  to the stored one. In gauge mode it replaces the stored value.
- `collect`: evicting entries older than the time-to-live, removing a family that lost
  its last entry, and emitting one family per stored family.
- `generateSample`: turning one stored record into a sample with parallel label-name and
  label-value lists.
- `getMetricType`: reading the configured metric type, which is re-read on every call.

The model is functional. The collector's state is a map from family name to family.
A family maps each record identity to an entry. An entry holds the stored record and the
time it was last added. `Add` and `Collect` are pure state transitions. The clock is a
`now` parameter. The time-to-live and the configured metric type are also parameters.

Modules, one per file:

- `Wrappers`: `Option` and `Result`.
- `Naming`: the family name.
- `Records`: records, identities, label maps and samples.
- `Collector`: the state, `Add` and `Collect`.
- `ScrapeLoop`: the scrape written as the source's nested loop, proved equal to `Collect`.
- `Properties`: invariants and repeated scrapes.
- `Streams`: what a sequence of adds leaves behind.
- `Scenarios`: the collector's unit tests, each stated as a lemma.

Modelling choices:

- A record's identity is its name and its label set. Value and timestamp are not part of
  it. The counter test depends on this: the stored entry must be found again after its
  value changed.
- A decoded label object is a Java map. It is modelled as a list of (name, value) pairs
  with distinct names, in the map's iteration order. The identity uses the order-free map.
  `generateSample` emits the labels in the list's order.
- Null labels (`None`) and an empty label object (`Some([])`) are different identities.
  The record class's `equals` is not part of this model, so this is an assumption.
- Emitted families are a map from family name to family. Samples are a map from identity
  to sample. The source returns lists in hash-map order, and that order carries no
  meaning.

Behaviour of the code worth knowing:

- An empty record name gives a family name with a trailing `_`, such as `test_hoge_`.
  Only one leading `_` is stripped, so an empty topic with a record name starting with
  `.` still gives a name starting with `_`.
- A family whose last entry a scrape evicts is still emitted by that scrape, with no
  samples. It is removed from the state, so the next scrape does not emit it.
- Each add and each scrape reads the configured metric type again:
  - A record whose type is invalid still creates its family, empty. The error is then
    swallowed (`Properties.InvalidTypeLeavesEmptyFamily`).
  - A scrape fails if and only if there is at least one family. An empty family created
    this way is never removed by a scrape, because only a family that loses its last
    entry is removed.

## Model

| member | source | states |
|---|---|---|
| Naming.Sanitize | src/main/java/jp/gr/java_conf/ogibayashi/prometheus/KafkaCollector.java:37 | each '.' becomes '_' and every other character stays in place, so the length is kept and no '.' is left |
| Naming.FamilyName | src/main/java/jp/gr/java_conf/ogibayashi/prometheus/KafkaCollector.java:37-40 | a family name never contains '.', and is one character shorter than topic + '_' + name exactly when the topic is empty or starts with '.' or '_' |
| Naming.SanitizeIdempotent | src/main/java/jp/gr/java_conf/ogibayashi/prometheus/KafkaCollector.java:37 | sanitizing a sanitized name changes nothing, and a name without dots is its own sanitized form |
| Naming.FamilyNameCases | src/main/java/jp/gr/java_conf/ogibayashi/prometheus/KafkaCollector.java:37-40 | the family name by cases on the topic: empty topic gives the bare sanitized record name; a topic starting with '.' or '_' loses that one character; any other topic is joined whole with '_' |
| Naming.FamilyNameLeadingUnderscore | src/main/java/jp/gr/java_conf/ogibayashi/prometheus/KafkaCollector.java:38-40 | only one leading '_' is stripped: the result still starts with '_' if and only if the joined name started with two of them, characterised by the topic's and record name's first characters |
| Naming.FamilyNamesCollide | src/main/java/jp/gr/java_conf/ogibayashi/prometheus/KafkaCollector.java:37 | topic "a.b" with record "c" and topic "a" with record "b.c" share the family "a_b_c" |
| Naming.FamilyNameExamples | src/test/java/jp/gr/java_conf/ogibayashi/prometheus/KafkaCollectorTest.java:37 | topic "test.hoge" gives family "test_hoge_foo" for record "foo" and "test_hoge_test_foo" for record "test.foo" |
| Naming.FamilyNameEdgeCases | src/main/java/jp/gr/java_conf/ogibayashi/prometheus/KafkaCollector.java:37-40 | an empty record name leaves a trailing '_' ("test_hoge_"), and an empty topic with record ".x" still gives "_x" |
| Records.LabelMap | src/main/java/jp/gr/java_conf/ogibayashi/prometheus/KafkaCollector.java:47 | the identity's label map holds exactly the decoded label pairs, one key per pair |
| Records.IdentityOf | src/main/java/jp/gr/java_conf/ogibayashi/prometheus/KafkaCollector.java:47-54 | the identity keeps the record's name, has null labels exactly when the record does, and has one label per decoded pair |
| Records.SameIdentityIff | src/main/java/jp/gr/java_conf/ogibayashi/prometheus/KafkaCollector.java:47-54 | two records are the same time series if and only if they have the same name and either both have null labels or both carry the same label pairs, in any order |
| Records.SampleLabelMap | src/test/java/jp/gr/java_conf/ogibayashi/prometheus/KafkaCollectorTest.java:52-57 | reading a sample's parallel lists back gives a map whose keys are exactly the listed names, each mapped to the value at its first position |
| Records.GenerateSample | src/main/java/jp/gr/java_conf/ogibayashi/prometheus/KafkaCollector.java:103-115 | the sample carries the family name, the record's value and timestamp, and parallel name/value lists that list the label pairs in iteration order; no labels when they are null |
| Records.SampleLabelsRoundTrip | src/test/java/jp/gr/java_conf/ogibayashi/prometheus/KafkaCollectorTest.java:52-57 | zipping a generated sample's name and value lists back into a map gives the record's label map (empty when labels are null) |
| Records.PairsRoundTrip | src/main/java/jp/gr/java_conf/ogibayashi/prometheus/KafkaCollector.java:106-111 | splitting a label list into names and values and zipping them again gives the label map |
| Records.SameLabelsIffSamePairs | src/main/java/jp/gr/java_conf/ogibayashi/prometheus/KafkaCollector.java:47 | two label lists give the same identity label map if and only if they hold the same (name, value) pairs, whatever their order |
| Records.PairInLabelMap | src/main/java/jp/gr/java_conf/ogibayashi/prometheus/KafkaCollector.java:47 | every decoded label pair is an entry of the label map |
| Records.SamePairsSameMap | src/main/java/jp/gr/java_conf/ogibayashi/prometheus/KafkaCollector.java:47 | label lists with the same pairs give the same label map |
| Records.SubsetOfPairs | src/main/java/jp/gr/java_conf/ogibayashi/prometheus/KafkaCollector.java:47 | equal label maps mean every pair of one list is in the other |
| Collector.ParseMetricType | src/main/java/jp/gr/java_conf/ogibayashi/prometheus/KafkaCollector.java:91-101 | succeeds exactly on "gauge" and "counter", reading back to the configured spelling; any other value fails with the invalid-type error naming it |
| Collector.Add | src/main/java/jp/gr/java_conf/ogibayashi/prometheus/KafkaCollector.java:33-62 | an undecodable record changes nothing; otherwise the family is created if missing and no other family changes; with an invalid type the family stays as it was; with a valid type the record's identity is added, the others kept, the entry stamped now and carrying the record, its value summed with the old stored value in counter mode and replaced in gauge mode |
| Collector.Live | src/main/java/jp/gr/java_conf/ogibayashi/prometheus/KafkaCollector.java:75-83 | an entry survives a sweep if and only if it is not expired, unchanged |
| Collector.Expired | src/main/java/jp/gr/java_conf/ogibayashi/prometheus/KafkaCollector.java:76 | with a time-to-live of 0 nothing is expired; otherwise an entry is expired exactly when now minus the time-to-live is after its last touch |
| Collector.Sweep | src/main/java/jp/gr/java_conf/ogibayashi/prometheus/KafkaCollector.java:75-80 | a family stays exactly when it was empty or has an unexpired entry; a kept family holds exactly its unexpired entries, unchanged |
| Collector.Collect | src/main/java/jp/gr/java_conf/ogibayashi/prometheus/KafkaCollector.java:70-89 | fails exactly when there is a family and the type is invalid; otherwise emits every family with its name, empty help and the configured type, a sample for exactly the unexpired entries, and keeps exactly the unexpired entries, dropping a family only when it lost its last entry |
| Properties.AddPreservesWellKeyed | src/main/java/jp/gr/java_conf/ogibayashi/prometheus/KafkaCollector.java:45-56 | adding keeps every entry under its own identity, so one identity has at most one entry |
| Properties.AddPreservesNoEmptyFamilies | src/main/java/jp/gr/java_conf/ogibayashi/prometheus/KafkaCollector.java:41-56 | with a valid type adding never leaves an empty family |
| Properties.InvalidTypeLeavesEmptyFamily | src/main/java/jp/gr/java_conf/ogibayashi/prometheus/KafkaCollector.java:41-60 | with an invalid type a record for a new family leaves that family behind, empty |
| Properties.EmptyFamilyIsKept | src/main/java/jp/gr/java_conf/ogibayashi/prometheus/KafkaCollector.java:73-85 | an empty family survives a scrape and is emitted with no samples |
| Properties.CollectPreservesInvariants | src/main/java/jp/gr/java_conf/ogibayashi/prometheus/KafkaCollector.java:73-84 | a scrape keeps entries under their identities and leaves no empty family |
| Properties.EmptyOutputMeansRemoved | src/main/java/jp/gr/java_conf/ogibayashi/prometheus/KafkaCollector.java:76-85 | without empty families, a family is emitted without samples if and only if the scrape removed it |
| Properties.NoExpiryKeepsEverything | src/main/java/jp/gr/java_conf/ogibayashi/prometheus/KafkaCollector.java:76 | with a time-to-live of 0 a scrape keeps the state and emits every entry |
| Properties.ExpiryBoundary | src/main/java/jp/gr/java_conf/ogibayashi/prometheus/KafkaCollector.java:76 | the boundary is strict: an entry survives at lastSeen + ttl and is evicted at lastSeen + ttl + 1 |
| Properties.CollectIdempotent | src/main/java/jp/gr/java_conf/ogibayashi/prometheus/KafkaCollector.java:70-89 | a second scrape at the same time succeeds, keeps the state, and emits each family it emits as the first did; the families it no longer emits were emitted by the first without samples |
| Properties.SecondScrapeRepeatsFamily | src/main/java/jp/gr/java_conf/ogibayashi/prometheus/KafkaCollector.java:73-85 | a family the second scrape emits is emitted as by the first |
| Properties.SweptStateIsFixpoint | src/main/java/jp/gr/java_conf/ogibayashi/prometheus/KafkaCollector.java:75-80 | scraping the state a scrape left, at the same time, leaves it unchanged |
| Properties.SweepIdempotent | src/main/java/jp/gr/java_conf/ogibayashi/prometheus/KafkaCollector.java:75-80 | sweeping twice at the same time sweeps once |
| Properties.RemovedFamilyHasNoSamples | src/main/java/jp/gr/java_conf/ogibayashi/prometheus/KafkaCollector.java:76-85 | a family a scrape drops was emitted by it with no samples |
| Properties.RemovedFamilyNotEmittedAgain | src/main/java/jp/gr/java_conf/ogibayashi/prometheus/KafkaCollector.java:76-85 | a family whose entries all expire is emitted by that scrape without samples and removed; the next scrape of the state it leaves, with no add in between, at any time and with any metric type, does not emit it |
| Streams.CounterSums | src/main/java/jp/gr/java_conf/ogibayashi/prometheus/KafkaCollector.java:46-56 | in counter mode, after a stream of records each identity's stored value grows by the sum of the values sent for it |
| Streams.GaugeLastWins | src/main/java/jp/gr/java_conf/ogibayashi/prometheus/KafkaCollector.java:53-56 | in gauge mode, each identity's stored value is the value of the last record sent for it, or the previous one if none |
| Streams.AddOthersUntouched | src/main/java/jp/gr/java_conf/ogibayashi/prometheus/KafkaCollector.java:45-56 | adding a record leaves every other identity's stored value as it was |
| Streams.CounterCountsEveryRecord | src/main/java/jp/gr/java_conf/ogibayashi/prometheus/KafkaCollector.java:46-56 | n records of value 1 for a new identity in counter mode leave the stored value n |
| Streams.SumOfOnes | src/main/java/jp/gr/java_conf/ogibayashi/prometheus/KafkaCollector.java:50 | the sum over n records of value 1 is n |
| Streams.CounterAddsCommute | src/main/java/jp/gr/java_conf/ogibayashi/prometheus/KafkaCollector.java:46-56 | two counter adds in either order give the same families, identities and stored values |
| Streams.CommutedKeys | src/main/java/jp/gr/java_conf/ogibayashi/prometheus/KafkaCollector.java:41-56 | two counter adds in either order give the same families and identities |
| Streams.CommutedFamily | src/main/java/jp/gr/java_conf/ogibayashi/prometheus/KafkaCollector.java:41-56 | the same, for one family name |
| Streams.CommutedValues | src/main/java/jp/gr/java_conf/ogibayashi/prometheus/KafkaCollector.java:46-52 | two counter adds in either order give the same stored values |
| Streams.CounterValueStep | src/main/java/jp/gr/java_conf/ogibayashi/prometheus/KafkaCollector.java:46-52 | one counter add raises exactly its own identity's stored value, by the record's value |
| Streams.CounterKeysStep | src/main/java/jp/gr/java_conf/ogibayashi/prometheus/KafkaCollector.java:41-56 | one counter add creates only its family and adds only its identity |
| ScrapeLoop.SweepFamily | src/main/java/jp/gr/java_conf/ogibayashi/prometheus/KafkaCollector.java:75-84 | the inner loop, entry by entry, leaves exactly the live entries and their samples |
| ScrapeLoop.CollectLoop | src/main/java/jp/gr/java_conf/ogibayashi/prometheus/KafkaCollector.java:70-89 | the nested loops, family by family, compute the same result as Collect, including the failure |
| ScrapeLoop.VisitStep | src/main/java/jp/gr/java_conf/ogibayashi/prometheus/KafkaCollector.java:73-86 | sweeping and emitting one more family keeps the outer loop's invariant |
| ScrapeLoop.FinishedLoop | src/main/java/jp/gr/java_conf/ogibayashi/prometheus/KafkaCollector.java:70-89 | when every family has been visited the loop's state and output are the scrape's |
| ScrapeLoop.StateIsSweep | src/main/java/jp/gr/java_conf/ogibayashi/prometheus/KafkaCollector.java:73-80 | the loop's final state is the swept state |
| ScrapeLoop.FamiliesAreEmitted | src/main/java/jp/gr/java_conf/ogibayashi/prometheus/KafkaCollector.java:85 | the loop's output holds every family's samples |
| Scenarios.FirstAdd | src/main/java/jp/gr/java_conf/ogibayashi/prometheus/KafkaCollector.java:41-56 | the first record added to an empty collector is stored alone, stamped, under its family and identity |
| Scenarios.CollectOne | src/main/java/jp/gr/java_conf/ogibayashi/prometheus/KafkaCollector.java:70-89 | scraping one live entry keeps it and emits exactly its sample |
| Scenarios.CollectSingle | src/main/java/jp/gr/java_conf/ogibayashi/prometheus/KafkaCollector.java:73-86 | scraping one family emits that family alone |
| Scenarios.SweepSingle | src/main/java/jp/gr/java_conf/ogibayashi/prometheus/KafkaCollector.java:75-80 | sweeping one family keeps its live entries, or drops it when it lost its last entry |
| Scenarios.AddSimpleMetric | src/test/java/jp/gr/java_conf/ogibayashi/prometheus/KafkaCollectorTest.java:28-41 | an unlabelled counter record gives family "test_hoge_foo", type counter, empty help, one sample of value 9 |
| Scenarios.AddMetricWithLabelAndTimestamp | src/test/java/jp/gr/java_conf/ogibayashi/prometheus/KafkaCollectorTest.java:61-78 | a labelled, timestamped gauge record gives family "test_hoge_test_foo", type gauge, one sample with its labels, value 9 and timestamp |
| Scenarios.LabelledSample | src/main/java/jp/gr/java_conf/ogibayashi/prometheus/KafkaCollector.java:103-115 | the test record's sample lists labels label1, lable2 with values v1, v2 in order |
| Scenarios.TestSampleLabels | src/test/java/jp/gr/java_conf/ogibayashi/prometheus/KafkaCollectorTest.java:70-75 | reading back the labels of the sample generated for the test's labelled record gives label1 = v1, lable2 = v2 |
| Scenarios.SecondAdd | src/main/java/jp/gr/java_conf/ogibayashi/prometheus/KafkaCollector.java:41-56 | a second record of another identity in the same family joins the first |
| Scenarios.CounterAddExisting | src/main/java/jp/gr/java_conf/ogibayashi/prometheus/KafkaCollector.java:46-52 | a counter record of a stored identity replaces it, its value summed |
| Scenarios.CollectTwo | src/main/java/jp/gr/java_conf/ogibayashi/prometheus/KafkaCollector.java:73-85 | scraping two live entries emits both |
| Scenarios.SamplesOfTwo | src/main/java/jp/gr/java_conf/ogibayashi/prometheus/KafkaCollector.java:82 | two live entries give two samples |
| Scenarios.CollectOneOfTwo | src/main/java/jp/gr/java_conf/ogibayashi/prometheus/KafkaCollector.java:76-85 | scraping an expired and a live entry keeps and emits only the live one |
| Scenarios.IncrementValueWithSameLabel | src/test/java/jp/gr/java_conf/ogibayashi/prometheus/KafkaCollectorTest.java:80-101 | of three counter records the first and third share an identity and are summed (27); the family emits two samples |
| Scenarios.CounterTestEntries | src/test/java/jp/gr/java_conf/ogibayashi/prometheus/KafkaCollectorTest.java:90-92 | after the counter test's three adds the family holds two entries, one summed |
| Scenarios.CounterTestThird | src/main/java/jp/gr/java_conf/ogibayashi/prometheus/KafkaCollector.java:46-52 | adding 18 on top of a stored 9 stores 27 |
| Scenarios.CounterTestIdentities | src/test/java/jp/gr/java_conf/ogibayashi/prometheus/KafkaCollectorTest.java:83-85 | the counter test's first and third records share an identity, the second has another |
| Scenarios.MetricExpire | src/test/java/jp/gr/java_conf/ogibayashi/prometheus/KafkaCollectorTest.java:103-127 | with a 120 s time-to-live, entries added at 10:00 and 10:09 and scraped at 10:10 leave only the second, kept and emitted |
| Scenarios.ExpireTestIdentities | src/test/java/jp/gr/java_conf/ogibayashi/prometheus/KafkaCollectorTest.java:112-113 | the expiry test's two records have different identities |

## Left out

- Decoding the JSON payload (the JSON mapper, `KafkaExporterLogEntry`) is not part of this model. `Add` takes the decoder's result as an `Option`. `None` covers a payload that does not decode. It also covers a record whose missing name makes name sanitizing throw before the family is created. Both are caught and logged and leave the state unchanged.
- Logging, at debug, warn and error levels, is left out because it has no effect on the state.
- The overloads that read the wall clock are left out. Time is a parameter, counted in whole seconds. `LocalDateTime` sub-second precision is not modelled.
- Concurrency is left out. The source uses concurrent hash maps, and adds and scrapes may interleave. Here each call is one atomic step.
- Add: the counter sum is exact real addition, not IEEE-754 double addition. Rounding, infinities and NaN are not modelled.
- Collect: with an invalid metric type the source throws only after sweeping the first family in hash order. The model returns the failure and leaves the state as it was, because that first family is not determined by anything the model can see.
- CollectLoop: it returns the same failure as `Collect` when the type is invalid, and the partial sweep of the first family is not modelled either.
- The order of the emitted families and samples is left out, because it is hash-map iteration order.
- `PropertyConfig` is not part of this model. The time-to-live (read once, at construction) and the metric type string are parameters. Its default metric type, which the expiry test relies on, is not modelled, so `Scenarios.MetricExpire` is proved for either valid type.
- Scenarios.IncrementValueWithSameLabel: proves the emitted samples as a map. It does not prove which list position (the test's `get(1)`) holds the summed sample, because list order is hash order.
