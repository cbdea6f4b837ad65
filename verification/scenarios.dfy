/** The collector's unit tests (KafkaCollectorTest), stated as lemmas about the model. */
module Scenarios {
  import opened Wrappers
  import opened Naming
  import opened Records
  import opened Collector

  /** The first record sent to an empty collector with a valid metric type is stored,
      stamped, under its family and identity. */
  lemma FirstAdd(topic: string, rec: Record, metricType: string, t: int)
    requires ParseMetricType(metricType).Success?
    ensures Add(map[], topic, Some(rec), metricType, t)
            == map[FamilyName(topic, rec.name) := map[IdentityOf(rec) := Entry(rec, t)]]
  {
  }

  /** Scraping a collector that holds one live entry emits exactly that entry's sample. */
  lemma CollectOne(f: string, id: Identity, e: Entry, metricType: string, expire: int, now: int)
    requires ParseMetricType(metricType).Success? && !Expired(e, expire, now)
    ensures Collect(map[f := map[id := e]], metricType, expire, now)
            == Success(Scrape(map[f := map[id := e]],
                              map[f := FamilySamples(f, ParseMetricType(metricType).value, "",
                                                     map[id := GenerateSample(f, e.record)])]))
  {
    var family := map[id := e];
    CollectSingle(f, family, metricType, expire, now);
    assert Live(family, expire, now) == family;
    SweepSingle(f, family, expire, now);
    assert Samples(f, family) == map[id := GenerateSample(f, e.record)];
  }

  /** Scraping a collector of one family emits that family alone. */
  lemma CollectSingle(f: string, family: Family, metricType: string, expire: int, now: int)
    requires ParseMetricType(metricType).Success?
    ensures Collect(map[f := family], metricType, expire, now)
            == Success(Scrape(Sweep(map[f := family], expire, now),
                              map[f := FamilySamples(f, ParseMetricType(metricType).value, "",
                                                     Samples(f, Live(family, expire, now)))]))
  {
    var s, t := map[f := family], ParseMetricType(metricType).value;
    assert (map g | g in s :: FamilySamples(g, t, "", Samples(g, Live(s[g], expire, now))))
           == map[f := FamilySamples(f, t, "", Samples(f, Live(family, expire, now)))];
  }

  /** Sweeping a collector of one family keeps its live entries, or drops it when it lost
      its last one. */
  lemma SweepSingle(f: string, family: Family, expire: int, now: int)
    ensures Sweep(map[f := family], expire, now)
            == if EvictedWhole(family, expire, now) then map[] else map[f := Live(family, expire, now)]
  {
  }

  /** A record without labels, sent in counter mode, is emitted as family "test_hoge_foo"
      of type counter, empty help, with one unlabelled sample of value 9. */
  lemma AddSimpleMetric(t: int, expire: nat)
    ensures var s := Add(map[], "test.hoge", Some(Record("foo", None, 9.0, None)), "counter", t);
            Collect(s, "counter", expire, t)
              == Success(Scrape(s, map["test_hoge_foo" :=
                   FamilySamples("test_hoge_foo", Counter, "",
                                 map[Identity("foo", None) := Sample("test_hoge_foo", [], [], 9.0, None)])]))
  {
    var rec := Record("foo", None, 9.0, None);
    FamilyNameExamples();
    FirstAdd("test.hoge", rec, "counter", t);
    CollectOne("test_hoge_foo", IdentityOf(rec), Entry(rec, t), "counter", expire, t);
  }

  /** The labels of the tests' records. */
  function TestLabels(first: string, second: string): LabelList {
    [("label1", first), ("lable2", second)]
  }

  /** The labels of the counter test's records (second label spelled "label2"). */
  function CounterLabels(first: string, second: string): LabelList {
    [("label1", first), ("label2", second)]
  }

  /** A labelled, timestamped record sent in gauge mode is emitted as family
      "test_hoge_test_foo" of type gauge, with one sample carrying its labels in order,
      its value and its timestamp. */
  lemma AddMetricWithLabelAndTimestamp(t: int, expire: nat)
    ensures var rec := Record("test.foo", Some(TestLabels("v1", "v2")), 9.0, Some(1517330227));
            var s := Add(map[], "test.hoge", Some(rec), "gauge", t);
            Collect(s, "gauge", expire, t)
              == Success(Scrape(s, map["test_hoge_test_foo" :=
                   FamilySamples("test_hoge_test_foo", Gauge, "",
                                 map[IdentityOf(rec) := Sample("test_hoge_test_foo", ["label1", "lable2"], ["v1", "v2"],
                                                               9.0, Some(1517330227))])]))
  {
    var rec := Record("test.foo", Some(TestLabels("v1", "v2")), 9.0, Some(1517330227));
    FamilyNameExamples();
    FirstAdd("test.hoge", rec, "gauge", t);
    CollectOne("test_hoge_test_foo", IdentityOf(rec), Entry(rec, t), "gauge", expire, t);
    LabelledSample();
  }

  /** The sample of the tests' labelled record lists its labels in order. */
  lemma LabelledSample()
    ensures GenerateSample("test_hoge_test_foo", Record("test.foo", Some(TestLabels("v1", "v2")), 9.0, Some(1517330227)))
            == Sample("test_hoge_test_foo", ["label1", "lable2"], ["v1", "v2"], 9.0, Some(1517330227))
  {
    var smp := GenerateSample("test_hoge_test_foo", Record("test.foo", Some(TestLabels("v1", "v2")), 9.0, Some(1517330227)));
    assert smp.labelNames == ["label1", "lable2"];
    assert smp.labelValues == ["v1", "v2"];
  }

  /** Reading back the label map of the sample generated for the tests' labelled record
      gives that record's labels. */
  lemma TestSampleLabels()
    ensures var rec := Record("test.foo", Some(TestLabels("v1", "v2")), 9.0, Some(1517330227));
            var smp := GenerateSample("test_hoge_test_foo", rec);
            SampleLabelMap(smp.labelNames, smp.labelValues) == map["label1" := "v1", "lable2" := "v2"]
  {
    var rec := Record("test.foo", Some(TestLabels("v1", "v2")), 9.0, Some(1517330227));
    SampleLabelsRoundTrip("test_hoge_test_foo", rec);
    assert LabelMap(TestLabels("v1", "v2")) == map["label1" := "v1", "lable2" := "v2"];
  }

  /** A second record of another identity in the same family joins the first. */
  lemma SecondAdd(topic: string, r1: Record, r2: Record, metricType: string, t1: int, t2: int)
    requires ParseMetricType(metricType).Success?
    requires FamilyName(topic, r1.name) == FamilyName(topic, r2.name) && IdentityOf(r1) != IdentityOf(r2)
    ensures Add(Add(map[], topic, Some(r1), metricType, t1), topic, Some(r2), metricType, t2)
            == map[FamilyName(topic, r1.name) := map[IdentityOf(r1) := Entry(r1, t1), IdentityOf(r2) := Entry(r2, t2)]]
  {
    FirstAdd(topic, r1, metricType, t1);
  }

  /** A counter record of an identity already stored replaces it, its value summed. */
  lemma CounterAddExisting(s: State, topic: string, r: Record, t: int)
    requires FamilyName(topic, r.name) in s && IdentityOf(r) in s[FamilyName(topic, r.name)]
    ensures var f, id := FamilyName(topic, r.name), IdentityOf(r);
            Add(s, topic, Some(r), "counter", t)
              == s[f := s[f][id := Entry(r.(value := r.value + s[f][id].record.value), t)]]
  {
  }

  /** Scraping a family of two live entries emits both. */
  lemma CollectTwo(f: string, id1: Identity, e1: Entry, id2: Identity, e2: Entry,
                   metricType: string, expire: int, now: int)
    requires ParseMetricType(metricType).Success? && id1 != id2
    requires !Expired(e1, expire, now) && !Expired(e2, expire, now)
    ensures var s := map[f := map[id1 := e1, id2 := e2]];
            Collect(s, metricType, expire, now)
              == Success(Scrape(s, map[f := FamilySamples(f, ParseMetricType(metricType).value, "",
                                                          map[id1 := GenerateSample(f, e1.record),
                                                              id2 := GenerateSample(f, e2.record)])]))
  {
    var family := map[id1 := e1, id2 := e2];
    CollectSingle(f, family, metricType, expire, now);
    assert Live(family, expire, now) == family;
    SweepSingle(f, family, expire, now);
    SamplesOfTwo(f, id1, e1, id2, e2);
  }

  /** The samples of two entries. */
  lemma SamplesOfTwo(f: string, id1: Identity, e1: Entry, id2: Identity, e2: Entry)
    requires id1 != id2
    ensures Samples(f, map[id1 := e1, id2 := e2])
            == map[id1 := GenerateSample(f, e1.record), id2 := GenerateSample(f, e2.record)]
  {
  }

  /** Scraping a family of an expired and a live entry keeps and emits only the live one. */
  lemma CollectOneOfTwo(f: string, id1: Identity, e1: Entry, id2: Identity, e2: Entry,
                        metricType: string, expire: int, now: int)
    requires ParseMetricType(metricType).Success? && id1 != id2
    requires Expired(e1, expire, now) && !Expired(e2, expire, now)
    ensures var s := map[f := map[id1 := e1, id2 := e2]];
            Collect(s, metricType, expire, now)
              == Success(Scrape(map[f := map[id2 := e2]],
                                map[f := FamilySamples(f, ParseMetricType(metricType).value, "",
                                                       map[id2 := GenerateSample(f, e2.record)])]))
  {
    var family := map[id1 := e1, id2 := e2];
    CollectSingle(f, family, metricType, expire, now);
    assert Live(family, expire, now) == map[id2 := e2];
    assert id2 in Live(family, expire, now);
    SweepSingle(f, family, expire, now);
    assert Samples(f, map[id2 := e2]) == map[id2 := GenerateSample(f, e2.record)];
  }

  /** Counter mode: of three records named "foo" on topic "test.hoge", the first and third
      of the same identity and the second of another, the first and third are summed into
      one entry (9 + 18 = 27, carrying the third record) and the second stays separate, so
      the family emits two samples. The test's label sets meet the identity requirements
      (`CounterTestIdentities`). */
  lemma IncrementValueWithSameLabel(r1: Record, r2: Record, r3: Record, t: int, expire: nat)
    requires r1.name == r2.name == r3.name == "foo"
    requires IdentityOf(r1) == IdentityOf(r3) != IdentityOf(r2)
    requires r1.value == 9.0 && r2.value == 10.0 && r3.value == 18.0
    ensures var s3 := CounterTestState("test.hoge", r1, r2, r3, t);
            var summed := r3.(value := 27.0);
            Collect(s3, "counter", expire, t)
              == Success(Scrape(s3, map["test_hoge_foo" := FamilySamples("test_hoge_foo", Counter, "",
                   map[IdentityOf(r1) := GenerateSample("test_hoge_foo", summed),
                       IdentityOf(r2) := GenerateSample("test_hoge_foo", r2)])]))
  {
    FamilyNameExamples();
    CounterTestEntries("test.hoge", r1, r2, r3, t);
    CollectTwo("test_hoge_foo", IdentityOf(r1), Entry(r3.(value := 27.0), t), IdentityOf(r2), Entry(r2, t),
               "counter", expire, t);
  }

  /** The counter test's three adds, in order. */
  function CounterTestState(topic: string, r1: Record, r2: Record, r3: Record, t: int): State {
    var s1 := Add(map[], topic, Some(r1), "counter", t);
    var s2 := Add(s1, topic, Some(r2), "counter", t);
    Add(s2, topic, Some(r3), "counter", t)
  }

  /** After the counter test's three adds the family holds two entries, one summed. */
  lemma CounterTestEntries(topic: string, r1: Record, r2: Record, r3: Record, t: int)
    requires r1.name == r2.name == r3.name
    requires IdentityOf(r1) == IdentityOf(r3) != IdentityOf(r2)
    requires r1.value == 9.0 && r3.value == 18.0
    ensures CounterTestState(topic, r1, r2, r3, t)
            == map[FamilyName(topic, r1.name) := map[IdentityOf(r1) := Entry(r3.(value := 27.0), t),
                                                     IdentityOf(r2) := Entry(r2, t)]]
  {
    var f, id1, id2 := FamilyName(topic, r1.name), IdentityOf(r1), IdentityOf(r2);
    SecondAdd(topic, r1, r2, "counter", t, t);
    CounterTestThird(topic, f, id1, Entry(r1, t), id2, Entry(r2, t), r3, t);
  }

  /** The counter test's third add: 18 on top of a stored 9, beside another entry. */
  lemma CounterTestThird(topic: string, f: string, id1: Identity, e1: Entry, id2: Identity, e2: Entry,
                         r3: Record, t: int)
    requires f == FamilyName(topic, r3.name) && id1 == IdentityOf(r3) && id1 != id2
    requires e1.record.value == 9.0 && r3.value == 18.0
    ensures Add(map[f := map[id1 := e1, id2 := e2]], topic, Some(r3), "counter", t)
            == map[f := map[id1 := Entry(r3.(value := 27.0), t), id2 := e2]]
  {
    CounterAddExisting(map[f := map[id1 := e1, id2 := e2]], topic, r3, t);
    ReplaceFirst(id1, e1, id2, e2, Entry(r3.(value := 27.0), t));
  }

  /** Replacing the value of the first key of a two-key map. */
  lemma ReplaceFirst<K, V>(k1: K, v1: V, k2: K, v2: V, v: V)
    requires k1 != k2
    ensures map[k1 := v1, k2 := v2][k1 := v] == map[k1 := v, k2 := v2]
  {
  }

  /** The counter test's records: the first and third share an identity, the second has
      another. */
  lemma CounterTestIdentities()
    ensures var r1 := Record("foo", Some(CounterLabels("v1", "v2")), 9.0, None);
            var r2 := Record("foo", Some(CounterLabels("aa1", "bb2")), 10.0, None);
            var r3 := Record("foo", Some(CounterLabels("v1", "v2")), 18.0, None);
            IdentityOf(r1) == IdentityOf(r3) != IdentityOf(r2)
  {
    assert LabelMap(CounterLabels("v1", "v2"))["label1"] == "v1";
    assert LabelMap(CounterLabels("aa1", "bb2"))["label1"] == "aa1";
  }

  /** With a 120-second time-to-live, of two "foo" entries of different identities added
      at 10:00 and 10:09, a scrape at 10:10 keeps and emits only the second. Times are
      seconds since midnight. The test's label sets give two identities
      (`ExpireTestIdentities`). */
  lemma MetricExpire(r1: Record, r2: Record, metricType: string)
    requires ParseMetricType(metricType).Success?
    requires r1.name == r2.name == "foo" && IdentityOf(r1) != IdentityOf(r2)
    ensures var s1 := Add(map[], "test.hoge", Some(r1), metricType, 36000);
            var s2 := Add(s1, "test.hoge", Some(r2), metricType, 36540);
            Collect(s2, metricType, 120, 36600)
              == Success(Scrape(map["test_hoge_foo" := map[IdentityOf(r2) := Entry(r2, 36540)]],
                                map["test_hoge_foo" := FamilySamples("test_hoge_foo", ParseMetricType(metricType).value, "",
                                                       map[IdentityOf(r2) := GenerateSample("test_hoge_foo", r2)])]))
  {
    var f, id1, id2 := "test_hoge_foo", IdentityOf(r1), IdentityOf(r2);
    var s2 := Add(Add(map[], "test.hoge", Some(r1), metricType, 36000), "test.hoge", Some(r2), metricType, 36540);
    assert s2 == map[f := map[id1 := Entry(r1, 36000), id2 := Entry(r2, 36540)]] by {
      assert FamilyName("test.hoge", "foo") == f by { FamilyNameExamples(); }
      SecondAdd("test.hoge", r1, r2, metricType, 36000, 36540);
    }
    CollectOneOfTwo(f, id1, Entry(r1, 36000), id2, Entry(r2, 36540), metricType, 120, 36600);
  }

  /** The expiry test's records have different identities. */
  lemma ExpireTestIdentities()
    ensures IdentityOf(Record("foo", Some(TestLabels("v1", "v2")), 9.0, None))
            != IdentityOf(Record("foo", Some(TestLabels("aa1", "bb2")), 10.0, None))
  {
    assert LabelMap(TestLabels("v1", "v2"))["label1"] == "v1";
    assert LabelMap(TestLabels("aa1", "bb2"))["label1"] == "aa1";
  }
}
