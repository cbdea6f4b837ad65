/** Decoded metric records, their identity, and the samples the collector materialises
    from them (KafkaCollector.generateSample). */
module Records {
  import opened Wrappers

  /** No label name occurs twice: a decoded label object is a Java map. */
  predicate DistinctKeys(ls: seq<(string, string)>) {
    forall i, j :: 0 <= i < j < |ls| ==> ls[i].0 != ls[j].0
  }

  /** A decoded label map, as its (name, value) pairs in the map's iteration order. */
  type LabelList = ls: seq<(string, string)> | DistinctKeys(ls)

  /** A decoded record: `labels` is None when the payload had no label object (a null
      reference), `timestamp` is None when it had no timestamp. */
  datatype Record = Record(name: string, labels: Option<LabelList>, value: real, timestamp: Option<int>)

  /** What makes two records the same time series: the name and the label set as a set of
      key-value pairs. Value and timestamp are not part of it. */
  datatype Identity = Identity(name: string, labels: Option<map<string, string>>)

  /** The label pairs as a map; the iteration order is forgotten. */
  function LabelMap(ls: LabelList): (m: map<string, string>)
    ensures forall i :: 0 <= i < |ls| ==> ls[i].0 in m && m[ls[i].0] == ls[i].1
    ensures forall k :: k in m ==> exists i :: 0 <= i < |ls| && ls[i].0 == k
    ensures |m| == |ls|
  {
    if ls == [] then map[]
    else
      var rest := LabelMap(ls[1..]);
      assert ls[0].0 !in rest by {
        forall k | k in rest ensures k != ls[0].0 {
          var i :| 0 <= i < |ls[1..]| && ls[1..][i].0 == k;
          assert ls[i + 1].0 == k;
        }
      }
      rest[ls[0].0 := ls[0].1]
  }

  /** The identity a record is filed under. */
  function IdentityOf(r: Record): (id: Identity)
    ensures id.name == r.name
    ensures id.labels.None? <==> r.labels.None?
    ensures r.labels.Some? ==> |id.labels.value| == |r.labels.value|
  {
    Identity(r.name, match r.labels case None => None case Some(ls) => Some(LabelMap(ls)))
  }

  /** One exposed sample: parallel label-name and label-value lists. */
  datatype Sample = Sample(name: string, labelNames: seq<string>, labelValues: seq<string>,
                           value: real, timestampMs: Option<int>)

  /** The number of labels a record carries; none when its labels are null. */
  function LabelCount(r: Record): nat {
    match r.labels
    case None => 0
    case Some(ls) => |LabelMap(ls)|
  }

  /** The sample for one stored record of family `metricName`: labels become parallel
      name and value lists in the map's iteration order; value and timestamp are copied. */
  function GenerateSample(metricName: string, r: Record): (s: Sample)
    ensures s.name == metricName && s.value == r.value && s.timestampMs == r.timestamp
    ensures |s.labelNames| == |s.labelValues| == LabelCount(r)
    ensures r.labels.Some? ==>
              forall i :: 0 <= i < |s.labelNames| ==>
                r.labels.value[i] == (s.labelNames[i], s.labelValues[i])
  {
    var ls := r.labels.GetOr([]);
    Sample(metricName,
           seq(|ls|, i requires 0 <= i < |ls| => ls[i].0),
           seq(|ls|, i requires 0 <= i < |ls| => ls[i].1),
           r.value, r.timestamp)
  }

  /** Reads a label map back from a sample's parallel lists (what the collector's tests do
      with a sample). */
  function SampleLabelMap(names: seq<string>, values: seq<string>): (m: map<string, string>)
    ensures forall k :: k in m <==> exists i :: 0 <= i < |names| && i < |values| && names[i] == k
    ensures forall i :: 0 <= i < |names| && i < |values| && names[i] !in names[..i] ==> m[names[i]] == values[i]
  {
    if names == [] || values == [] then map[]
    else SampleLabelMap(names[1..], values[1..])[names[0] := values[0]]
  }

  /** Reading the label map back from a generated sample gives exactly the record's label
      set (the empty map when the record's labels are null). */
  lemma SampleLabelsRoundTrip(metricName: string, r: Record)
    ensures var s := GenerateSample(metricName, r);
            SampleLabelMap(s.labelNames, s.labelValues)
              == match r.labels case None => map[] case Some(ls) => LabelMap(ls)
  {
    var s := GenerateSample(metricName, r);
    match r.labels
    case None =>
    case Some(ls) =>
      assert s.labelNames == seq(|ls|, i requires 0 <= i < |ls| => ls[i].0);
      assert s.labelValues == seq(|ls|, i requires 0 <= i < |ls| => ls[i].1);
      PairsRoundTrip(ls);
  }

  /** Splitting a label list into names and values and zipping them back into a map
      gives its label map. */
  lemma {:induction false} PairsRoundTrip(ls: LabelList)
    ensures SampleLabelMap(seq(|ls|, i requires 0 <= i < |ls| => ls[i].0),
                           seq(|ls|, i requires 0 <= i < |ls| => ls[i].1)) == LabelMap(ls)
    decreases |ls|
  {
    if ls != [] {
      var tail: LabelList := ls[1..];
      var names := seq(|ls|, i requires 0 <= i < |ls| => ls[i].0);
      var values := seq(|ls|, i requires 0 <= i < |ls| => ls[i].1);
      assert names[1..] == seq(|tail|, i requires 0 <= i < |tail| => tail[i].0);
      assert values[1..] == seq(|tail|, i requires 0 <= i < |tail| => tail[i].1);
      PairsRoundTrip(tail);
    }
  }

  /** Label order does not matter to identity: two label lists give the same label map
      exactly when they hold the same (name, value) pairs. */
  lemma SameLabelsIffSamePairs(a: LabelList, b: LabelList)
    ensures LabelMap(a) == LabelMap(b) <==> (forall p :: p in a <==> p in b)
  {
    if LabelMap(a) == LabelMap(b) {
      SubsetOfPairs(a, b);
      SubsetOfPairs(b, a);
    } else if forall p :: p in a <==> p in b {
      SamePairsSameMap(a, b);
    }
  }

  /** Two records are filed as the same time series exactly when they have the same name
      and either both have null labels or both carry the same (name, value) pairs, in
      any order. */
  lemma SameIdentityIff(r1: Record, r2: Record)
    ensures IdentityOf(r1) == IdentityOf(r2) <==>
              && r1.name == r2.name
              && r1.labels.None? == r2.labels.None?
              && (r1.labels.Some? && r2.labels.Some? ==>
                    forall p :: p in r1.labels.value <==> p in r2.labels.value)
  {
    if r1.labels.Some? && r2.labels.Some? {
      SameLabelsIffSamePairs(r1.labels.value, r2.labels.value);
    }
  }

  /** A pair of a label list is an entry of its map. */
  lemma PairInLabelMap(ls: LabelList, p: (string, string))
    requires p in ls
    ensures p.0 in LabelMap(ls) && LabelMap(ls)[p.0] == p.1
  {
    var i :| 0 <= i < |ls| && ls[i] == p;
  }

  /** Label lists holding the same pairs give the same map. */
  lemma SamePairsSameMap(a: LabelList, b: LabelList)
    requires forall p :: p in a <==> p in b
    ensures LabelMap(a) == LabelMap(b)
  {
    var ma, mb := LabelMap(a), LabelMap(b);
    forall k | k in ma
      ensures k in mb && ma[k] == mb[k]
    {
      var i :| 0 <= i < |a| && a[i].0 == k;
      PairInLabelMap(b, a[i]);
    }
    forall k | k in mb
      ensures k in ma
    {
      var j :| 0 <= j < |b| && b[j].0 == k;
      PairInLabelMap(a, b[j]);
    }
  }

  /** When two label lists give the same map, every pair of the first is in the second. */
  lemma SubsetOfPairs(a: LabelList, b: LabelList)
    requires LabelMap(a) == LabelMap(b)
    ensures forall p :: p in a ==> p in b
  {
    forall p | p in a
      ensures p in b
    {
      PairInLabelMap(a, p);
      var j :| 0 <= j < |b| && b[j].0 == p.0;
      assert b[j] == p;
    }
  }
}
