/** The aggregation engine of KafkaCollector: the state is a map from family name to the
    family's entries, each keyed by record identity and remembering when it was last
    touched. `Add` files one decoded record, `Collect` evicts expired entries and emits
    the snapshot. Both are atomic state transitions; the wall clock is the `now`
    parameter, in whole seconds. */
module Collector {
  import opened Wrappers
  import opened Naming
  import opened Records

  /** The two combination policies. */
  datatype MetricType = Gauge | Counter

  /** The one error the collector raises: the configured metric type is neither
      "gauge" nor "counter". */
  datatype Error = InvalidMetricType(configured: string)

  /** The configuration spelling of each metric type. */
  function TypeName(t: MetricType): string {
    match t
    case Gauge => "gauge"
    case Counter => "counter"
  }

  /** Reads the configured metric type (getMetricType), re-evaluated on every call. */
  function ParseMetricType(configured: string): (r: Result<MetricType, Error>)
    ensures r.Success? <==> configured == "gauge" || configured == "counter"
    ensures r.Success? ==> TypeName(r.value) == configured
    ensures r.Failure? ==> r.error == InvalidMetricType(configured)
  {
    if configured == "gauge" then Success(Gauge)
    else if configured == "counter" then Success(Counter)
    else Failure(InvalidMetricType(configured))
  }

  /** A stored record with the time it was last added. */
  datatype Entry = Entry(record: Record, lastSeen: int)

  /** The entries of one family, one per identity. */
  type Family = map<Identity, Entry>

  /** The collector's state: family name to family. */
  type State = map<string, Family>

  /** The family of that name, or an empty one when there is none yet. */
  function FamilyOf(s: State, f: string): Family {
    if f in s then s[f] else map[]
  }

  /** The stored value for an identity in a family, 0 when there is no such entry. */
  function StoredValue(s: State, f: string, id: Identity): real {
    if id in FamilyOf(s, f) then FamilyOf(s, f)[id].record.value else 0.0
  }

  /** Every entry is filed under its record's identity. */
  ghost predicate WellKeyed(s: State) {
    forall f, id :: f in s && id in s[f] ==> IdentityOf(s[f][id].record) == id
  }

  /** No family is empty. */
  ghost predicate NoEmptyFamilies(s: State) {
    forall f :: f in s ==> s[f] != map[]
  }

  /** Files one record (KafkaCollector.add). `decoded` is the decoder's result: None when
      the payload did not decode, which leaves the state as it was. Otherwise the family
      is created if missing; then, with a valid metric type, the record replaces any entry
      of its identity, its value first increased by the old entry's value in counter
      mode, and is stamped with `now`. With an invalid metric type the family has already
      been created when the error is raised, and the error is swallowed. */
  function Add(s: State, topic: string, decoded: Option<Record>, metricType: string, now: int): (s': State)
    ensures decoded.None? ==> s' == s
    ensures decoded.Some? ==>
              var f := FamilyName(topic, decoded.value.name);
              && s'.Keys == s.Keys + {f}
              && forall g :: g in s && g != f ==> s'[g] == s[g]
    ensures decoded.Some? && ParseMetricType(metricType).Failure? ==>
              var f := FamilyName(topic, decoded.value.name);
              s'[f] == FamilyOf(s, f)
    ensures decoded.Some? && ParseMetricType(metricType).Success? ==>
              var r, f := decoded.value, FamilyName(topic, decoded.value.name);
              var id, before := IdentityOf(r), FamilyOf(s, f);
              && s'[f].Keys == before.Keys + {id}
              && (forall other :: other in before && other != id ==> s'[f][other] == before[other])
              && s'[f][id].lastSeen == now
              && s'[f][id].record.(value := r.value) == r
    ensures decoded.Some? && ParseMetricType(metricType) == Success(Counter) ==>
              var f := FamilyName(topic, decoded.value.name);
              var id := IdentityOf(decoded.value);
              s'[f][id].record.value == decoded.value.value + StoredValue(s, f, id)
    ensures decoded.Some? && ParseMetricType(metricType) == Success(Gauge) ==>
              var f := FamilyName(topic, decoded.value.name);
              s'[f][IdentityOf(decoded.value)].record.value == decoded.value.value
  {
    match decoded
    case None => s
    case Some(r) =>
      var f := FamilyName(topic, r.name);
      var family := FamilyOf(s, f);
      match ParseMetricType(metricType)
      case Failure(_) => s[f := family]
      case Success(t) =>
        var id := IdentityOf(r);
        var stored := if t == Counter && id in family
                      then r.(value := r.value + family[id].record.value)
                      else r;
        s[f := family[id := Entry(stored, now)]]
  }

  /** An entry is evicted when a time-to-live is set and its last touch plus the
      time-to-live is strictly before `now`. */
  predicate Expired(e: Entry, expire: int, now: int): (b: bool)
    ensures expire == 0 ==> !b
    ensures expire != 0 ==> (b <==> now - expire > e.lastSeen)
  {
    expire != 0 && e.lastSeen + expire < now
  }

  /** The entries of a family that survive eviction. */
  function Live(family: Family, expire: int, now: int): (live: Family)
    ensures forall id :: id in live <==> id in family && !Expired(family[id], expire, now)
    ensures forall id :: id in live ==> live[id] == family[id]
  {
    map id | id in family && !Expired(family[id], expire, now) :: family[id]
  }

  /** A family that had entries and lost all of them to eviction. */
  predicate EvictedWhole(family: Family, expire: int, now: int) {
    family != map[] && Live(family, expire, now) == map[]
  }

  /** The state after eviction: the live entries of every family, without the families
      that lost their last entry. */
  function Sweep(s: State, expire: int, now: int): (swept: State)
    ensures forall f :: f in swept <==>
              f in s && (s[f] == map[] || exists id :: id in s[f] && !Expired(s[f][id], expire, now))
    ensures forall f, id :: f in swept ==> (id in swept[f] <==> id in s[f] && !Expired(s[f][id], expire, now))
    ensures forall f, id :: f in swept && id in swept[f] ==> swept[f][id] == s[f][id]
  {
    var swept := map f | f in s && !EvictedWhole(s[f], expire, now) :: Live(s[f], expire, now);
    assert forall f :: f in s && s[f] != map[] && Live(s[f], expire, now) != map[] ==>
             exists id :: id in s[f] && !Expired(s[f][id], expire, now) by {
      forall f | f in s && s[f] != map[] && Live(s[f], expire, now) != map[]
        ensures exists id :: id in s[f] && !Expired(s[f][id], expire, now)
      {
        var id :| id in Live(s[f], expire, now);
      }
    }
    swept
  }

  /** One emitted family. */
  datatype FamilySamples = FamilySamples(name: string, metricType: MetricType, help: string,
                                         samples: map<Identity, Sample>)

  /** The outcome of a scrape: the state after eviction and the emitted families, by name
      (the source's list order is hash order and carries no meaning). */
  datatype Scrape = Scrape(state: State, families: map<string, FamilySamples>)

  /** The samples of family `f` for its live entries. */
  function Samples(f: string, live: Family): map<Identity, Sample> {
    map id | id in live :: GenerateSample(f, live[id].record)
  }

  /** Takes a snapshot (KafkaCollector.collect). Every family present at the start is
      emitted, holding one sample per surviving entry; expired entries are removed, and a
      family whose entries all expired is removed from the state (but still emitted,
      with no samples, by this call). The metric type is read once per family, so an
      invalid one raises as soon as there is any family. */
  function Collect(s: State, metricType: string, expire: int, now: int): (r: Result<Scrape, Error>)
    ensures r.Failure? <==> s != map[] && ParseMetricType(metricType).Failure?
    ensures r.Failure? ==> r.error == InvalidMetricType(metricType)
    ensures r.Success? ==> r.value.families.Keys == s.Keys
    ensures r.Success? ==>
              forall f :: f in s ==>
                var out := r.value.families[f];
                out.name == f && out.help == "" && TypeName(out.metricType) == metricType
    ensures r.Success? ==>
              forall f, id :: f in s && id in s[f] ==>
                (id in r.value.families[f].samples <==>
                   !(expire != 0 && s[f][id].lastSeen + expire < now))
    ensures r.Success? ==>
              forall f, id :: f in s && id in r.value.families[f].samples ==>
                id in s[f] && r.value.families[f].samples[id] == GenerateSample(f, s[f][id].record)
    ensures r.Success? ==>
              forall f :: f in r.value.state <==>
                f in s && (s[f] == map[] ||
                           exists id :: id in s[f] && !(expire != 0 && s[f][id].lastSeen + expire < now))
    ensures r.Success? ==>
              forall f, id :: f in r.value.state ==>
                (id in r.value.state[f] <==>
                   id in s[f] && !(expire != 0 && s[f][id].lastSeen + expire < now))
    ensures r.Success? ==>
              forall f, id :: f in r.value.state && id in r.value.state[f] ==>
                r.value.state[f][id] == s[f][id]
  {
    if s == map[] then Success(Scrape(s, map[]))
    else
      match ParseMetricType(metricType)
      case Failure(e) => Failure(e)
      case Success(t) =>
        var state := Sweep(s, expire, now);
        var families := map f | f in s :: FamilySamples(f, t, "", Samples(f, Live(s[f], expire, now)));
        Success(Scrape(state, families))
  }
}
