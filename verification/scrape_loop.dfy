/** The scrape as the source writes it: a walk over the families and, inside each, over
    its entries, removing expired entries (and a family at its last entry) while the
    samples of the others are collected. Proved to compute `Collector.Collect`. */
module ScrapeLoop {
  import opened Wrappers
  import opened Records
  import opened Collector

  /** The inner loop for family `f`: evicts the expired entries of `family` one at a time
      and generates a sample for each surviving one. */
  method SweepFamily(f: string, family: Family, expire: int, now: int)
    returns (live: Family, samples: map<Identity, Sample>)
    ensures live == Live(family, expire, now)
    ensures samples == Samples(f, live)
  {
    live := family;
    samples := map[];
    var pending := family.Keys;
    while pending != {}
      invariant pending <= family.Keys
      invariant forall id :: id in live <==> id in family && (id in pending || !Expired(family[id], expire, now))
      invariant forall id :: id in live ==> live[id] == family[id]
      invariant forall id :: id in samples <==> id in family && id !in pending && !Expired(family[id], expire, now)
      invariant forall id :: id in samples ==> samples[id] == GenerateSample(f, family[id].record)
      decreases pending
    {
      var id :| id in pending;
      if Expired(family[id], expire, now) {
        live := live - {id};
      } else {
        samples := samples[id := GenerateSample(f, family[id].record)];
      }
      pending := pending - {id};
    }
  }

  /** The outer loop: each family is swept, removed from the state when the sweep emptied
      a family that had entries, and emitted; the metric type is read once per family. */
  method CollectLoop(s: State, metricType: string, expire: int, now: int) returns (r: Result<Scrape, Error>)
    ensures r == Collect(s, metricType, expire, now)
  {
    var state := s;
    var families: map<string, FamilySamples> := map[];
    var pending := s.Keys;
    while pending != {}
      invariant Visited(s, metricType, expire, now, pending, state, families)
      decreases pending
    {
      var f :| f in pending;
      var live, samples := SweepFamily(f, s[f], expire, now);
      var state' := if s[f] != map[] && live == map[] then state - {f} else state[f := live];
      var t := ParseMetricType(metricType);
      if t.Failure? {
        assert s != map[] by { assert f in s; }
        return Failure(t.error);
      }
      var families' := families[f := FamilySamples(f, t.value, "", samples)];
      VisitStep(s, metricType, expire, now, pending, state, families, f, live, samples);
      state, families, pending := state', families', pending - {f};
    }
    if s == map[] {
      assert state == s && families == map[];
    } else {
      FinishedLoop(s, metricType, expire, now, state, families);
    }
    r := Success(Scrape(state, families));
  }

  /** The outer loop's invariant: the families not in `pending` have been swept in `state`
      and emitted in `families`; the others are as they were. */
  ghost predicate Visited(s: State, metricType: string, expire: int, now: int, pending: set<string>,
                          state: State, families: map<string, FamilySamples>)
  {
    && pending <= s.Keys
    && families.Keys == s.Keys - pending
    && (forall g :: g in families ==>
          && ParseMetricType(metricType).Success?
          && families[g] == FamilySamples(g, ParseMetricType(metricType).value, "",
                                          Samples(g, Live(s[g], expire, now))))
    && (forall g :: g in state <==> g in pending || (g in s && !EvictedWhole(s[g], expire, now)))
    && (forall g :: g in state && g in pending ==> state[g] == s[g])
    && (forall g :: g in state && g !in pending ==> state[g] == Live(s[g], expire, now))
  }

  /** Visiting one more family keeps the invariant. */
  lemma VisitStep(s: State, metricType: string, expire: int, now: int, pending: set<string>,
                  state: State, families: map<string, FamilySamples>,
                  f: string, live: Family, samples: map<Identity, Sample>)
    requires Visited(s, metricType, expire, now, pending, state, families)
    requires f in pending && ParseMetricType(metricType).Success?
    requires live == Live(s[f], expire, now) && samples == Samples(f, live)
    ensures Visited(s, metricType, expire, now, pending - {f},
                    if s[f] != map[] && live == map[] then state - {f} else state[f := live],
                    families[f := FamilySamples(f, ParseMetricType(metricType).value, "", samples)])
  {
  }

  /** Once every family has been visited, the loop's state and output are the scrape's. */
  lemma FinishedLoop(s: State, metricType: string, expire: int, now: int,
                     state: State, families: map<string, FamilySamples>)
    requires s != map[] && ParseMetricType(metricType).Success?
    requires Visited(s, metricType, expire, now, {}, state, families)
    ensures Collect(s, metricType, expire, now) == Success(Scrape(state, families))
  {
    var t := ParseMetricType(metricType).value;
    StateIsSweep(s, expire, now, state);
    FamiliesAreEmitted(s, t, expire, now, families);
  }

  /** The loop's final state is the swept state. */
  lemma StateIsSweep(s: State, expire: int, now: int, state: State)
    requires forall g :: g in state <==> g in s && !EvictedWhole(s[g], expire, now)
    requires forall g :: g in state ==> state[g] == Live(s[g], expire, now)
    ensures state == Sweep(s, expire, now)
  {
  }

  /** The loop's output holds every family's samples. */
  lemma FamiliesAreEmitted(s: State, t: MetricType, expire: int, now: int, families: map<string, FamilySamples>)
    requires families.Keys == s.Keys
    requires forall g :: g in families ==>
               families[g] == FamilySamples(g, t, "", Samples(g, Live(s[g], expire, now)))
    ensures families == map g | g in s :: FamilySamples(g, t, "", Samples(g, Live(s[g], expire, now)))
  {
  }
}
