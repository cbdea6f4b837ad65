/** Properties of the collector that relate several calls: the invariants `Add` and
    `Collect` keep, how a stream of records combines under each metric type, and what
    repeated scrapes see. */
module Properties {
  import opened Wrappers
  import opened Naming
  import opened Records
  import opened Collector

  /** Adding keeps every entry filed under its own identity, so a family never holds two
      entries for one identity. */
  lemma AddPreservesWellKeyed(s: State, topic: string, decoded: Option<Record>, metricType: string, now: int)
    requires WellKeyed(s)
    ensures WellKeyed(Add(s, topic, decoded, metricType, now))
  {
  }

  /** With a valid metric type, adding never leaves an empty family behind. */
  lemma AddPreservesNoEmptyFamilies(s: State, topic: string, decoded: Option<Record>, metricType: string, now: int)
    requires NoEmptyFamilies(s) && ParseMetricType(metricType).Success?
    ensures NoEmptyFamilies(Add(s, topic, decoded, metricType, now))
  {
  }

  /** With an invalid metric type, a record for a new family leaves that family behind,
      empty: the family is created before the type is read. */
  lemma InvalidTypeLeavesEmptyFamily(s: State, topic: string, r: Record, metricType: string, now: int)
    requires ParseMetricType(metricType).Failure? && FamilyName(topic, r.name) !in s
    ensures var s' := Add(s, topic, Some(r), metricType, now);
            FamilyName(topic, r.name) in s' && s'[FamilyName(topic, r.name)] == map[]
            && !NoEmptyFamilies(s')
  {
  }

  /** A family that is empty before a scrape is never removed by it (only families that
      lose their last entry are), and is emitted with no samples. */
  lemma EmptyFamilyIsKept(s: State, f: string, metricType: string, expire: int, now: int)
    requires f in s && s[f] == map[] && ParseMetricType(metricType).Success?
    ensures var r := Collect(s, metricType, expire, now);
            r.Success? && f in r.value.state && r.value.families[f].samples == map[]
  {
  }

  /** A scrape keeps every entry filed under its own identity and creates no empty
      family. */
  lemma CollectPreservesInvariants(s: State, metricType: string, expire: int, now: int)
    requires WellKeyed(s) && NoEmptyFamilies(s)
    requires Collect(s, metricType, expire, now).Success?
    ensures var s' := Collect(s, metricType, expire, now).value.state;
            WellKeyed(s') && NoEmptyFamilies(s')
  {
    var s' := Collect(s, metricType, expire, now).value.state;
    forall f | f in s'
      ensures s'[f] != map[]
    {
      var id :| id in s[f] && !Expired(s[f][id], expire, now);
      assert id in s'[f];
    }
  }

  /** When the state holds no empty family, the families a scrape emits without any
      sample are exactly those it has just removed. */
  lemma EmptyOutputMeansRemoved(s: State, metricType: string, expire: int, now: int, f: string)
    requires NoEmptyFamilies(s) && f in s
    requires Collect(s, metricType, expire, now).Success?
    ensures var sc := Collect(s, metricType, expire, now).value;
            sc.families[f].samples == map[] <==> f !in sc.state
  {
    var sc := Collect(s, metricType, expire, now).value;
    if sc.families[f].samples != map[] {
      var id :| id in sc.families[f].samples;
      assert !Expired(s[f][id], expire, now);
    }
  }

  /** With no time-to-live nothing is evicted: the state is unchanged and every entry is
      emitted. */
  lemma NoExpiryKeepsEverything(s: State, metricType: string, now: int)
    requires Collect(s, metricType, 0, now).Success?
    ensures var sc := Collect(s, metricType, 0, now).value;
            sc.state == s
            && forall f, id :: f in s && id in s[f] ==> id in sc.families[f].samples
  {
    var sc := Collect(s, metricType, 0, now).value;
    forall f | f in s
      ensures f in sc.state && sc.state[f] == s[f]
    {
      if s[f] != map[] {
        var id :| id in s[f];
        assert !Expired(s[f][id], 0, now);
      }
    }
  }

  /** The time-to-live boundary is strict: an entry touched at `t` survives a scrape at
      `t + expire` and is gone from one at `t + expire + 1`. */
  lemma ExpiryBoundary(family: Family, id: Identity, expire: int, t: int)
    requires id in family && family[id].lastSeen == t && expire != 0
    ensures id in Live(family, expire, t + expire)
    ensures id !in Live(family, expire, t + expire + 1)
  {
  }

  /** A scrape right after a scrape, at the same time, changes nothing: same state, and the
      same output for every family it emits. The families it no longer emits are the ones
      the first scrape removed, which that scrape emitted without samples. */
  lemma CollectIdempotent(s: State, metricType: string, expire: int, now: int)
    requires Collect(s, metricType, expire, now).Success?
    ensures var first := Collect(s, metricType, expire, now).value;
            var second := Collect(first.state, metricType, expire, now);
            && second.Success?
            && second.value.state == first.state
            && (forall f :: f in second.value.families ==> second.value.families[f] == first.families[f])
            && (forall f :: f in first.families && f !in second.value.families ==>
                  first.families[f].samples == map[])
  {
    var first := Collect(s, metricType, expire, now).value;
    SweptStateIsFixpoint(s, metricType, expire, now);
    var second := Collect(first.state, metricType, expire, now).value;
    forall f | f in second.families
      ensures second.families[f] == first.families[f]
    {
      SecondScrapeRepeatsFamily(s, metricType, expire, now, f);
    }
    forall f | f in first.families && f !in second.families
      ensures first.families[f].samples == map[]
    {
      RemovedFamilyHasNoSamples(s, metricType, expire, now, f);
    }
  }

  /** A family the second of two scrapes at the same time emits is emitted by it exactly as
      the first scrape emitted it. */
  lemma SecondScrapeRepeatsFamily(s: State, metricType: string, expire: int, now: int, f: string)
    requires Collect(s, metricType, expire, now).Success?
    requires var first := Collect(s, metricType, expire, now).value;
             var second := Collect(first.state, metricType, expire, now);
             second.Success? && second.value.state == first.state && f in second.value.families
    ensures var first := Collect(s, metricType, expire, now).value;
            Collect(first.state, metricType, expire, now).value.families[f] == first.families[f]
  {
    var first := Collect(s, metricType, expire, now).value;
    var second := Collect(first.state, metricType, expire, now).value;
    assert second.families[f].samples == first.families[f].samples;
  }

  /** Scraping the state a scrape left, at the same time, leaves it as it is. */
  lemma SweptStateIsFixpoint(s: State, metricType: string, expire: int, now: int)
    requires Collect(s, metricType, expire, now).Success?
    ensures var first := Collect(s, metricType, expire, now).value;
            var second := Collect(first.state, metricType, expire, now);
            second.Success? && second.value.state == first.state
  {
    var first := Collect(s, metricType, expire, now).value;
    if first.state != map[] {
      assert first.state == Sweep(s, expire, now);
      SweepIdempotent(s, expire, now);
    }
  }

  /** Sweeping twice at the same time sweeps once. */
  lemma SweepIdempotent(s: State, expire: int, now: int)
    ensures Sweep(Sweep(s, expire, now), expire, now) == Sweep(s, expire, now)
  {
    var once := Sweep(s, expire, now);
    forall f | f in once
      ensures Live(once[f], expire, now) == once[f] && !EvictedWhole(once[f], expire, now)
    {
      assert once[f] == Live(s[f], expire, now);
    }
  }

  /** A family a scrape drops from the state was emitted by it without samples. */
  lemma RemovedFamilyHasNoSamples(s: State, metricType: string, expire: int, now: int, f: string)
    requires Collect(s, metricType, expire, now).Success?
    requires f in s && f !in Collect(s, metricType, expire, now).value.state
    ensures Collect(s, metricType, expire, now).value.families[f].samples == map[]
  {
  }

  /** A family whose last entry a scrape evicts is removed: that scrape emits it with no
      samples, and the next scrape of the state it leaves (with no add in between, at any
      time and with any metric type) does not emit it. */
  lemma RemovedFamilyNotEmittedAgain(s: State, f: string, metricType: string, expire: int,
                                     now: int, later: int, laterType: string)
    requires f in s && s[f] != map[]
    requires forall id :: id in s[f] ==> expire != 0 && s[f][id].lastSeen + expire < now
    requires Collect(s, metricType, expire, now).Success?
    ensures var first := Collect(s, metricType, expire, now).value;
            && first.families[f].samples == map[]
            && f !in first.state
            && var second := Collect(first.state, laterType, expire, later);
               second.Success? ==> f !in second.value.families
  {
  }
}
