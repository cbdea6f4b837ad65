/** What a stream of records leaves in the collector: in counter mode the stored value of
    an identity is the sum of the values sent for it, in gauge mode it is the last one
    sent; records that failed to decode change nothing. */
module Streams {
  import opened Wrappers
  import opened Naming
  import opened Records
  import opened Collector

  /** Files the decoder's results for one topic, in order, each at time `now`. */
  function AddAll(s: State, topic: string, rs: seq<Option<Record>>, metricType: string, now: int): State
  {
    if rs == [] then s
    else Add(AddAll(s, topic, rs[..|rs| - 1], metricType, now), topic, rs[|rs| - 1], metricType, now)
  }

  /** The sum of the values of the decoded records of identity `id`. */
  function SumFor(rs: seq<Option<Record>>, id: Identity): real {
    if rs == [] then 0.0
    else
      var last := rs[|rs| - 1];
      SumFor(rs[..|rs| - 1], id)
        + (if last.Some? && IdentityOf(last.value) == id then last.value.value else 0.0)
  }

  /** The value of the last decoded record of identity `id`, or `default` when there is
      none. */
  function LastFor(rs: seq<Option<Record>>, id: Identity, default: real): real {
    if rs == [] then default
    else
      var last := rs[|rs| - 1];
      if last.Some? && IdentityOf(last.value) == id then last.value.value
      else LastFor(rs[..|rs| - 1], id, default)
  }

  /** Counter mode: the stored value of every identity grows by the sum of the values sent
      for it; records of other identities and records that failed to decode do not touch
      it. */
  lemma {:induction false} CounterSums(s: State, topic: string, rs: seq<Option<Record>>, now: int, id: Identity)
    ensures StoredValue(AddAll(s, topic, rs, "counter", now), FamilyName(topic, id.name), id)
            == StoredValue(s, FamilyName(topic, id.name), id) + SumFor(rs, id)
  {
    if rs != [] {
      var prefix := rs[..|rs| - 1];
      CounterSums(s, topic, prefix, now, id);
      var last := rs[|rs| - 1];
      if last.None? || IdentityOf(last.value) != id {
        AddOthersUntouched(AddAll(s, topic, prefix, "counter", now), topic, last, "counter", now,
                           FamilyName(topic, id.name), id);
      }
    }
  }

  /** Gauge mode: the stored value of every identity is the value of the last record sent
      for it, whatever was stored before. */
  lemma {:induction false} GaugeLastWins(s: State, topic: string, rs: seq<Option<Record>>, now: int, id: Identity)
    ensures StoredValue(AddAll(s, topic, rs, "gauge", now), FamilyName(topic, id.name), id)
            == LastFor(rs, id, StoredValue(s, FamilyName(topic, id.name), id))
  {
    if rs != [] {
      var prefix := rs[..|rs| - 1];
      GaugeLastWins(s, topic, prefix, now, id);
      var last := rs[|rs| - 1];
      if last.None? || IdentityOf(last.value) != id {
        AddOthersUntouched(AddAll(s, topic, prefix, "gauge", now), topic, last, "gauge", now,
                           FamilyName(topic, id.name), id);
      }
    }
  }

  /** Adding a record leaves the stored value of every other identity, in every family,
      as it was. */
  lemma AddOthersUntouched(s: State, topic: string, decoded: Option<Record>, metricType: string,
                           now: int, f: string, id: Identity)
    requires decoded.None? || IdentityOf(decoded.value) != id || f != FamilyName(topic, id.name)
    ensures StoredValue(Add(s, topic, decoded, metricType, now), f, id) == StoredValue(s, f, id)
  {
  }

  /** `n` records of one identity, each with value 1, sent in counter mode to a collector
      that has no entry for it, leave the stored value `n`: no update is lost. */
  lemma CounterCountsEveryRecord(s: State, topic: string, r: Record, n: nat, now: int)
    requires r.value == 1.0 && IdentityOf(r) !in FamilyOf(s, FamilyName(topic, r.name))
    ensures var rs := seq(n, _ => Some(r));
            StoredValue(AddAll(s, topic, rs, "counter", now), FamilyName(topic, r.name), IdentityOf(r))
              == n as real
  {
    var rs := seq(n, _ => Some(r));
    CounterSums(s, topic, rs, now, IdentityOf(r));
    SumOfOnes(r, n);
  }

  /** The sum over `n` copies of a record of value 1 is `n`. */
  lemma {:induction false} SumOfOnes(r: Record, n: nat)
    requires r.value == 1.0
    ensures SumFor(seq(n, _ => Some(r)), IdentityOf(r)) == n as real
  {
    if n > 0 {
      var rs := seq(n, _ => Some(r));
      assert rs[..n - 1] == seq(n - 1, _ => Some(r));
      SumOfOnes(r, n - 1);
    }
  }

  /** Counter mode is order-independent: two records added in either order leave the same
      families, the same identities and the same stored values. */
  lemma CounterAddsCommute(s: State, topic: string, a: Record, b: Record, now: int)
    ensures var ab := Add(Add(s, topic, Some(a), "counter", now), topic, Some(b), "counter", now);
            var ba := Add(Add(s, topic, Some(b), "counter", now), topic, Some(a), "counter", now);
            && ab.Keys == ba.Keys
            && (forall f :: f in ab ==> ab[f].Keys == ba[f].Keys)
            && forall f, id :: StoredValue(ab, f, id) == StoredValue(ba, f, id)
  {
    CommutedKeys(s, topic, a, b, now);
    CommutedValues(s, topic, a, b, now);
  }

  /** The families and identities half of CounterAddsCommute. */
  lemma CommutedKeys(s: State, topic: string, a: Record, b: Record, now: int)
    ensures var ab := Add(Add(s, topic, Some(a), "counter", now), topic, Some(b), "counter", now);
            var ba := Add(Add(s, topic, Some(b), "counter", now), topic, Some(a), "counter", now);
            && ab.Keys == ba.Keys
            && forall f :: f in ab ==> ab[f].Keys == ba[f].Keys
  {
    var ab := Add(Add(s, topic, Some(a), "counter", now), topic, Some(b), "counter", now);
    var ba := Add(Add(s, topic, Some(b), "counter", now), topic, Some(a), "counter", now);
    var fa, fb := FamilyName(topic, a.name), FamilyName(topic, b.name);
    assert ab.Keys == s.Keys + {fa} + {fb} == ba.Keys;
    forall f | f in ab
      ensures ab[f].Keys == ba[f].Keys
    {
      CommutedFamily(s, topic, a, b, now, f);
    }
  }

  /** CommutedKeys for one family name. */
  lemma CommutedFamily(s: State, topic: string, a: Record, b: Record, now: int, f: string)
    ensures var ab := Add(Add(s, topic, Some(a), "counter", now), topic, Some(b), "counter", now);
            var ba := Add(Add(s, topic, Some(b), "counter", now), topic, Some(a), "counter", now);
            && (f in ab <==> f in ba)
            && (f in ab ==> ab[f].Keys == ba[f].Keys)
  {
    var sa, sb := Add(s, topic, Some(a), "counter", now), Add(s, topic, Some(b), "counter", now);
    CounterKeysStep(s, topic, a, now, f);
    CounterKeysStep(s, topic, b, now, f);
    CounterKeysStep(sa, topic, b, now, f);
    CounterKeysStep(sb, topic, a, now, f);
  }

  /** The stored-values half of CounterAddsCommute. */
  lemma CommutedValues(s: State, topic: string, a: Record, b: Record, now: int)
    ensures var ab := Add(Add(s, topic, Some(a), "counter", now), topic, Some(b), "counter", now);
            var ba := Add(Add(s, topic, Some(b), "counter", now), topic, Some(a), "counter", now);
            forall f, id :: StoredValue(ab, f, id) == StoredValue(ba, f, id)
  {
    var sa, sb := Add(s, topic, Some(a), "counter", now), Add(s, topic, Some(b), "counter", now);
    forall f, id
      ensures StoredValue(Add(sa, topic, Some(b), "counter", now), f, id)
              == StoredValue(Add(sb, topic, Some(a), "counter", now), f, id)
    {
      CounterValueStep(s, topic, a, now, f, id);
      CounterValueStep(s, topic, b, now, f, id);
      CounterValueStep(sa, topic, b, now, f, id);
      CounterValueStep(sb, topic, a, now, f, id);
    }
  }

  /** One counter add raises the stored value of the record's identity, in the record's
      family, by the record's value, and no other. */
  lemma CounterValueStep(s: State, topic: string, r: Record, now: int, f: string, id: Identity)
    ensures StoredValue(Add(s, topic, Some(r), "counter", now), f, id)
            == StoredValue(s, f, id)
               + (if f == FamilyName(topic, r.name) && id == IdentityOf(r) then r.value else 0.0)
  {
  }

  /** One counter add creates the record's family if missing and adds the record's identity
      to it, and nothing else. */
  lemma CounterKeysStep(s: State, topic: string, r: Record, now: int, f: string)
    ensures var s' := Add(s, topic, Some(r), "counter", now);
            && (f in s' <==> f in s || f == FamilyName(topic, r.name))
            && (f in s' ==> s'[f].Keys == FamilyOf(s, f).Keys
                                         + (if f == FamilyName(topic, r.name) then {IdentityOf(r)} else {}))
  {
  }
}
