/** Derivation of a metric family name from a stream topic and a record name
    (KafkaCollector.add, the first statements after decoding). */
module Naming {

  /** The topic or record name with every '.' replaced by '_' (a regular-expression
      replaceAll on an escaped dot, so only the literal dot is touched). */
  function Sanitize(s: string): (r: string)
    ensures |r| == |s|
    ensures forall i :: 0 <= i < |s| ==> r[i] == (if s[i] == '.' then '_' else s[i])
    ensures '.' !in r
  {
    seq(|s|, i requires 0 <= i < |s| => if s[i] == '.' then '_' else s[i])
  }

  /** True when a name begins with the separator '_'. */
  predicate LeadingUnderscore(s: string) {
    |s| > 0 && s[0] == '_'
  }

  /** The family name: sanitized topic, '_', sanitized record name, with ONE leading '_'
      dropped when the joined string starts with one. */
  function FamilyName(topic: string, name: string): (r: string)
    ensures '.' !in r
    ensures |r| == |topic| + 1 + |name| - (if topic == "" || topic[0] == '.' || topic[0] == '_' then 1 else 0)
  {
    var joined := Sanitize(topic) + "_" + Sanitize(name);
    if LeadingUnderscore(joined) then joined[1..] else joined
  }

  /** Sanitizing is idempotent, and a name without dots is left as it is. */
  lemma SanitizeIdempotent(s: string)
    ensures Sanitize(Sanitize(s)) == Sanitize(s)
    ensures '.' !in s ==> Sanitize(s) == s
  {
  }

  /** The family name by cases on the topic's first character: an empty topic gives the
      bare sanitized record name, a topic starting with '.' or '_' loses that character,
      any other topic is joined as it is. */
  lemma FamilyNameCases(topic: string, name: string)
    ensures topic == "" ==> FamilyName(topic, name) == Sanitize(name)
    ensures topic != "" && topic[0] != '.' && topic[0] != '_' ==>
              FamilyName(topic, name) == Sanitize(topic) + "_" + Sanitize(name)
    ensures topic != "" && (topic[0] == '.' || topic[0] == '_') ==>
              FamilyName(topic, name) == Sanitize(topic[1..]) + "_" + Sanitize(name)
  {
  }

  /** Only one leading '_' is stripped: the family name still starts with '_' exactly when
      the joined name starts with two of them, that is, when the topic is empty and the
      record name starts with a dot or '_', or the topic is one such character, or the
      topic's first two characters are both such characters. */
  lemma FamilyNameLeadingUnderscore(topic: string, name: string)
    ensures LeadingUnderscore(FamilyName(topic, name)) <==>
              || (topic == "" && name != "" && (name[0] == '.' || name[0] == '_'))
              || (|topic| == 1 && (topic[0] == '.' || topic[0] == '_'))
              || (|topic| >= 2 && (topic[0] == '.' || topic[0] == '_')
                               && (topic[1] == '.' || topic[1] == '_'))
  {
    var r := FamilyName(topic, name);
    FamilyNameCases(topic, name);
    if topic == "" {
      assert r == Sanitize(name);
    } else if topic[0] == '.' || topic[0] == '_' {
      assert r == Sanitize(topic[1..]) + "_" + Sanitize(name);
      if |topic| >= 2 {
        assert r[0] == Sanitize(topic[1..])[0];
      }
    } else {
      assert r[0] == Sanitize(topic)[0];
    }
  }

  /** Different topic and record-name pairs can share one family: only the joined,
      sanitized text matters. */
  lemma FamilyNamesCollide()
    ensures FamilyName("a.b", "c") == FamilyName("a", "b.c") == "a_b_c"
  {
  }

  /** The family names the collector's tests expect, for a plain and a dotted record name. */
  lemma FamilyNameExamples()
    ensures FamilyName("test.hoge", "foo") == "test_hoge_foo"
    ensures FamilyName("test.hoge", "test.foo") == "test_hoge_test_foo"
  {
  }

  /** The two edge cases of the code: an empty record name leaves a trailing '_', and an
      empty topic with a record name starting with '.' still yields a leading '_'. */
  lemma FamilyNameEdgeCases()
    ensures FamilyName("test.hoge", "") == "test_hoge_"
    ensures FamilyName("", ".x") == "_x"
  {
  }
}
