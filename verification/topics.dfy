/** The topic helpers of the MQTT client wrapper (`topic_match`,
    `topic_tokenise`, `topic_wildcard`): pure functions of `/`-separated topic
    strings. They are deliberately simple (substring test, first-segment
    wildcard) and the model keeps them so. */
module Topics {
  import opened Strings

  const Separator: char := '/'
  const SingleLevelSuffix: string := "/+"

  /** `topic_match(sub, topic)`: true exactly when `sub` is a substring of `topic`. */
  function TopicMatch(sub: string, topic: string): (b: bool)
    ensures b <==> exists i :: OccursAt(topic, sub, i)
  {
    ContainsOccurs(topic, sub);
    Contains(topic, sub)
  }

  /** `topic_tokenise(topic)`: the `/`-separated levels of the topic. */
  function TopicTokenise(topic: string): (levels: seq<string>)
    ensures |levels| == Count(topic, Separator) + 1
    ensures forall i :: 0 <= i < |levels| ==> Separator !in levels[i]
    ensures Join(levels, Separator) == topic
  {
    SplitCount(topic, Separator);
    JoinSplit(topic, Separator);
    Split(topic, Separator)
  }

  /** `topic_wildcard(topic)`: the first level followed by the single-level
      wildcard `"/+"`, e.g. `"sensors/42"` becomes `"sensors/+"`. */
  function TopicWildcard(topic: string): (w: string)
    ensures w == topic[..IndexOf(topic, Separator)] + SingleLevelSuffix
    ensures Separator !in topic ==> w == topic + SingleLevelSuffix
  {
    SplitHead(topic, Separator);
    TopicTokenise(topic)[0] + SingleLevelSuffix
  }

  /** Every topic matches itself. */
  lemma TopicMatchReflexive(topic: string)
    ensures TopicMatch(topic, topic)
  {
    assert OccursAt(topic, topic, 0);
  }

  /** Despite its documentation ("check if topic start with sub"), a match need
      not be a prefix: `"42"` matches `"sensors/42"`. */
  lemma TopicMatchNotPrefix()
    ensures TopicMatch("42", "sensors/42")
    ensures !("42" <= "sensors/42")
  {
    assert OccursAt("sensors/42", "42", 8);
    assert "sensors/42"[0] != "42"[0];
  }

  /** Every prefix is a match. */
  lemma TopicMatchPrefix(sub: string, topic: string)
    requires sub <= topic
    ensures TopicMatch(sub, topic)
  {
    assert OccursAt(topic, sub, 0);
  }

  /** Wildcarding a wildcard changes nothing. */
  lemma TopicWildcardIdempotent(topic: string)
    ensures TopicWildcard(TopicWildcard(topic)) == TopicWildcard(topic)
  {
    var head := topic[..IndexOf(topic, Separator)];
    var w := head + SingleLevelSuffix;
    assert Separator !in head;
    assert w[|head|] == Separator;
    assert IndexOf(w, Separator) == |head|;
    assert w[..|head|] == head;
  }

  /** A topic whose first level is `first` wildcards to `first + "/+"`,
      whatever follows: all of `sensors/…` share one wildcard key. */
  lemma TopicWildcardOfLevels(first: string, rest: string)
    requires Separator !in first
    ensures TopicWildcard(first + [Separator] + rest) == first + SingleLevelSuffix
  {
    var t := first + [Separator] + rest;
    assert t[|first|] == Separator;
    assert IndexOf(t, Separator) == |first|;
    assert t[..|first|] == first;
  }

  /** `"sensors/42"` has wildcard key `"sensors/+"`. */
  lemma TopicWildcardExample(t: string)
    requires t == "sensors/42"
    ensures TopicWildcard(t) == "sensors/+"
  {
    assert t[7] == Separator;
    assert forall j :: 0 <= j < 7 ==> t[j] != Separator;
    assert IndexOf(t, Separator) == 7;
    assert t[..7] == "sensors";
  }
}
