/**
 * Topic handling of the MQTT request/response layer: the level-by-level
 * topic-filter matcher (after section 4.7.1 of OASIS MQTT Version 3.1.1, with
 * the deviations the bot's code has) and the request/response topic names.
 */
module Mqtt {
  import Text

  const LevelSeparator: char := '/'
  const MultiLevel: string := "#"
  const SingleLevel: string := "+"

  /** Go's `strings.Split(s, "/")`: n separators give n + 1 levels, "" gives [""]. */
  function Split(s: string): (levels: seq<string>)
    ensures |levels| >= 1
    ensures forall k :: 0 <= k < |levels| ==> LevelSeparator !in levels[k]
    decreases |s|
  {
    if s == [] then [""]
    else if s[0] == LevelSeparator then [""] + Split(s[1..])
    else
      var rest := Split(s[1..]);
      [[s[0]] + rest[0]] + rest[1..]
  }

  /** Splitting loses nothing: joining the levels with "/" gives the topic back. */
  lemma {:induction false} JoinSplit(s: string)
    ensures Text.Join(Split(s), [LevelSeparator]) == s
    decreases |s|
  {
    if s != [] {
      JoinSplit(s[1..]);
      var rest := Split(s[1..]);
      if s[0] != LevelSeparator && |rest| > 1 {
        assert ([[s[0]] + rest[0]] + rest[1..])[1..] == rest[1..];
      }
    }
  }

  /** Two topics with the same levels are the same topic. */
  lemma SplitInjective(a: string, b: string)
    requires Split(a) == Split(b)
    ensures a == b
  {
    JoinSplit(a);
    JoinSplit(b);
  }

  /**
   * What `topicMatch` decides, level by level: `#` accepts whatever is left
   * (including nothing), a missing topic level rejects, `+` accepts any one
   * level (the empty level too), any other level must be equal, and an
   * exhausted pattern needs an exhausted topic. Nothing checks that `#` is the
   * last level, and topics beginning with `$` get no special treatment.
   */
  ghost predicate LevelsMatch(pattern: seq<string>, topic: seq<string>)
    decreases |pattern|
  {
    if pattern == [] then topic == []
    else if pattern[0] == MultiLevel then true
    else if topic == [] then false
    else (pattern[0] == SingleLevel || pattern[0] == topic[0]) && LevelsMatch(pattern[1..], topic[1..])
  }

  /** `topicMatch(pattern, topic)`: the index loop over the split levels, with its early returns. */
  method TopicMatch(pattern: string, topic: string) returns (matched: bool)
    ensures matched == LevelsMatch(Split(pattern), Split(topic))
  {
    var patternParts := Split(pattern);
    var topicParts := Split(topic);
    var patternLen := |patternParts|;
    var topicLen := |topicParts|;
    var i := 0;
    while i < patternLen
      invariant 0 <= i <= patternLen && i <= topicLen
      invariant LevelsMatch(patternParts, topicParts) == LevelsMatch(patternParts[i..], topicParts[i..])
    {
      if patternParts[i] == MultiLevel {
        return true;
      }
      if i >= topicLen {
        return false;
      }
      if patternParts[i] == SingleLevel {
        assert patternParts[i..][1..] == patternParts[i + 1..];
        assert topicParts[i..][1..] == topicParts[i + 1..];
        i := i + 1;
        continue;
      }
      if patternParts[i] != topicParts[i] {
        return false;
      }
      assert patternParts[i..][1..] == patternParts[i + 1..];
      assert topicParts[i..][1..] == topicParts[i + 1..];
      i := i + 1;
    }
    return patternLen == topicLen;
  }

  /** Every filter matches itself. */
  lemma {:induction false} MatchReflexive(levels: seq<string>)
    ensures LevelsMatch(levels, levels)
    decreases |levels|
  {
    if levels != [] && levels[0] != MultiLevel {
      MatchReflexive(levels[1..]);
    }
  }

  predicate WildcardFree(levels: seq<string>)
  {
    forall k :: 0 <= k < |levels| ==> levels[k] != MultiLevel && levels[k] != SingleLevel
  }

  /** Without wildcards, matching is level-wise equality. */
  lemma {:induction false} WildcardFreeMatch(pattern: seq<string>, topic: seq<string>)
    requires WildcardFree(pattern)
    ensures LevelsMatch(pattern, topic) <==> pattern == topic
    decreases |pattern|
  {
    if pattern != [] && topic != [] {
      WildcardFreeMatch(pattern[1..], topic[1..]);
      if pattern[0] == topic[0] && pattern[1..] == topic[1..] {
        assert pattern == [pattern[0]] + pattern[1..];
        assert topic == [topic[0]] + topic[1..];
      }
    }
  }

  /** For a filter string whose levels carry no wildcard, `topicMatch` is string equality. */
  lemma WildcardFreeTopicMatch(pattern: string, topic: string)
    requires WildcardFree(Split(pattern))
    ensures LevelsMatch(Split(pattern), Split(topic)) <==> pattern == topic
  {
    WildcardFreeMatch(Split(pattern), Split(topic));
    if Split(pattern) == Split(topic) {
      SplitInjective(pattern, topic);
    }
  }

  /** A `+` at level i accepts any replacement of topic level i, the empty level included. */
  lemma {:induction false} SingleLevelAnyValue(pattern: seq<string>, topic: seq<string>, i: nat, level: string)
    requires i < |pattern| && i < |topic| && pattern[i] == SingleLevel
    requires LevelsMatch(pattern, topic)
    ensures LevelsMatch(pattern, topic[i := level])
    decreases i
  {
    if pattern[0] != MultiLevel {
      if i == 0 {
        assert topic[i := level][1..] == topic[1..];
      } else {
        SingleLevelAnyValue(pattern[1..], topic[1..], i - 1, level);
        assert topic[i := level][1..] == topic[1..][i - 1 := level];
      }
    }
  }

  /**
   * A `#` at level i accepts every topic whose first i levels match the first
   * i pattern levels, whatever follows (nothing included).
   */
  lemma {:induction false} MultiLevelAcceptsRest(pattern: seq<string>, topic: seq<string>, i: nat)
    requires i < |pattern| && pattern[i] == MultiLevel && i <= |topic|
    requires LevelsMatch(pattern[..i], topic[..i])
    ensures LevelsMatch(pattern, topic)
    decreases i
  {
    if i > 0 && pattern[0] != MultiLevel {
      assert pattern[..i][1..] == pattern[1..][..i - 1];
      assert topic[..i][1..] == topic[1..][..i - 1];
      MultiLevelAcceptsRest(pattern[1..], topic[1..], i - 1);
    }
  }

  /** Without a `#`, a pattern and a topic of different level counts never match. */
  lemma {:induction false} LevelCountMismatch(pattern: seq<string>, topic: seq<string>)
    requires forall k :: 0 <= k < |pattern| ==> pattern[k] != MultiLevel
    requires |pattern| != |topic|
    ensures !LevelsMatch(pattern, topic)
    decreases |pattern|
  {
    if pattern != [] && topic != [] {
      LevelCountMismatch(pattern[1..], topic[1..]);
    }
  }

  // ---------------------------------------------------------------------
  // Request / response topic names

  const RequestPrefix: string := "pancy/request/"
  const ResponsePrefix: string := "pancy/response/"

  /** The topic `Request` publishes on, and the one `On` subscribes to. */
  function RequestTopic(topic: string): (r: string)
    ensures RequestPrefix <= r && |r| == |RequestPrefix| + |topic|
  {
    RequestPrefix + topic
  }

  /** The reply topic, unique per correlation ID. */
  function ResponseTopic(topic: string, correlationId: string): (r: string)
    ensures ResponsePrefix <= r
    ensures r[|ResponsePrefix|..] == topic + [LevelSeparator] + correlationId
  {
    ResponsePrefix + topic + [LevelSeparator] + correlationId
  }

  /** The reply topic the `On` handler computes from the topic a request arrived on. */
  function HandlerResponseTopic(receivedTopic: string, correlationId: string): string
  {
    ResponseTopic(Text.TrimPrefix(receivedTopic, RequestPrefix), correlationId)
  }

  /**
   * A handler that receives a request published by `Request` answers on the
   * very topic `Request` waits on.
   */
  lemma HandlerAnswersRequester(topic: string, correlationId: string)
    ensures HandlerResponseTopic(RequestTopic(topic), correlationId) == ResponseTopic(topic, correlationId)
  {
    assert Text.TrimPrefix(RequestTopic(topic), RequestPrefix) == topic;
  }
}
