/**
 * Queue names. A topical queue is named `prefix + "_" + topic`; the topic of a
 * queue is recovered as the last `_`-separated segment of its name, as Python's
 * `name.split("_")[-1]` does.
 */
module QueueNames {

  /** The character that joins a prefix to a topic. */
  const DELIMITER: char := '_'

  /** The topic every queue registers and `put` uses when none is given. */
  const DEFAULT_TOPIC: string := "default"

  /**
   * Python's `s.split(d)`: the maximal runs of `s` between occurrences of `d`.
   * There is always at least one segment (possibly empty), and no segment
   * contains the delimiter.
   */
  function Split(s: string, d: char): (r: seq<string>)
    ensures |r| >= 1
    ensures forall i :: 0 <= i < |r| ==> d !in r[i]
    decreases |s|
  {
    if |s| == 0 then [""]
    else
      var rest := Split(s[1..], d);
      if s[0] == d then [""] + rest
      else [[s[0]] + rest[0]] + rest[1..]
  }

  /** Python's `d.join(segments)`, the inverse of `Split`. */
  function Join(segments: seq<string>, d: char): string
    requires |segments| >= 1
    decreases |segments|
  {
    if |segments| == 1 then segments[0]
    else segments[0] + [d] + Join(segments[1..], d)
  }

  /** Joining the segments of a split gives back the original string. */
  lemma {:induction false} JoinSplit(s: string, d: char)
    ensures Join(Split(s, d), d) == s
    decreases |s|
  {
    if |s| > 0 {
      var rest := Split(s[1..], d);
      JoinSplit(s[1..], d);
      if s[0] == d {
        assert ([""] + rest)[1..] == rest;
      } else {
        var r := [[s[0]] + rest[0]] + rest[1..];
        assert r[1..] == rest[1..];
        if |rest| > 1 {
          assert Join(rest, d) == rest[0] + [d] + Join(rest[1..], d);
        }
        assert Join(r, d) == [s[0]] + Join(rest, d);
        assert s == [s[0]] + s[1..];
      }
    }
  }

  /** A string without the delimiter splits into itself alone. */
  lemma {:induction false} SplitWithoutDelimiter(t: string, d: char)
    requires d !in t
    ensures Split(t, d) == [t]
    decreases |t|
  {
    if |t| > 0 {
      assert d !in t[1..] by {
        forall i | 0 <= i < |t[1..]| ensures t[1..][i] != d {
          assert t[1..][i] == t[i + 1];
        }
      }
      SplitWithoutDelimiter(t[1..], d);
      assert [t[0]] + t[1..] == t;
    }
  }

  /** Splitting at a delimiter splits the two sides independently. */
  lemma {:induction false} SplitConcat(a: string, b: string, d: char)
    ensures Split(a + [d] + b, d) == Split(a, d) + Split(b, d)
    decreases |a|
  {
    var s := a + [d] + b;
    if |a| == 0 {
      assert s == [d] + b;
      assert s[1..] == b;
    } else {
      assert s[0] == a[0];
      assert s[1..] == a[1..] + [d] + b;
      var tail := Split(a[1..], d);
      var rest := Split(s[1..], d);
      var right := Split(b, d);
      SplitConcat(a[1..], b, d);
      assert rest == tail + right;
      if a[0] == d {
        assert Split(s, d) == [""] + rest;
        assert Split(a, d) == [""] + tail;
      } else {
        assert Split(s, d) == [[a[0]] + rest[0]] + rest[1..];
        assert Split(a, d) == [[a[0]] + tail[0]] + tail[1..];
        assert rest[0] == tail[0];
        assert rest[1..] == tail[1..] + right;
      }
    }
  }

  /** Splitting the join of delimiter-free segments gives back the segments. */
  lemma {:induction false} SplitJoin(segments: seq<string>, d: char)
    requires |segments| >= 1
    requires forall i :: 0 <= i < |segments| ==> d !in segments[i]
    ensures Split(Join(segments, d), d) == segments
    decreases |segments|
  {
    SplitWithoutDelimiter(segments[0], d);
    if |segments| > 1 {
      SplitJoin(segments[1..], d);
      SplitConcat(segments[0], Join(segments[1..], d), d);
      assert [segments[0]] + segments[1..] == segments;
    }
  }

  /** The name of the queue that holds `topic` under `prefix` (`f'{prefix}_{topic}'`). */
  function QueueName(prefix: string, topic: string): string {
    prefix + [DELIMITER] + topic
  }

  /** The topic recovered from a queue name: `queue.split("_")[-1]`. */
  function TopicOf(queue: string): (r: string)
    ensures DELIMITER !in r
  {
    var parts := Split(queue, DELIMITER);
    parts[|parts| - 1]
  }

  /** The set of queue names of a set of topics under one prefix. */
  function FamilyNames(prefix: string, topics: set<string>): set<string> {
    set t | t in topics :: QueueName(prefix, t)
  }

  /**
   * The last segment of `prefix_topic` is `topic` whenever the topic has no
   * delimiter, however many delimiters the prefix holds (`name_inputs`).
   */
  lemma TopicOfQueueName(prefix: string, topic: string)
    requires DELIMITER !in topic
    ensures TopicOf(QueueName(prefix, topic)) == topic
  {
    SplitConcat(prefix, topic, DELIMITER);
    SplitWithoutDelimiter(topic, DELIMITER);
  }

  /** The segments of a queue name are those of its prefix followed by the topic. */
  lemma SplitQueueName(prefix: string, topic: string)
    requires DELIMITER !in topic
    ensures Split(QueueName(prefix, topic), DELIMITER) == Split(prefix, DELIMITER) + [topic]
  {
    SplitConcat(prefix, topic, DELIMITER);
    SplitWithoutDelimiter(topic, DELIMITER);
  }

  /**
   * A topic with the delimiter in it is not recovered from its queue name:
   * what is read back from `prefix_topic` is only the topic's own last
   * segment, never the topic (from `inputs_a_b` comes `b`, not `a_b`).
   */
  lemma {:induction false} UnderscoreTopicIsTruncated(prefix: string, topic: string)
    requires DELIMITER in topic
    ensures TopicOf(QueueName(prefix, topic)) == TopicOf(topic)
    ensures TopicOf(QueueName(prefix, topic)) != topic
  {
    SplitConcat(prefix, topic, DELIMITER);
    var left := Split(prefix, DELIMITER);
    var right := Split(topic, DELIMITER);
    assert (left + right)[|left + right| - 1] == right[|right| - 1];
  }

  /** Under one prefix, distinct topics have distinct queue names. */
  lemma QueueNameInjective(prefix: string, t1: string, t2: string)
    ensures QueueName(prefix, t1) == QueueName(prefix, t2) <==> t1 == t2
  {
    assert QueueName(prefix, t1)[|prefix| + 1..] == t1;
    assert QueueName(prefix, t2)[|prefix| + 1..] == t2;
  }

  /** A name is among the queue names of `topics` exactly when its topic is registered. */
  lemma InFamilyNames(prefix: string, topic: string, topics: set<string>)
    ensures QueueName(prefix, topic) in FamilyNames(prefix, topics) <==> topic in topics
  {
    if QueueName(prefix, topic) in FamilyNames(prefix, topics) {
      var t :| t in topics && QueueName(prefix, topic) == QueueName(prefix, t);
      QueueNameInjective(prefix, topic, t);
    }
  }
}
