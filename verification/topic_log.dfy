/** Per-topic message logs: the map from topic name to the append-only
    sequence of payloads that the store keeps, and the appends the store
    performs on it. */
module TopicLog {

  /** One byte of a payload. */
  newtype byte = x: int | 0 <= x < 256

  /** A message payload: an opaque byte sequence. */
  type Msg = seq<byte>

  /** The store's topic map: topic name to its log, oldest message first. */
  type Topics = map<string, seq<Msg>>

  /** The one error the store reports ("topic does not exist"). */
  datatype Error = TopicNotFound

  datatype Result<T> = Ok(value: T) | Err(error: Error)

  /** The event handed to every open subscription when a message is stored. */
  datatype MessageEvent = MessageEvent(topic: string, message: Msg)

  /** The log of topic `t`; a topic that is absent reads as the empty log,
      as indexing a Go map with a missing key yields a nil slice. */
  function LogOf(topics: Topics, t: string): seq<Msg> {
    if t in topics then topics[t] else []
  }

  /** The bytes of an ASCII string literal. */
  function Ascii(s: string): Msg
    requires forall i :: 0 <= i < |s| ==> s[i] as int < 256
  {
    seq(|s|, i requires 0 <= i < |s| => s[i] as int as byte)
  }

  /** The topic map after storing `m` to topic `t`: an existing log is
      extended, a new topic gets the one-message log [m]. */
  function Appended(topics: Topics, t: string, m: Msg): (r: Topics)
    ensures r.Keys == topics.Keys + {t}
    ensures r[t] == LogOf(topics, t) + [m]
    ensures forall u :: u in topics && u != t ==> r[u] == topics[u]
  {
    if t in topics then topics[t := topics[t] + [m]] else topics[t := [m]]
  }

  /** The topic map after storing each message of `ms`, in order, to `t`. */
  function AppendedAll(topics: Topics, t: string, ms: seq<Msg>): Topics
    decreases |ms|
  {
    if ms == [] then topics
    else Appended(AppendedAll(topics, t, ms[..|ms| - 1]), t, ms[|ms| - 1])
  }

  /** Storing one more message extends the topic map of N stores by that
      message. */
  lemma AppendedAllSnoc(topics: Topics, t: string, ms: seq<Msg>, n: nat)
    requires n < |ms|
    ensures AppendedAll(topics, t, ms[..n + 1]) == Appended(AppendedAll(topics, t, ms[..n]), t, ms[n])
  {
    assert ms[..n + 1][..n] == ms[..n];
  }

  /** Storing N messages to one topic leaves its log ending with exactly
      those N messages in call order, creates the topic when N > 0, and
      leaves every other topic as it was. */
  lemma {:induction false} StoresInCallOrder(topics: Topics, t: string, ms: seq<Msg>)
    ensures var r := AppendedAll(topics, t, ms);
      && r.Keys == topics.Keys + (if ms == [] then {} else {t})
      && LogOf(r, t) == LogOf(topics, t) + ms
      && forall u :: u in topics && u != t ==> r[u] == topics[u]
    decreases |ms|
  {
    if ms != [] {
      var init := ms[..|ms| - 1];
      StoresInCallOrder(topics, t, init);
      assert init + [ms[|ms| - 1]] == ms;
    }
  }
}
