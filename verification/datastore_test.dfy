/** The two scenarios of the store's own test suite, written as clients of
    the store: each allocates a fresh store and proves what the test expects
    of it. */
module StoreScenarios {
  import opened TopicLog
  import opened Subscriptions
  import opened Store

  /** One subscription to "test_topic" is registered; after its owner closes
      it, one broadcast pass of an empty event removes it from the list. */
  method SubscriptionAdditionRemoval() returns (failed: bool, afterAdd: nat, afterRemoval: nat)
    ensures !failed
    ensures afterAdd == 1
    ensures afterRemoval == 0
  {
    var ds := new Datastore();
    var r, sub := ds.RetrieveWithSubscription(TestTopic);
    failed := r.Err?;
    afterAdd := |ds.subscribers|;
    sub.Close();
    OpenSubsDropsOneClosed(ds.subscribers, sub);
    ds.NotifySubscribers(MessageEvent("", []));
    afterRemoval := |ds.subscribers|;
  }

  /** Registers `n` subscriptions to an existing `topic`, one call after
      another; every call succeeds and appends its subscription to the
      active list. */
  method SubscribeMany(ds: Datastore, topic: string, n: nat) returns (subs: seq<Subscription>)
    requires ds.Valid()
    requires topic in ds.topics
    modifies ds`subscribers
    ensures ds.Valid() && ds.subscribers == old(ds.subscribers) + subs && |subs| == n
    ensures forall k :: 0 <= k < n ==> fresh(subs[k]) && !subs[k].closed && subs[k].received == []
  {
    subs := [];
    while |subs| < n
      invariant |subs| <= n
      invariant ds.Valid() && ds.subscribers == old(ds.subscribers) + subs
      invariant forall k :: 0 <= k < |subs| ==> fresh(subs[k]) && !subs[k].closed && subs[k].received == []
    {
      var r, sub := ds.RetrieveWithSubscription(topic);
      subs := subs + [sub];
    }
  }

  /** The payload every store of the event-count scenario sends. */
  const TestPayload: Msg := Ascii("testing123")

  /** `n` copies of the payload `m`. */
  function Copies(m: Msg, n: nat): (ms: seq<Msg>)
    ensures |ms| == n
  {
    seq(n, _ => m)
  }

  /** Sequence concatenation is associative. */
  lemma ConcatAssoc<T>(a: seq<T>, b: seq<T>, c: seq<T>)
    ensures (a + b) + c == a + (b + c)
  {
  }

  /** Stores each of `msgs`, in order, to `topic` while every registered
      subscription stays open: the topic map is as N single stores leave it,
      and every subscription is sent the N events in call order. */
  method StoreAll(ds: Datastore, topic: string, msgs: seq<Msg>)
    requires ds.Valid()
    requires forall k :: 0 <= k < |ds.subscribers| ==> !ds.subscribers[k].closed
    modifies ds`topics, ds`subscribers, ds.subscribers`received
    ensures ds.Valid() && ds.subscribers == old(ds.subscribers)
    ensures ds.topics == AppendedAll(old(ds.topics), topic, msgs)
    ensures forall k :: 0 <= k < |ds.subscribers| ==>
      ds.subscribers[k].received == old(ds.subscribers[k].received) + Events(topic, msgs)
  {
    ghost var subs := ds.subscribers;
    var sent := 0;
    while sent < |msgs|
      invariant sent <= |msgs|
      invariant ds.Valid() && ds.subscribers == subs
      invariant forall k :: 0 <= k < |subs| ==> !subs[k].closed
      invariant forall k :: 0 <= k < |subs| ==>
        subs[k].received == old(subs[k].received) + Events(topic, msgs[..sent])
      invariant ds.topics == AppendedAll(old(ds.topics), topic, msgs[..sent])
    {
      AppendedAllSnoc(old(ds.topics), topic, msgs, sent);
      EventsSnoc(topic, msgs, sent);
      ghost var done := Events(topic, msgs[..sent]);
      var evt := MessageEvent(topic, msgs[sent]);
      OpenSubsAllOpen(subs);
      label pre:
      ds.StoreMessage(topic, msgs[sent]);
      forall k | 0 <= k < |subs|
        ensures !subs[k].closed && subs[k].received == old(subs[k].received) + (done + [evt])
      {
        assert subs[k] in old@pre(ds.subscribers);
        ConcatAssoc(old(subs[k].received), done, [evt]);
      }
      sent := sent + 1;
    }
    assert msgs[..sent] == msgs;
  }

  /** The test's delivery counter: the number of events handed to the
      subscriptions of `subs`, added up one subscription at a time. When
      each was sent `m` events, that is `|subs| * m`. */
  method CountDelivered(subs: seq<Subscription>, m: nat) returns (total: nat)
    requires forall j :: 0 <= j < |subs| ==> |subs[j].received| == m
    ensures total == |subs| * m
  {
    total := 0;
    var k := 0;
    while k < |subs|
      invariant k <= |subs|
      invariant total == k * m
    {
      assert (k + 1) * m == k * m + m;
      total := total + |subs[k].received|;
      k := k + 1;
    }
  }

  /** `numSubs` subscriptions to "test_topic" stay open while `msgsSent`
      messages are stored to it: every subscription is sent every event,
      so `numSubs * msgsSent` events are delivered in all, and the topic's
      history holds the five preloaded payloads followed by the new ones. */
  method SubscriptionEventSent(numSubs: nat, msgsSent: nat) returns (total: nat, history: Result<seq<Msg>>)
    ensures total == numSubs * msgsSent
    ensures history == Ok(Preloaded() + Copies(TestPayload, msgsSent))
  {
    var ds := new Datastore();
    ghost var initial := ds.topics;
    var subs := SubscribeMany(ds, TestTopic, numSubs);
    assert ds.subscribers == subs;

    var msgs := Copies(TestPayload, msgsSent);
    StoreAll(ds, TestTopic, msgs);
    assert forall j :: 0 <= j < |subs| ==> |subs[j].received| == msgsSent;
    total := CountDelivered(subs, msgsSent);

    StoresInCallOrder(initial, TestTopic, msgs);
    history := ds.RetrieveMessages(TestTopic);
  }
}
