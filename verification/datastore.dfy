/** The store: the topic map and the list of active subscriptions, with the
    read, read-and-subscribe and publish operations and the broadcast pass
    that publishing runs. In the Go store each public operation runs under
    the store's one lock; here each is one atomic method call. */
module Store {
  import opened TopicLog
  import opened Subscriptions

  /** The topic the store is created with. */
  const TestTopic: string := "test_topic"

  /** The five payloads the store is created with, in order. */
  function Preloaded(): seq<Msg> {
    [ Ascii("preloaded data 1"), Ascii("preloaded data 2"), Ascii("preloaded data 3"),
      Ascii("preloaded data 4"), Ascii("preloaded data 5") ]
  }

  /** The events that storing each of `msgs`, in order, to `topic` hands
      to a subscription that stays open throughout. */
  function Events(topic: string, msgs: seq<Msg>): (evts: seq<MessageEvent>)
    ensures |evts| == |msgs|
    ensures forall i :: 0 <= i < |msgs| ==> evts[i] == MessageEvent(topic, msgs[i])
  {
    if msgs == [] then []
    else Events(topic, msgs[..|msgs| - 1]) + [MessageEvent(topic, msgs[|msgs| - 1])]
  }

  /** Storing one more message extends the events of N stores by its event. */
  lemma EventsSnoc(topic: string, msgs: seq<Msg>, n: nat)
    requires n < |msgs|
    ensures Events(topic, msgs[..n + 1]) == Events(topic, msgs[..n]) + [MessageEvent(topic, msgs[n])]
  {
    assert msgs[..n + 1][..n] == msgs[..n];
  }

  class Datastore {
    /** Topic name to its log. */
    var topics: Topics
    /** Subscriptions that have not yet been pruned, in registration order. */
    var subscribers: seq<Subscription>

    /** A subscription is in the active list at most once. */
    ghost predicate Valid()
      reads this
    {
      Distinct(subscribers)
    }

    /** A new store holds the one topic "test_topic" with its five preloaded
        payloads, and no subscriptions. */
    constructor ()
      ensures Valid()
      ensures topics.Keys == {TestTopic} && topics[TestTopic] == Preloaded()
      ensures subscribers == []
    {
      var t: Topics := map[];
      t := t[TestTopic := LogOf(t, TestTopic) + [Ascii("preloaded data 1")]];
      t := t[TestTopic := LogOf(t, TestTopic) + [Ascii("preloaded data 2")]];
      t := t[TestTopic := LogOf(t, TestTopic) + [Ascii("preloaded data 3")]];
      t := t[TestTopic := LogOf(t, TestTopic) + [Ascii("preloaded data 4")]];
      t := t[TestTopic := LogOf(t, TestTopic) + [Ascii("preloaded data 5")]];
      topics := t;
      subscribers := [];
    }

    /** The whole history of `topic`, or TopicNotFound when nothing was
        ever stored to it. Reads only. */
    method RetrieveMessages(topic: string) returns (r: Result<seq<Msg>>)
      ensures topic in topics ==> r == Ok(topics[topic])
      ensures topic !in topics ==> r == Err(TopicNotFound)
    {
      if topic in topics {
        r := Ok(topics[topic]);
      } else {
        r := Err(TopicNotFound);
      }
    }

    /** The whole history of `topic` together with a new open subscription
        registered at the end of the active list; or TopicNotFound, and then
        no subscription is registered. The topic map is never changed. */
    method RetrieveWithSubscription(topic: string) returns (r: Result<seq<Msg>>, sub: Subscription?)
      requires Valid()
      modifies this`subscribers
      ensures Valid()
      ensures topic in topics ==>
        && r == Ok(topics[topic])
        && sub != null && fresh(sub) && !sub.closed && sub.received == []
        && subscribers == old(subscribers) + [sub]
      ensures topic !in topics ==>
        && r == Err(TopicNotFound)
        && sub == null
        && subscribers == old(subscribers)
    {
      if topic in topics {
        sub := new Subscription();
        subscribers := subscribers + [sub];
        r := Ok(topics[topic]);
      } else {
        sub := null;
        r := Err(TopicNotFound);
      }
    }

    /** Appends `msg` to the log of `topic`, creating the topic if it is
        new, then broadcasts the event to the active list. */
    method StoreMessage(topic: string, msg: Msg)
      requires Valid()
      modifies this`topics, this`subscribers, subscribers`received
      ensures Valid()
      ensures topics == Appended(old(topics), topic, msg)
      ensures subscribers == OpenSubs(old(subscribers))
      ensures SentOnce(old(subscribers), MessageEvent(topic, msg))
    {
      if topic in topics {
        topics := topics[topic := topics[topic] + [msg]];
      } else {
        topics := topics[topic := [msg]];
      }
      var evt := MessageEvent(topic, msg);
      NotifySubscribers(evt);
    }

    /** The broadcast pass: every subscription of the active list that is
        not closed is sent `evt` once, whatever the event's topic; closed
        ones are sent nothing and dropped; the rest keep their order. */
    method NotifySubscribers(evt: MessageEvent)
      requires Valid()
      modifies this`subscribers, subscribers`received
      ensures Valid()
      ensures subscribers == OpenSubs(old(subscribers))
      ensures SentOnce(old(subscribers), evt)
    {
      var subs := subscribers;
      var openSubs: seq<Subscription> := [];
      var i := 0;
      while i < |subs|
        invariant 0 <= i <= |subs|
        invariant openSubs == OpenPrefix(subs, i)
        invariant forall k :: 0 <= k < i ==>
          subs[k].received == old(subs[k].received) + (if subs[k].closed then [] else [evt])
        invariant forall k :: i <= k < |subs| ==> subs[k].received == old(subs[k].received)
      {
        var c := subs[i];
        if !c.closed {
          openSubs := openSubs + [c];
          c.received := c.received + [evt];
        }
        i := i + 1;
      }
      OpenSubsMembers(subs);
      subscribers := openSubs;
    }
  }
}
