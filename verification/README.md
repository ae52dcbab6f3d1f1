# In-memory topic store of a publish/subscribe server

This project models the message store of a small Go publish/subscribe server
(`datastore.go`). It also proves what the store promises. The store keeps:

- a map from topic name to that topic's log, an append-only sequence of byte
  payloads;
- a list of active subscriptions.

It has three public operations:

- `RetrieveMessages(topic)` returns a topic's whole history, or the error
  "topic does not exist". It never creates the topic.
- `RetrieveWithSubscription(topic)` returns the same history and registers one
  new open subscription at the end of the active list. It only does so when
  the topic exists.
- `StoreMessage(topic, msg)` appends to the topic's log and creates the log if
  the topic is new. It then runs the broadcast pass (`notifySubscribers`). That
  pass walks the active list in order. It drops every closed subscription. It
  hands the event, once, to every open one, whatever topic the event belongs
  to. Finally it replaces the list with the open ones, in their original order.

A new store holds the topic `"test_topic"` with five preloaded payloads and
has no subscriptions.

Modules, one per component:

- `TopicLog` (`topic_log.dfy`): payloads as byte sequences, the topic map, the
  `TopicNotFound` error, `MessageEvent`, and the pure functions for appending
  to the map (`Appended`, `AppendedAll`) with their lemmas.
- `Subscriptions` (`subscription.dfy`): the `Subscription` class. It has a
  `closed` flag and `received`, the sequence of every event handed over its
  channel, oldest first. A channel send is modelled as an append to
  `received`. The module also defines the order-preserving "keep the open
  ones" filter (`OpenPrefix`, `OpenSubs`) with its lemmas, and `SentOnce`,
  the effect of one broadcast pass on each subscription.
- `Store` (`datastore.dfy`): the `Datastore` class with fields `topics` and
  `subscribers` and the four operations as methods. Each public method is one
  atomic step, as it is under the store's lock. `Valid()` says that no
  subscription appears twice in the active list.
- `StoreScenarios` (`datastore_test.dfy`): the two scenarios of the store's
  test file, written as client methods on a fresh store. Each proves the
  counts the test expects.

`NewDataStore` preloads five payloads into `"test_topic"`, so after 19 stores
to that topic its history holds 24 messages.
`StoreScenarios.SubscriptionEventSent` proves that the history is
`Preloaded()` followed by the stored messages.

The broadcast is topic-agnostic: a subscription opened on one topic is sent
the events of every topic. The model keeps this global-feed behaviour, as the
code has it.

## Model

| member | source | states |
|---|---|---|
| `Store.Datastore.constructor` | datastore.go:59-71 | A new store's only topic is `"test_topic"`, holding exactly the five preloaded payloads in order, and its subscriber list is empty. |
| `Store.Datastore.RetrieveMessages` | datastore.go:82-92 | On a present topic it returns exactly that topic's stored log. On an absent topic it returns `TopicNotFound`. It changes no state. |
| `Store.Datastore.RetrieveWithSubscription` | datastore.go:96-109 | If the topic exists: returns its current log and appends exactly one new (fresh), open subscription with nothing received to the end of the list. If it is absent: returns `TopicNotFound` and no subscription, and leaves the list unchanged. The topic map is never changed. |
| `Store.Datastore.StoreMessage` | datastore.go:112-129 | The topic map becomes `Appended(old map, topic, msg)`: the old log plus `[msg]`, or `[msg]` for a new topic. The subscriber list becomes the order-preserving filter of the old list by "not closed". Every open subscriber is sent the event `(topic, msg)` exactly once, and closed ones nothing. |
| `Store.Datastore.NotifySubscribers` | datastore.go:133-143 | The list becomes `OpenSubs(old list)`, the open entries in their original order. Each open subscriber of the old list is sent the event exactly once, whatever its topic. Closed ones are sent nothing and dropped. No closed flag changes, and the list stays duplicate-free. |
| `Store.Events` | datastore.go:124-128 | The events of N stores to one topic: one `(topic, msg)` event per stored message, in call order. |
| `Store.EventsSnoc` | datastore.go:124-128 | One more store adds exactly its own event at the end of the events of the earlier stores. |
| `Subscriptions.Subscription.constructor` | datastore.go:31-36 | A new subscription is open and has been sent nothing. |
| `Subscriptions.Subscription.Close` | datastore.go:37-42 | Closing an open subscription sets the closed flag and touches nothing else. This stands in for the owner closing the `done` channel and the goroutine then setting `closed`. Like closing a channel, it is allowed once only. |
| `Subscriptions.OpenPrefixMembers` | datastore.go:134-139 | After visiting the first n entries, the kept list holds exactly the open ones among them. It has no duplicates when the active list has none. |
| `Subscriptions.OpenSubsMembers` | datastore.go:134-142 | A subscription is in the rebuilt list exactly when it was in the old list and is not closed. A duplicate-free list stays duplicate-free. |
| `Subscriptions.OpenPrefixAllOpen` | datastore.go:135-139 | When none of the first n entries is closed, the kept list is exactly those n entries. |
| `Subscriptions.OpenSubsAllOpen` | datastore.go:134-142 | A broadcast over a list with no closed subscription keeps the list unchanged. |
| `Subscriptions.OpenPrefixDropsOneClosed` | datastore_test.go:44-53 | With exactly one closed entry among the first n, the kept list has n - 1 entries. |
| `Subscriptions.OpenSubsDropsOneClosed` | datastore_test.go:44-53 | After exactly one subscriber closes, the next broadcast leaves one fewer subscriber, and the closed one is gone. |
| `TopicLog.Appended` | datastore.go:117-123 | After a store to `t`, the map has `t` (and the old topics). `t`'s log is the old log (empty for a new topic) plus `[m]`. Every other topic's log is unchanged. |
| `TopicLog.AppendedAllSnoc` | datastore.go:117-123 | N + 1 stores leave the map that one store leaves after the first N. |
| `TopicLog.StoresInCallOrder` | datastore.go:117-123 | After N stores to one topic, its log is the old log followed by exactly those N messages in call order. The topic exists when N > 0, and every other topic is unchanged. |
| `StoreScenarios.SubscriptionAdditionRemoval` | datastore_test.go:22-55 | Subscribing to `"test_topic"` on a new store succeeds and leaves one subscriber. After that subscriber closes, one broadcast pass leaves zero. |
| `StoreScenarios.SubscribeMany` | datastore_test.go:80-95 | n subscribe calls on an existing topic all succeed. They append n distinct, fresh, open subscriptions to the active list, in call order, after the ones already there. |
| `StoreScenarios.CountDelivered` | datastore_test.go:86-94 | When each of K subscriptions has been sent M events, counting their deliveries one subscription at a time gives K × M. |
| `StoreScenarios.StoreAll` | datastore_test.go:98-100 | N stores to one topic while every subscriber stays open: the map is `AppendedAll(old map, topic, msgs)`, the list is unchanged, and each subscriber is sent exactly the N events in call order. |
| `StoreScenarios.SubscriptionEventSent` | datastore_test.go:57-126 | With K open subscribers and M stores, exactly K × M events are delivered in total. `"test_topic"`'s history is then the five preloaded payloads followed by the M stored ones. |

## Left out

- The `sync.Mutex` (datastore.go:55, 83-84, 97-98, 113-114): each public method is modelled as one atomic step, which is what the lock guarantees. Interleavings are not modelled.
- The goroutine and `done` channel of `NewSubscription` (datastore.go:37-42), and the unsynchronised write to `closed` (a data race): closing is the direct state change `Subscription.Close`. Its precondition that the subscription is still open stands for "`done` is not yet closed": closing a closed channel panics in Go, and the model does not model that panic.
- The unbuffered channel send (datastore.go:140) and its blocking: a send is modelled as an append to `received`. Stalls, backpressure and the consumer draining the channel are liveness and concurrency concerns that are not modelled. `received` records every event handed over, not what the consumer has read.
- `GetDatastore` and its `sync.Once` singleton (datastore.go:74-79): process-wide initialisation that only calls `NewDataStore`.
- `handlers.go` (HTTP and WebSocket transport, including the caller-side topic filter on delivered events) and `main.go` (routing and server start-up): transport and I/O, outside the store.
- Go slice aliasing between a returned history and the stored log: returned logs are value snapshots (`seq`).
- String-to-byte conversion: `Ascii` covers only the ASCII literals the store and its tests use, not UTF-8 encoding in general.
- The test's timer, busy-wait loop and `sub.IsClosed()` (datastore_test.go:47, 102-123): `IsClosed` is not defined in the store's code, and timing is not modelled.
- StoreScenarios.SubscriptionEventSent: the total is an unbounded `nat`, while the test counts with a 32-bit atomic counter (`count32`). The test's sizes (at most 100 deliveries) never wrap it.
- StoreScenarios.StoreAll: requires every registered subscription to stay open while it stores, as in the test. Closing during a run of stores is covered by `StoreMessage` and `NotifySubscribers` one call at a time.
