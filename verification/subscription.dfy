/** A subscription: one live listener's handle. The store hands it every
    event while it is open; its owner closes it; the store prunes closed
    subscriptions from its active list on the next broadcast pass. */
module Subscriptions {
  import opened TopicLog

  class Subscription {
    /** Set once the owner has cancelled the subscription. */
    var closed: bool
    /** Every event handed over this subscription's channel, in the order
        the store sent them. */
    var received: seq<MessageEvent>

    /** A new subscription starts open and has been sent nothing. */
    constructor ()
      ensures !closed && received == []
    {
      closed := false;
      received := [];
    }

    /** The owner cancels the subscription by closing its done channel,
        which can be done once only: closing it again panics in Go. */
    method Close()
      requires !closed
      modifies this`closed
      ensures closed
    {
      closed := true;
    }
  }

  /** No subscription appears twice in `s`. */
  predicate Distinct(s: seq<Subscription>) {
    forall i, j :: 0 <= i < j < |s| ==> s[i] != s[j]
  }

  /** The subscriptions among the first `n` of `s` that are not closed, in
      their order in `s`: what a broadcast pass has kept after visiting `n`
      entries of the active list. */
  function OpenPrefix(s: seq<Subscription>, n: nat): (r: seq<Subscription>)
    requires n <= |s|
    reads s`closed
    ensures |r| <= n
  {
    if n == 0 then [] else OpenPrefix(s, n - 1) + (if s[n - 1].closed then [] else [s[n - 1]])
  }

  /** The subscriptions of `s` that are not closed, in their order in `s`:
      the active list a broadcast pass rebuilds. */
  function OpenSubs(s: seq<Subscription>): (r: seq<Subscription>)
    reads s`closed
  {
    OpenPrefix(s, |s|)
  }

  /** What one broadcast pass of `evt` does to the subscriptions of `subs`,
      between the state before it and the state after: each open one was
      sent `evt` exactly once, each closed one was sent nothing, and no
      closed flag changed. */
  twostate predicate SentOnce(subs: seq<Subscription>, evt: MessageEvent)
    reads subs
  {
    forall k :: 0 <= k < |subs| ==>
      && subs[k].closed == old(subs[k].closed)
      && subs[k].received == old(subs[k].received) + (if subs[k].closed then [] else [evt])
  }

  /** The filtered prefix holds exactly the open subscriptions among the
      first `n`, and no duplicates when `s` has none. */
  lemma {:induction false} OpenPrefixMembers(s: seq<Subscription>, n: nat)
    requires n <= |s|
    ensures forall i :: 0 <= i < |OpenPrefix(s, n)| ==>
      OpenPrefix(s, n)[i] in s[..n] && !OpenPrefix(s, n)[i].closed
    ensures forall i :: 0 <= i < n && !s[i].closed ==> s[i] in OpenPrefix(s, n)
    ensures Distinct(s) ==> Distinct(OpenPrefix(s, n))
    decreases n
  {
    if n > 0 {
      OpenPrefixMembers(s, n - 1);
      assert s[..n] == s[..n - 1] + [s[n - 1]];
    }
  }

  /** The filter keeps exactly the open subscriptions of `s`, and keeps a
      duplicate-free list duplicate-free. */
  lemma OpenSubsMembers(s: seq<Subscription>)
    ensures forall c :: c in OpenSubs(s) <==> c in s && !c.closed
    ensures Distinct(s) ==> Distinct(OpenSubs(s))
  {
    OpenPrefixMembers(s, |s|);
    assert s[..|s|] == s;
  }

  /** Filtering a list whose members are all open keeps the whole list. */
  lemma {:induction false} OpenPrefixAllOpen(s: seq<Subscription>, n: nat)
    requires n <= |s|
    requires forall i :: 0 <= i < n ==> !s[i].closed
    ensures OpenPrefix(s, n) == s[..n]
    decreases n
  {
    if n > 0 {
      OpenPrefixAllOpen(s, n - 1);
      assert s[..n] == s[..n - 1] + [s[n - 1]];
    }
  }

  /** Filtering a list whose members are all open keeps the whole list. */
  lemma OpenSubsAllOpen(s: seq<Subscription>)
    requires forall i :: 0 <= i < |s| ==> !s[i].closed
    ensures OpenSubs(s) == s
  {
    OpenPrefixAllOpen(s, |s|);
    assert s[..|s|] == s;
  }

  /** When exactly one of the first `n` subscriptions is closed, the filter
      drops exactly that one, so the kept list is one shorter. */
  lemma {:induction false} OpenPrefixDropsOneClosed(s: seq<Subscription>, n: nat, gone: nat)
    requires n <= |s|
    requires gone < n && s[gone].closed
    requires forall i :: 0 <= i < n && i != gone ==> !s[i].closed
    ensures |OpenPrefix(s, n)| == n - 1
    decreases n
  {
    if n - 1 == gone {
      OpenPrefixAllOpen(s, n - 1);
    } else {
      OpenPrefixDropsOneClosed(s, n - 1, gone);
    }
  }

  /** Once one subscription of a duplicate-free list is closed and the rest
      are open, the rebuilt list is one shorter and lacks the closed one. */
  lemma OpenSubsDropsOneClosed(s: seq<Subscription>, gone: Subscription)
    requires Distinct(s)
    requires gone in s && gone.closed
    requires forall c :: c in s && c != gone ==> !c.closed
    ensures |OpenSubs(s)| == |s| - 1
    ensures gone !in OpenSubs(s)
  {
    var g :| 0 <= g < |s| && s[g] == gone;
    OpenPrefixDropsOneClosed(s, |s|, g);
    OpenSubsMembers(s);
  }
}
