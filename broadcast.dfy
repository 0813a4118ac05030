/** Fan-out of one event to a list of sockets, and what one socket receives. */
module Broadcast {
  import opened ChatTypes

  /** No socket appears twice. */
  predicate Distinct(s: seq<ConnId>) {
    forall i, j :: 0 <= i < j < |s| ==> s[i] != s[j]
  }

  /** The sockets of `s` other than `x`, in the same order: the targets of
      `socket.broadcast.emit`, and the socket set after `x` disconnects. */
  function Without(s: seq<ConnId>, x: ConnId): (r: seq<ConnId>)
    ensures forall y :: y in r <==> y in s && y != x
    ensures Distinct(s) ==> Distinct(r)
    ensures x in s && Distinct(s) ==> |r| == |s| - 1
    ensures x !in s ==> r == s
  {
    if s == [] then []
    else if s[0] == x then Without(s[1..], x)
    else
      DistinctTail(s);
      [s[0]] + Without(s[1..], x)
  }

  /** Dropping the first socket keeps a list free of repeats, and the
      dropped socket is not among the rest. */
  lemma DistinctTail(s: seq<ConnId>)
    requires s != []
    ensures Distinct(s) ==> Distinct(s[1..]) && s[0] !in s[1..]
  {
    if Distinct(s) {
      forall i, j | 0 <= i < j < |s[1..]| ensures s[1..][i] != s[1..][j] {
        assert s[1..][i] == s[i + 1] && s[1..][j] == s[j + 1];
      }
      forall k | 0 <= k < |s[1..]| ensures s[1..][k] != s[0] {
        assert s[1..][k] == s[k + 1];
      }
    }
  }

  /** One delivery of `e` to each target, in the targets' order. */
  function Fanout(targets: seq<ConnId>, e: Event): (ds: seq<Delivery>)
    ensures |ds| == |targets|
    ensures forall i :: 0 <= i < |ds| ==> ds[i] == Delivery(targets[i], e)
  {
    if targets == [] then [] else [Delivery(targets[0], e)] + Fanout(targets[1..], e)
  }

  /** The events delivered to socket `r`, in the order they were emitted. */
  function Inbox(ds: seq<Delivery>, r: ConnId): (events: seq<Event>) {
    if ds == [] then []
    else (if ds[0].recipient == r then [ds[0].event] else []) + Inbox(ds[1..], r)
  }

  /** A socket's inbox of a later batch of deliveries extends its inbox of
      the earlier one. */
  lemma {:induction false} InboxConcat(a: seq<Delivery>, b: seq<Delivery>, r: ConnId)
    ensures Inbox(a + b, r) == Inbox(a, r) + Inbox(b, r)
  {
    if a == [] {
      assert a + b == b;
    } else {
      var ab := a + b;
      assert ab != [] && ab[0] == a[0] && ab[1..] == a[1..] + b;
      InboxConcat(a[1..], b, r);
      assert Inbox(ab, r) == (if a[0].recipient == r then [a[0].event] else []) + Inbox(a[1..] + b, r);
    }
  }

  /** A socket that no delivery names receives nothing. */
  lemma {:induction false} InboxOfOthers(ds: seq<Delivery>, r: ConnId)
    requires forall i :: 0 <= i < |ds| ==> ds[i].recipient != r
    ensures Inbox(ds, r) == []
  {
    if ds != [] {
      InboxOfOthers(ds[1..], r);
    }
  }

  /** Every delivery of `ds` goes to a socket of `s`. */
  predicate AddressedWithin(ds: seq<Delivery>, s: set<ConnId>) {
    forall i :: 0 <= i < |ds| ==> ds[i].recipient in s
  }

  /** Appending a fan-out to sockets of `s` keeps every delivery addressed
      within `s`. */
  lemma FanoutAddressed(ds: seq<Delivery>, targets: seq<ConnId>, e: Event, s: set<ConnId>)
    requires AddressedWithin(ds, s)
    requires forall t :: t in targets ==> t in s
    ensures AddressedWithin(ds + Fanout(targets, e), s)
  {
    var f := Fanout(targets, e);
    forall i | 0 <= i < |ds + f| ensures (ds + f)[i].recipient in s {
      if i >= |ds| {
        assert (ds + f)[i] == f[i - |ds|] == Delivery(targets[i - |ds|], e);
      }
    }
  }

  /** Fanning `e` out to distinct targets gives each target exactly one
      copy of `e` and any other socket nothing. */
  lemma {:induction false} InboxFanout(targets: seq<ConnId>, e: Event, r: ConnId)
    requires Distinct(targets)
    ensures Inbox(Fanout(targets, e), r) == if r in targets then [e] else []
  {
    if targets != [] {
      DistinctTail(targets);
      InboxFanout(targets[1..], e, r);
      var head := [Delivery(targets[0], e)];
      assert Fanout(targets, e) == head + Fanout(targets[1..], e);
      InboxConcat(head, Fanout(targets[1..], e), r);
      assert Inbox(head, r) == if targets[0] == r then [e] else [];
      assert targets == [targets[0]] + targets[1..];
    }
  }

  /** A broadcast to all sockets but the sender reaches every other live
      socket exactly once and never the sender. */
  lemma BroadcastReachesOthersOnce(live: seq<ConnId>, sender: ConnId, e: Event, r: ConnId)
    requires Distinct(live)
    ensures Inbox(Fanout(Without(live, sender), e), r)
         == if r in live && r != sender then [e] else []
  {
    InboxFanout(Without(live, sender), e, r);
  }
}
