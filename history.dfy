/** The history query run for each new connection: the stored messages
    sorted by ascending timestamp and cut to the first `limit`. */
module HistoryQuery {
  import opened ChatTypes

  /** Timestamps never decrease along `s`. */
  predicate SortedByTime(s: seq<ChatMessage>) {
    forall i, j :: 0 <= i < j < |s| ==> s[i].timestamp <= s[j].timestamp
  }

  /** The smaller of two counts. */
  function Min(a: nat, b: nat): (m: nat) {
    if a <= b then a else b
  }

  /** Puts `m` into the time-ordered `s`, ahead of every message with the
      same or a later timestamp. */
  function InsertByTime(m: ChatMessage, s: seq<ChatMessage>): (r: seq<ChatMessage>)
    requires SortedByTime(s)
    ensures SortedByTime(r)
    ensures multiset(r) == multiset(s) + multiset{m}
    ensures |r| == |s| + 1
  {
    if s == [] || m.timestamp <= s[0].timestamp then
      [m] + s
    else
      var rest := InsertByTime(m, s[1..]);
      HeadBeforeInsert(s, m, rest);
      [s[0]] + rest
  }

  /** The head of a time-ordered list stays in front when a message no
      earlier than it goes into the tail. */
  lemma HeadBeforeInsert(s: seq<ChatMessage>, m: ChatMessage, rest: seq<ChatMessage>)
    requires s != [] && SortedByTime(s) && s[0].timestamp <= m.timestamp
    requires SortedByTime(rest) && multiset(rest) == multiset(s[1..]) + multiset{m}
    ensures SortedByTime([s[0]] + rest)
    ensures multiset([s[0]] + rest) == multiset(s) + multiset{m}
  {
    assert s == [s[0]] + s[1..];
    forall k | 0 <= k < |rest| ensures s[0].timestamp <= rest[k].timestamp {
      assert rest[k] in multiset(rest);
      if rest[k] != m {
        assert rest[k] in s[1..];
        var j :| 0 <= j < |s[1..]| && s[1..][j] == rest[k];
        assert s[j + 1] == rest[k];
      }
    }
    var r := [s[0]] + rest;
    forall i, j | 0 <= i < j < |r| ensures r[i].timestamp <= r[j].timestamp {
      if i > 0 {
        assert r[i] == rest[i - 1] && r[j] == rest[j - 1];
      } else {
        assert r[j] == rest[j - 1];
      }
    }
  }

  /** The stored messages ordered by ascending timestamp; messages with the
      same timestamp keep their storage order. */
  function SortByTime(s: seq<ChatMessage>): (r: seq<ChatMessage>)
    ensures SortedByTime(r)
    ensures multiset(r) == multiset(s)
    ensures |r| == |s|
  {
    if s == [] then []
    else
      assert s == [s[0]] + s[1..];
      InsertByTime(s[0], SortByTime(s[1..]))
  }

  /** `find().sort({ timestamp: 1 }).limit(limit)` over the stored messages:
      the batch holds min(limit, n) of them, in time order. */
  function EarliestBatch(log: seq<ChatMessage>, limit: nat): (r: seq<ChatMessage>)
    ensures |r| == Min(limit, |log|)
    ensures SortedByTime(r)
    ensures multiset(r) <= multiset(log)
  {
    var sorted := SortByTime(log);
    var k := Min(limit, |log|);
    assert sorted == sorted[..k] + sorted[k..];
    sorted[..k]
  }

  /** None of the stored messages the batch leaves out is earlier than one
      it holds: the batch is the earliest part of the log, not the latest. */
  lemma EarliestBatchIsEarliest(log: seq<ChatMessage>, limit: nat)
    ensures forall x, y :: x in EarliestBatch(log, limit) &&
                           y in multiset(log) - multiset(EarliestBatch(log, limit)) ==>
                           x.timestamp <= y.timestamp
  {
    var sorted := SortByTime(log);
    var k := Min(limit, |log|);
    SortedPrefixFirst(sorted, k);
    assert EarliestBatch(log, limit) == sorted[..k];
    assert multiset(log) == multiset(sorted);
  }

  /** In a time-ordered list, nothing outside the first `k` entries is
      earlier than anything among them. */
  lemma SortedPrefixFirst(s: seq<ChatMessage>, k: nat)
    requires SortedByTime(s) && k <= |s|
    ensures forall x, y :: x in s[..k] && y in multiset(s) - multiset(s[..k]) ==>
                           x.timestamp <= y.timestamp
  {
    MultisetAfterPrefix(s, k);
    PrefixBeforeSuffix(s, k);
  }

  /** Taking the first `k` entries out of the multiset of `s` leaves the
      multiset of the others. */
  lemma MultisetAfterPrefix(s: seq<ChatMessage>, k: nat)
    requires k <= |s|
    ensures multiset(s) - multiset(s[..k]) == multiset(s[k..])
  {
    var taken, rest := multiset(s[..k]), multiset(s[k..]);
    assert multiset(s) == taken + rest by {
      assert s == s[..k] + s[k..];
    }
  }

  /** In a time-ordered list, every entry among the first `k` is no later
      than every entry after them. */
  lemma PrefixBeforeSuffix(s: seq<ChatMessage>, k: nat)
    requires SortedByTime(s) && k <= |s|
    ensures forall x, y :: x in s[..k] && y in s[k..] ==> x.timestamp <= y.timestamp
  {
    forall x, y | x in s[..k] && y in s[k..]
      ensures x.timestamp <= y.timestamp
    {
      var i :| 0 <= i < k && s[..k][i] == x;
      var j :| 0 <= j < |s| - k && s[k..][j] == y;
      assert s[i] == x && s[k + j] == y;
    }
  }

  /** Inserting a message no later than any stored one puts it in front. */
  lemma InsertEarliest(m: ChatMessage, s: seq<ChatMessage>)
    requires SortedByTime([m] + s)
    ensures SortedByTime(s) && InsertByTime(m, s) == [m] + s
  {
    assert s == ([m] + s)[1..];
    assert s != [] ==> ([m] + s)[1] == s[0];
  }

  /** A log whose timestamps already ascend, as the accepting order of the
      handler yields under a clock that never runs back, comes back from
      the query as its own first `limit` messages. */
  lemma {:induction false} EarliestBatchOfOrderedLog(log: seq<ChatMessage>, limit: nat)
    requires SortedByTime(log)
    ensures EarliestBatch(log, limit) == log[..Min(limit, |log|)]
  {
    SortByTimeOfSorted(log);
  }

  /** Sorting a log that is already in time order leaves it as it is. */
  lemma {:induction false} SortByTimeOfSorted(s: seq<ChatMessage>)
    requires SortedByTime(s)
    ensures SortByTime(s) == s
  {
    if s != [] {
      assert SortedByTime(s[1..]) by {
        forall i, j | 0 <= i < j < |s[1..]| ensures s[1..][i].timestamp <= s[1..][j].timestamp {
          assert s[1..][i] == s[i + 1] && s[1..][j] == s[j + 1];
        }
      }
      SortByTimeOfSorted(s[1..]);
      assert s == [s[0]] + s[1..];
      InsertEarliest(s[0], s[1..]);
    }
  }
}
