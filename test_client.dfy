/** The broker state kept by the kitchen's test client: what has been
    subscribed and published, the inbound message buffer and the connection
    flag. The kitchen's `OrderHandler` is modelled against this client. */
module TestClient {
  import opened Wrappers
  import opened Mqtt

  /** What `deliver_message` yields for a buffer: `pop(0)` of an empty list
      raises `IndexError`, otherwise the front message is returned. */
  function NextDelivery(messages: seq<Option<ApplicationMessage>>): Result<Option<ApplicationMessage>, Fault> {
    if messages == [] then Failure(IndexError) else Success(messages[0])
  }

  /** `list.remove(x)`: drop the first element equal to `x`. */
  function RemoveFirst<T(==)>(s: seq<T>, x: T): (r: seq<T>)
    requires x in s
    ensures |r| == |s| - 1
  {
    if s[0] == x then s[1..] else [s[0]] + RemoveFirst(s[1..], x)
  }

  /** `list.remove(x)` takes out exactly one occurrence of `x`. */
  lemma {:induction false} RemoveFirstOne<T>(s: seq<T>, x: T)
    requires x in s
    ensures multiset(RemoveFirst(s, x)) == multiset(s) - multiset{x}
  {
    assert s == [s[0]] + s[1..];
    if s[0] != x {
      RemoveFirstOne(s[1..], x);
    }
  }

  /** `RemoveFirst` takes out the element at the first index holding `x`. */
  lemma {:induction false} RemoveFirstAt<T>(s: seq<T>, i: nat)
    requires i < |s| && forall j :: 0 <= j < i ==> s[j] != s[i]
    ensures RemoveFirst(s, s[i]) == s[..i] + s[i + 1..]
  {
    if i > 0 {
      var t := s[1..];
      assert t[i - 1] == s[i];
      assert forall j :: 0 <= j < i - 1 ==> t[j] == s[j + 1];
      RemoveFirstAt(t, i - 1);
      assert s[0] != s[i];
      assert RemoveFirst(s, s[i]) == [s[0]] + RemoveFirst(t, s[i]);
      assert t[..i - 1] == s[1..i] && t[i..] == s[i + 1..];
      assert s[..i] == [s[0]] + s[1..i];
    }
  }

  /** The condition tested by `unsubscribe` for each entry. */
  predicate Matches(sub: Subscription, topics: seq<string>) {
    sub.topic in topics
  }

  /** The entries whose topic is not being unsubscribed, in order. */
  function Others(s: seq<Subscription>, topics: seq<string>): seq<Subscription> {
    if s == [] then []
    else if Matches(s[0], topics) then Others(s[1..], topics)
    else [s[0]] + Others(s[1..], topics)
  }

  /** The state of `for topic in self.subscriptions: ... remove(topic)` when
      the list is `s` and the iterator's next index is `i`. Python's list
      iterator reads index `i` of the list as it is now, so an entry that
      slides into an index already visited is never looked at. */
  function UnsubscribeFrom(s: seq<Subscription>, i: nat, topics: seq<string>): seq<Subscription>
    decreases |s| + 1 - i
  {
    if i >= |s| then s
    else if Matches(s[i], topics) then UnsubscribeFrom(RemoveFirst(s, s[i]), i + 1, topics)
    else UnsubscribeFrom(s, i + 1, topics)
  }

  /** The subscription list after `unsubscribe(topics)`. */
  function Unsubscribed(s: seq<Subscription>, topics: seq<string>): seq<Subscription> {
    UnsubscribeFrom(s, 0, topics)
  }

  /** No two neighbouring entries are both unsubscribed: the lists on which
      `unsubscribe` removes every matching entry. */
  predicate Spaced(s: seq<Subscription>, topics: seq<string>) {
    forall j :: 0 <= j < |s| - 1 ==> !(Matches(s[j], topics) && Matches(s[j + 1], topics))
  }

  lemma {:induction false} OthersRemoveMatching(s: seq<Subscription>, x: Subscription, topics: seq<string>)
    requires x in s && Matches(x, topics)
    ensures Others(RemoveFirst(s, x), topics) == Others(s, topics)
  {
    if s[0] != x {
      assert s == [s[0]] + s[1..];
      OthersRemoveMatching(s[1..], x, topics);
      assert ([s[0]] + RemoveFirst(s[1..], x))[1..] == RemoveFirst(s[1..], x);
    }
  }

  lemma {:induction false} UnsubscribeFromKeepsOthers(s: seq<Subscription>, i: nat, topics: seq<string>)
    ensures Others(UnsubscribeFrom(s, i, topics), topics) == Others(s, topics)
    decreases |s| + 1 - i
  {
    if i < |s| {
      if Matches(s[i], topics) {
        OthersRemoveMatching(s, s[i], topics);
        UnsubscribeFromKeepsOthers(RemoveFirst(s, s[i]), i + 1, topics);
      } else {
        UnsubscribeFromKeepsOthers(s, i + 1, topics);
      }
    }
  }

  /** Unsubscribing keeps every other subscription, in order and with its
      multiplicity. */
  lemma UnsubscribeKeepsOthers(s: seq<Subscription>, topics: seq<string>)
    ensures Others(Unsubscribed(s, topics), topics) == Others(s, topics)
  {
    UnsubscribeFromKeepsOthers(s, 0, topics);
  }

  lemma {:induction false} UnsubscribeFromOnlyRemoves(s: seq<Subscription>, i: nat, topics: seq<string>)
    ensures multiset(UnsubscribeFrom(s, i, topics)) <= multiset(s)
    decreases |s| + 1 - i
  {
    if i < |s| {
      if Matches(s[i], topics) {
        RemoveFirstOne(s, s[i]);
        UnsubscribeFromOnlyRemoves(RemoveFirst(s, s[i]), i + 1, topics);
      } else {
        UnsubscribeFromOnlyRemoves(s, i + 1, topics);
      }
    }
  }

  /** Unsubscribing never adds an entry. */
  lemma UnsubscribeOnlyRemoves(s: seq<Subscription>, topics: seq<string>)
    ensures multiset(Unsubscribed(s, topics)) <= multiset(s)
  {
    UnsubscribeFromOnlyRemoves(s, 0, topics);
  }

  lemma {:induction false} OthersOfUnmatched(s: seq<Subscription>, topics: seq<string>)
    requires forall j :: 0 <= j < |s| ==> !Matches(s[j], topics)
    ensures Others(s, topics) == s
  {
    if s != [] {
      OthersOfUnmatched(s[1..], topics);
    }
  }

  lemma {:induction false} UnsubscribeFromClears(s: seq<Subscription>, i: nat, topics: seq<string>)
    requires forall j :: 0 <= j < i && j < |s| ==> !Matches(s[j], topics)
    requires forall j :: i <= j < |s| - 1 ==> !(Matches(s[j], topics) && Matches(s[j + 1], topics))
    ensures forall j :: 0 <= j < |UnsubscribeFrom(s, i, topics)| ==> !Matches(UnsubscribeFrom(s, i, topics)[j], topics)
    decreases |s| + 1 - i
  {
    if i < |s| {
      if Matches(s[i], topics) {
        RemoveFirstAt(s, i);
        var s' := s[..i] + s[i + 1..];
        assert forall j :: 0 <= j < i ==> s'[j] == s[j];
        assert forall j :: i <= j < |s'| ==> s'[j] == s[j + 1];
        UnsubscribeFromClears(s', i + 1, topics);
      } else {
        UnsubscribeFromClears(s, i + 1, topics);
      }
    }
  }

  /** On a spaced list `unsubscribe` removes exactly the matching entries;
      this covers the single subscription the kitchen makes. */
  lemma UnsubscribeRemovesAll(s: seq<Subscription>, topics: seq<string>)
    requires Spaced(s, topics)
    ensures Unsubscribed(s, topics) == Others(s, topics)
  {
    UnsubscribeFromClears(s, 0, topics);
    UnsubscribeKeepsOthers(s, topics);
    OthersOfUnmatched(Unsubscribed(s, topics), topics);
  }

  /** On the two-entry list `[a, b]` of matching entries `b` survives: after
      `remove`, it slides into the index the iterator has passed. */
  lemma UnsubscribeAdjacentSurvivor(a: Subscription, b: Subscription, topics: seq<string>)
    requires Matches(a, topics) && Matches(b, topics)
    ensures Unsubscribed([a, b], topics) == [b]
  {
    var s := [a, b];
    assert RemoveFirst(s, s[0]) == [b];
    assert UnsubscribeFrom(s, 0, topics) == UnsubscribeFrom([b], 1, topics);
  }

  /** The first index holding `x`. */
  function FirstIndex<T(==)>(s: seq<T>, x: T): (k: nat)
    requires x in s
    ensures k < |s| && s[k] == x
    ensures forall j :: 0 <= j < k ==> s[j] != x
  {
    if s[0] == x then 0 else 1 + FirstIndex(s[1..], x)
  }

  /** Entries that do not match every unsubscribed topic. */
  lemma {:induction false} OthersUnmatched(s: seq<Subscription>, topics: seq<string>)
    ensures forall j :: 0 <= j < |Others(s, topics)| ==> !Matches(Others(s, topics)[j], topics)
  {
    if s != [] {
      OthersUnmatched(s[1..], topics);
    }
  }

  /** At iterator index `i`, a matching entry the iterator has passed, or a
      neighbouring matching pair still ahead. */
  predicate LeavesMatch(s: seq<Subscription>, i: nat, topics: seq<string>) {
    || (exists j :: 0 <= j < i && j < |s| && Matches(s[j], topics))
    || (exists j :: i <= j < |s| - 1 && Matches(s[j], topics) && Matches(s[j + 1], topics))
  }

  /** Removing the first copy of the matching entry at `i` keeps the
      condition for the next iterator index. */
  lemma LeavesMatchAfterRemove(s: seq<Subscription>, i: nat, topics: seq<string>)
    requires i < |s| && Matches(s[i], topics) && LeavesMatch(s, i, topics)
    ensures LeavesMatch(RemoveFirst(s, s[i]), i + 1, topics)
  {
    var k := FirstIndex(s, s[i]);
    RemoveFirstAt(s, k);
    var s' := s[..k] + s[k + 1..];
    assert RemoveFirst(s, s[i]) == s';
    if k < i {
      assert s'[i - 1] == s[i];
    } else if exists j :: 0 <= j < i && j < |s| && Matches(s[j], topics) {
      var j :| 0 <= j < i && j < |s| && Matches(s[j], topics);
      assert s'[j] == s[j];
    } else {
      var j :| i <= j < |s| - 1 && Matches(s[j], topics) && Matches(s[j + 1], topics);
      if j <= i + 1 {
        assert s'[i] == s[i + 1];
      } else {
        assert s'[j - 1] == s[j] && s'[j] == s[j + 1];
      }
    }
  }

  /** Under `LeavesMatch`, some matching entry is left in the result. */
  lemma {:induction false} UnsubscribeFromLeaves(s: seq<Subscription>, i: nat, topics: seq<string>)
    requires LeavesMatch(s, i, topics)
    ensures exists j :: 0 <= j < |UnsubscribeFrom(s, i, topics)| && Matches(UnsubscribeFrom(s, i, topics)[j], topics)
    decreases |s| + 1 - i
  {
    if i >= |s| {
      var j :| 0 <= j < i && j < |s| && Matches(s[j], topics);
      assert UnsubscribeFrom(s, i, topics)[j] == s[j];
    } else if Matches(s[i], topics) {
      LeavesMatchAfterRemove(s, i, topics);
      assert UnsubscribeFrom(s, i, topics) == UnsubscribeFrom(RemoveFirst(s, s[i]), i + 1, topics);
      UnsubscribeFromLeaves(RemoveFirst(s, s[i]), i + 1, topics);
    } else {
      if exists j :: 0 <= j < i && j < |s| && Matches(s[j], topics) {
        var j :| 0 <= j < i && j < |s| && Matches(s[j], topics);
        assert 0 <= j < i + 1 && j < |s| && Matches(s[j], topics);
      } else {
        var j :| i <= j < |s| - 1 && Matches(s[j], topics) && Matches(s[j + 1], topics);
        assert i + 1 <= j < |s| - 1 && Matches(s[j], topics) && Matches(s[j + 1], topics);
      }
      assert LeavesMatch(s, i + 1, topics);
      assert UnsubscribeFrom(s, i, topics) == UnsubscribeFrom(s, i + 1, topics);
      UnsubscribeFromLeaves(s, i + 1, topics);
    }
  }

  /** `unsubscribe` removes every matching entry exactly when no two matching
      entries are neighbours. */
  lemma UnsubscribeRemovesAllExactly(s: seq<Subscription>, topics: seq<string>)
    ensures Unsubscribed(s, topics) == Others(s, topics) <==> Spaced(s, topics)
  {
    if Spaced(s, topics) {
      UnsubscribeRemovesAll(s, topics);
    } else {
      UnsubscribeFromLeaves(s, 0, topics);
      OthersUnmatched(s, topics);
    }
  }

  /** The kitchen's test client, with the broker state it records. */
  class TestMqttClient {
    var subscriptions: seq<Subscription>
    var published: seq<Publication>
    var messages: seq<Option<ApplicationMessage>>
    var connectionEstablished: bool
    var failConnection: bool

    constructor (failConnection: bool := false)
      ensures subscriptions == [] && published == [] && messages == []
      ensures !connectionEstablished && this.failConnection == failConnection
    {
      subscriptions := [];
      published := [];
      messages := [];
      connectionEstablished := false;
      this.failConnection := failConnection;
    }

    /** Queue a message for a later `DeliverMessage`. */
    method BufferMessage(msg: Option<ApplicationMessage>)
      modifies this`messages
      ensures messages == old(messages) + [msg]
    {
      messages := messages + [msg];
    }

    method Connect(uri: string) returns (r: Result<int, Fault>)
      modifies this`connectionEstablished
      ensures failConnection ==> r == Failure(ConnectError) && connectionEstablished == old(connectionEstablished)
      ensures !failConnection ==> r == Success(0) && connectionEstablished
    {
      if failConnection {
        return Failure(ConnectError);
      }
      connectionEstablished := true;
      return Success(0);
    }

    /** Pop the front of the buffer; the timeout is ignored. */
    method DeliverMessage(timeout: Option<real>) returns (r: Result<Option<ApplicationMessage>, Fault>)
      modifies this`messages
      ensures r == NextDelivery(old(messages))
      ensures old(messages) == [] ==> r.Failure? && messages == []
      ensures old(messages) != [] ==> r == Success(old(messages)[0]) && messages == old(messages)[1..]
    {
      if messages == [] {
        return Failure(IndexError);
      }
      r := Success(messages[0]);
      messages := messages[1..];
    }

    /** Append the requested subscriptions, duplicates included, and answer
        with the fixed return-code list `[0x80]`. */
    method Subscribe(topics: seq<Subscription>) returns (codes: seq<int>)
      modifies this`subscriptions
      ensures subscriptions == old(subscriptions) + topics
      ensures codes == [0x80]
    {
      subscriptions := subscriptions + topics;
      codes := [0x80];
    }

    method Publish(topic: string, payload: seq<byte>, qos: int)
      modifies this`published
      ensures published == old(published) + [Publication(topic, payload, qos)]
    {
      published := published + [Publication(topic, payload, qos)];
    }

    /** Remove, while iterating, each visited entry whose topic is listed. */
    method Unsubscribe(topics: seq<string>)
      modifies this`subscriptions
      ensures subscriptions == Unsubscribed(old(subscriptions), topics)
    {
      var i := 0;
      while i < |subscriptions|
        invariant i <= |subscriptions| + 1
        invariant UnsubscribeFrom(subscriptions, i, topics) == Unsubscribed(old(subscriptions), topics)
        decreases |subscriptions| + 1 - i
      {
        var topic := subscriptions[i];
        i := i + 1;
        if topic.topic in topics {
          subscriptions := RemoveFirst(subscriptions, topic);
        }
      }
    }

    method Disconnect()
      modifies this`connectionEstablished
      ensures !connectionEstablished
    {
      connectionEstablished := false;
    }
  }
}
