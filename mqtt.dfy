/** The subscription registry and the dispatch of an arriving message to the
    handlers of its topic (src/mqtt_handler.h). */
module Mqtt {

  /** A payload byte. */
  newtype byte = x: int | 0 <= x < 256

  /** A handler function (FunctionPointer), known here only by its name. */
  datatype Handler = Handler(name: string)

  /** One subscribed topic with the handler to call (FunctionTopicPair). */
  datatype Subscription = Subscription(topic: string, handler: Handler)

  /** One call of a handler with the assembled message text. */
  datatype Invocation = Invocation(handler: Handler, message: string)

  /** The calls that dispatching `message` on `topic` makes, for the
      subscriptions `subs` taken in index order. */
  function Dispatch(subs: seq<Subscription>, topic: string, message: string): seq<Invocation>
    decreases |subs|
  {
    if subs == [] then []
    else
      var last := subs[|subs| - 1];
      Dispatch(subs[..|subs| - 1], topic, message)
        + (if last.topic == topic then [Invocation(last.handler, message)] else [])
  }

  /** Adding a subscription adds at most one call at the end of a dispatch,
      and only when its topic matches. */
  lemma DispatchAppend(subs: seq<Subscription>, s: Subscription, topic: string, message: string)
    ensures Dispatch(subs + [s], topic, message)
         == Dispatch(subs, topic, message) + (if s.topic == topic then [Invocation(s.handler, message)] else [])
  {
  }

  /** A dispatch calls nothing exactly when no subscription has the topic. */
  lemma {:induction false} DispatchEmptyIffNoMatch(subs: seq<Subscription>, topic: string, message: string)
    ensures Dispatch(subs, topic, message) == [] <==> forall j :: 0 <= j < |subs| ==> subs[j].topic != topic
    decreases |subs|
  {
    if subs != [] {
      var init := subs[..|subs| - 1];
      DispatchEmptyIffNoMatch(init, topic, message);
      assert forall j :: 0 <= j < |init| ==> init[j] == subs[j];
    }
  }

  /** The number of subscriptions holding exactly `s`. */
  function Occurrences(subs: seq<Subscription>, s: Subscription): nat
    decreases |subs|
  {
    if subs == [] then 0
    else Occurrences(subs[..|subs| - 1], s) + (if subs[|subs| - 1] == s then 1 else 0)
  }

  /** The number of calls of `h` with `message`. */
  function Calls(invs: seq<Invocation>, h: Handler, message: string): nat
    decreases |invs|
  {
    if invs == [] then 0
    else Calls(invs[..|invs| - 1], h, message) + (if invs[|invs| - 1] == Invocation(h, message) then 1 else 0)
  }

  lemma CallsAppend(a: seq<Invocation>, b: seq<Invocation>, h: Handler, message: string)
    requires |b| <= 1
    ensures Calls(a + b, h, message) == Calls(a, h, message) + Calls(b, h, message)
  {
    if b != [] {
      assert (a + b)[..|a + b| - 1] == a;
      assert b[..0] == [];
    } else {
      assert a + b == a;
    }
  }

  /** A handler runs once for every subscription of it to the message's
      topic (twice if subscribed twice) and never for another topic; every
      call passes the whole message. */
  lemma {:induction false} DispatchCallsPerSubscription(subs: seq<Subscription>, topic: string, message: string, h: Handler)
    ensures Calls(Dispatch(subs, topic, message), h, message) == Occurrences(subs, Subscription(topic, h))
    ensures forall i :: 0 <= i < |Dispatch(subs, topic, message)| ==> Dispatch(subs, topic, message)[i].message == message
    decreases |subs|
  {
    if subs != [] {
      var init, last := subs[..|subs| - 1], subs[|subs| - 1];
      DispatchCallsPerSubscription(init, topic, message, h);
      var tail := if last.topic == topic then [Invocation(last.handler, message)] else [];
      CallsAppend(Dispatch(init, topic, message), tail, h, message);
    }
  }

  /** The registry (class mqqtSubscriptions): an array exactly as long as
      the number of subscriptions, replaced by a longer copy on each add. */
  class Subscriptions {
    var subscriptions: array<Subscription>
    var subscriptionCount: int

    ghost predicate Valid()
      reads this
    {
      subscriptionCount == subscriptions.Length
    }

    /** The subscriptions in the order they were added. */
    ghost function Contents(): seq<Subscription>
      reads this, subscriptions
    {
      subscriptions[..]
    }

    /** A new registry holds no subscription. */
    constructor ()
      ensures Valid() && Contents() == [] && fresh(subscriptions)
    {
      subscriptions := new Subscription[0];
      subscriptionCount := 0;
    }

    /** addSub(topic, functPtr): copies the existing pairs into a new array
        one longer, puts the new pair last and counts it. */
    method AddSub(topic: string, functPtr: Handler)
      requires Valid()
      modifies this
      ensures Valid() && fresh(subscriptions)
      ensures Contents() == old(Contents()) + [Subscription(topic, functPtr)]
      ensures subscriptionCount == old(subscriptionCount) + 1
    {
      var newSubscriptions := new Subscription[subscriptionCount + 1];
      var i := 0;
      while i < subscriptionCount
        modifies newSubscriptions
        invariant 0 <= i <= subscriptionCount
        invariant newSubscriptions[..i] == subscriptions[..i]
      {
        newSubscriptions[i] := subscriptions[i];
        i := i + 1;
      }
      newSubscriptions[subscriptionCount] := Subscription(topic, functPtr);
      assert newSubscriptions[..] == subscriptions[..] + [Subscription(topic, functPtr)];
      subscriptions := newSubscriptions;
      subscriptionCount := subscriptionCount + 1;
    }

    /** getSubscriptionCount(): the number of pairs added so far. */
    function GetSubscriptionCount(): (n: int)
      reads this, subscriptions
      requires Valid()
      ensures n == |Contents()|
    {
      subscriptionCount
    }

    /** getSubscription(i): the i-th pair added, for an index in range. */
    function GetSubscription(i: int): (s: Subscription)
      reads this, subscriptions
      requires Valid() && 0 <= i < subscriptionCount
      ensures s == Contents()[i]
    {
      subscriptions[i]
    }
  }

  /** The character a payload byte is read as. */
  function ByteToChar(b: byte): char {
    (b as int) as char
  }

  /** callback(topic, message, length): assembles the first `length` payload
      bytes into the message text, then calls, in index order, the handler of
      every subscription whose topic equals the message's topic. */
  method Callback(subs: Subscriptions, topic: string, message: seq<byte>, length: nat)
    returns (messageTemp: string, calls: seq<Invocation>)
    requires subs.Valid()
    requires length <= |message|
    ensures |messageTemp| == length
    ensures forall i :: 0 <= i < length ==> messageTemp[i] == ByteToChar(message[i])
    ensures calls == Dispatch(subs.Contents(), topic, messageTemp)
  {
    var messageTopic := topic;
    messageTemp := "";
    var i := 0;
    while i < length
      invariant 0 <= i <= length
      invariant |messageTemp| == i
      invariant forall k :: 0 <= k < i ==> messageTemp[k] == ByteToChar(message[k])
    {
      messageTemp := messageTemp + [ByteToChar(message[i])];
      i := i + 1;
    }

    calls := [];
    var j := 0;
    while j < subs.GetSubscriptionCount()
      invariant 0 <= j <= subs.subscriptionCount
      invariant calls == Dispatch(subs.Contents()[..j], topic, messageTemp)
    {
      var tempPair := subs.GetSubscription(j);
      assert subs.Contents()[..j + 1] == subs.Contents()[..j] + [tempPair];
      DispatchAppend(subs.Contents()[..j], tempPair, topic, messageTemp);
      if messageTopic == tempPair.topic {
        calls := calls + [Invocation(tempPair.handler, messageTemp)];
      }
      j := j + 1;
    }
    assert subs.Contents()[..j] == subs.Contents();
  }
}
