/** The publish/subscribe topics and the point-to-point work queue of
    message_queue.py.

    Callbacks are named by identifiers; whether a callback raises is an
    oracle passed to the call that invokes it. Message identifiers and
    timestamps, which the source draws from the clock and `secrets`, are
    parameters. */
module Messaging {
  import opened Common

  /** A subscriber or consumer callback. */
  type Callback = nat

  /** A message payload. */
  type Payload = string

  /** `Message`. */
  datatype Message = Message(id: string, timestamp: int, data: Payload, attempts: int)

  /** The capacity of both queue kinds. */
  const MaxSize := 1000

  /** `list.remove(x)` when `x` is present: its first occurrence removed. */
  function RemoveFirst(s: seq<Callback>, x: Callback): (r: seq<Callback>)
    ensures x !in s ==> r == s
    ensures x in s ==> |r| == |s| - 1 && multiset(r) == multiset(s) - multiset{x}
  {
    if s == [] then []
    else
      assert s == [s[0]] + s[1..];
      if s[0] == x then s[1..] else [s[0]] + RemoveFirst(s[1..], x)
  }

  /** Unsubscribing twice is harmless: a callback subscribed once is gone
      after the first call, and the second changes nothing. */
  lemma UnsubscribeTwice(s: seq<Callback>, x: Callback)
    requires multiset(s)[x] <= 1
    ensures x !in RemoveFirst(s, x)
    ensures RemoveFirst(RemoveFirst(s, x), x) == RemoveFirst(s, x)
  {
    assert multiset(RemoveFirst(s, x))[x] == 0;
  }

  // ---------------------------------------------------------------------------
  // Publish/subscribe
  // ---------------------------------------------------------------------------

  /** The messages after publishing `m`: the oldest is dropped first when the
      queue is full. */
  function Published(messages: seq<Message>, m: Message): (r: seq<Message>)
    requires |messages| <= MaxSize
    ensures 0 < |r| <= MaxSize && r[|r| - 1] == m
    ensures |messages| < MaxSize ==> r == messages + [m]
    ensures |messages| == MaxSize ==> r == messages[1..] + [m]
  {
    (if |messages| >= MaxSize then messages[1..] else messages) + [m]
  }

  /** Every message published after a given one stays behind it: publishing
      keeps the order and only ever drops from the front. */
  lemma PublishedKeepsOrder(messages: seq<Message>, m: Message)
    requires |messages| <= MaxSize
    ensures var r := Published(messages, m);
            r[..|r| - 1] == messages[|messages| - (|r| - 1)..]
  {
  }

  /** `MessageQueue`: a topic's retained messages and its subscribers. */
  class MessageQueue {
    const name: string
    var messages: seq<Message>
    var subscribers: seq<Callback>

    /** No more than `max_size` messages are retained. */
    ghost predicate Valid()
      reads this
    {
      |messages| <= MaxSize
    }

    constructor(name: string)
      ensures Valid() && this.name == name && messages == [] && subscribers == []
    {
      this.name := name;
      messages := [];
      subscribers := [];
    }

    /** `publish`: stores the message, then notifies the subscribers. */
    method Publish(data: Payload, id: string, now: int, raises: Callback -> bool)
      returns (m: Message, notified: seq<Callback>, failed: seq<Callback>)
      requires Valid()
      modifies this
      ensures Valid() && subscribers == old(subscribers)
      ensures m == Message(id, now, data, 0) && messages == Published(old(messages), m)
      ensures notified == subscribers
      ensures forall c :: c in failed <==> c in subscribers && raises(c)
    {
      if |messages| >= MaxSize {
        messages := messages[1..];
      }
      m := Message(id, now, data, 0);
      messages := messages + [m];
      notified, failed := NotifySubscribers(m, raises);
    }

    /** `_notify_subscribers`: every subscriber is called once, in
        subscription order; one that raises does not stop the rest. */
    method NotifySubscribers(m: Message, raises: Callback -> bool) returns (notified: seq<Callback>, failed: seq<Callback>)
      ensures notified == subscribers
      ensures forall c :: c in failed <==> c in subscribers && raises(c)
    {
      notified, failed := [], [];
      for i := 0 to |subscribers|
        invariant notified == subscribers[..i]
        invariant forall c :: c in failed <==> c in subscribers[..i] && raises(c)
      {
        var callback := subscribers[i];
        notified := notified + [callback];
        if raises(callback) {
          failed := failed + [callback];
        }
        assert subscribers[..i + 1] == subscribers[..i] + [callback];
      }
      assert subscribers[..|subscribers|] == subscribers;
    }

    /** `subscribe`. */
    method Subscribe(callback: Callback)
      modifies this
      ensures subscribers == old(subscribers) + [callback] && messages == old(messages)
    {
      subscribers := subscribers + [callback];
    }

    /** The `unsubscribe` closure `subscribe` returns. */
    method Unsubscribe(callback: Callback)
      modifies this
      ensures subscribers == RemoveFirst(old(subscribers), callback) && messages == old(messages)
    {
      if callback in subscribers {
        subscribers := RemoveFirst(subscribers, callback);
      }
    }

    /** `get_messages`: the last `limit` messages when `limit` is non-zero
        (`messages[-limit:]`), otherwise all of them. */
    function GetMessages(limit: Option<int>): (r: seq<Message>)
      reads this
      ensures limit.None? || limit.value == 0 ==> r == messages
      ensures limit.Some? && 0 < limit.value <= |messages| ==> r == messages[|messages| - limit.value..]
      ensures |r| <= |messages| && r == messages[|messages| - |r|..]
    {
      if limit.Some? && limit.value != 0 then PyFrom(messages, -limit.value) else messages
    }

    /** `clear`. */
    method Clear()
      modifies this
      ensures messages == [] && subscribers == old(subscribers) && Valid()
    {
      messages := [];
    }
  }

  /** `PubSubSystem`: one queue per topic name, created on first use. */
  class PubSubSystem {
    var topics: map<string, MessageQueue>

    ghost predicate Valid()
      reads this, topics.Values
    {
      forall t :: t in topics ==> topics[t].Valid() && topics[t].name == t
    }

    constructor()
      ensures Valid() && topics == map[]
    {
      topics := map[];
    }

    /** `get_topic`: the existing queue for the name, or a new empty one that
        later calls return. */
    method GetTopic(topicName: string) returns (q: MessageQueue)
      requires Valid()
      modifies this
      ensures Valid() && topicName in topics && q == topics[topicName] && q.name == topicName
      ensures topicName in old(topics) ==> topics == old(topics)
      ensures topicName !in old(topics) ==>
                fresh(q) && q.messages == [] && q.subscribers == [] && topics == old(topics)[topicName := q]
    {
      if topicName !in topics {
        var created := new MessageQueue(topicName);
        topics := topics[topicName := created];
      }
      q := topics[topicName];
    }

    /** `publish` on a topic, creating it if needed. */
    method Publish(topicName: string, data: Payload, id: string, now: int, raises: Callback -> bool)
      returns (m: Message)
      requires Valid()
      modifies this, topics.Values
      ensures Valid() && topicName in topics && topics.Keys == old(topics.Keys) + {topicName}
      ensures m == Message(id, now, data, 0)
      ensures topicName in old(topics) ==>
                topics[topicName].messages == Published(old(topics[topicName].messages), m)
      ensures topicName !in old(topics) ==> topics[topicName].messages == [m]
      ensures topicName in old(topics) ==> topics[topicName].subscribers == old(topics[topicName].subscribers)
      ensures topicName !in old(topics) ==> topics[topicName].subscribers == []
      ensures forall t :: t in old(topics) ==> topics[t] == old(topics[t])
      ensures forall t :: t in old(topics) && t != topicName ==>
                topics[t].messages == old(topics[t].messages) && topics[t].subscribers == old(topics[t].subscribers)
    {
      var topic := GetTopic(topicName);
      var notified, failed;
      m, notified, failed := topic.Publish(data, id, now, raises);
    }

    /** `subscribe` on a topic, creating it if needed. */
    method Subscribe(topicName: string, callback: Callback)
      requires Valid()
      modifies this, topics.Values
      ensures Valid() && topicName in topics && topics.Keys == old(topics.Keys) + {topicName}
      ensures topicName in old(topics) ==>
                topics[topicName].subscribers == old(topics[topicName].subscribers) + [callback]
                && topics[topicName].messages == old(topics[topicName].messages)
      ensures topicName !in old(topics) ==> topics[topicName].subscribers == [callback] && topics[topicName].messages == []
      ensures forall t :: t in old(topics) ==> topics[t] == old(topics[t])
      ensures forall t :: t in old(topics) && t != topicName ==>
                topics[t].messages == old(topics[t].messages) && topics[t].subscribers == old(topics[t].subscribers)
    {
      var topic := GetTopic(topicName);
      topic.Subscribe(callback);
    }
  }

  // ---------------------------------------------------------------------------
  // Point to point
  // ---------------------------------------------------------------------------

  /** The number of further failures the queued messages can take before all
      of them are dropped: `3 - attempts` each. */
  function Budget(q: seq<Message>): int
  {
    if q == [] then 0 else (3 - q[0].attempts) + Budget(q[1..])
  }

  lemma {:induction false} BudgetAppend(q: seq<Message>, m: Message)
    ensures Budget(q + [m]) == Budget(q) + (3 - m.attempts)
  {
    if q != [] {
      assert (q + [m])[1..] == q[1..] + [m];
      BudgetAppend(q[1..], m);
    }
  }

  /** The message after one more failed attempt (`message.attempts += 1`). */
  function Retry(m: Message): (r: Message)
    ensures r.id == m.id && r.attempts == m.attempts + 1
  {
    m.(attempts := m.attempts + 1)
  }

  /** Queued messages have been tried fewer than three times. */
  ghost predicate Retriable(q: seq<Message>)
  {
    forall i :: 0 <= i < |q| ==> 0 <= q[i].attempts < 3
  }

  lemma {:induction false} BudgetNonNegative(q: seq<Message>)
    requires Retriable(q)
    ensures Budget(q) >= |q|
  {
    if q != [] {
      BudgetNonNegative(q[1..]);
    }
  }

  /** The identifiers of a list of messages. */
  function Ids(q: seq<Message>): (r: seq<string>)
    ensures |r| == |q| && forall i :: 0 <= i < |q| ==> r[i] == q[i].id
  {
    if q == [] then [] else [q[0].id] + Ids(q[1..])
  }

  /** The identifiers of several lists, counted together. */
  function Accounted(q: seq<Message>, delivered: seq<Message>, dropped: seq<Message>): multiset<string>
  {
    multiset(Ids(q)) + multiset(Ids(delivered)) + multiset(Ids(dropped))
  }

  lemma {:induction false} IdsAppend(q: seq<Message>, m: Message)
    ensures multiset(Ids(q + [m])) == multiset(Ids(q)) + multiset{m.id}
  {
    if q != [] {
      assert (q + [m])[1..] == q[1..] + [m];
      IdsAppend(q[1..], m);
    }
  }

  lemma IdsFront(q: seq<Message>)
    requires q != []
    ensures multiset(Ids(q)) == multiset{q[0].id} + multiset(Ids(q[1..]))
  {
    assert Ids(q) == [q[0].id] + Ids(q[1..]);
  }

  /** Taking the head off a retriable queue lowers its budget and keeps it
      retriable. */
  lemma PopBudget(q: seq<Message>)
    requires q != [] && Retriable(q)
    ensures Budget(q[1..]) < Budget(q) && Retriable(q[1..])
  {
  }

  /** Re-queueing the head with one more attempt, below the third, lowers
      the budget by one and keeps the queue retriable. */
  lemma RequeueBudget(q: seq<Message>, m: Message)
    requires q != [] && Retriable(q) && m.attempts == q[0].attempts + 1 < 3
    ensures Budget(q[1..] + [m]) < Budget(q) && Retriable(q[1..] + [m])
  {
    BudgetAppend(q[1..], m);
  }

  /** Delivering the head moves its identifier to the delivered list. */
  lemma DeliverAccounted(q: seq<Message>, d: seq<Message>, p: seq<Message>)
    requires q != []
    ensures Accounted(q[1..], d + [q[0]], p) == Accounted(q, d, p)
  {
    IdsFront(q);
    IdsAppend(d, q[0]);
  }

  /** Re-queueing the head, with one more attempt, keeps its identifier queued. */
  lemma RequeueAccounted(q: seq<Message>, d: seq<Message>, p: seq<Message>, m: Message)
    requires q != [] && m.id == q[0].id
    ensures Accounted(q[1..] + [m], d, p) == Accounted(q, d, p)
  {
    IdsFront(q);
    IdsAppend(q[1..], m);
  }

  /** Dropping the head moves its identifier to the dropped list. */
  lemma DropAccounted(q: seq<Message>, d: seq<Message>, p: seq<Message>, m: Message)
    requires q != [] && m.id == q[0].id
    ensures Accounted(q[1..], d, p + [m]) == Accounted(q, d, p)
  {
    IdsFront(q);
    IdsAppend(p, m);
  }

  /** `PointToPointQueue`. */
  class PointToPointQueue {
    const name: string
    var queue: seq<Message>
    var consumers: seq<Callback>
    var processing: bool

    /** The queue stays within `max_size`, and what it holds can still be
        retried. */
    ghost predicate Valid()
      reads this
    {
      |queue| <= MaxSize && Retriable(queue)
    }

    constructor(name: string)
      ensures Valid() && this.name == name && queue == [] && consumers == [] && !processing
    {
      this.name := name;
      queue := [];
      consumers := [];
      processing := false;
    }

    /** `send`: raises when the queue is full, otherwise enqueues. Processing,
        which the source schedules as a task, is the separate
        `ProcessQueue`. */
    method Send(data: Payload, id: string, now: int) returns (r: Result<Message>)
      requires Valid()
      modifies this
      ensures Valid() && consumers == old(consumers) && processing == old(processing)
      ensures |old(queue)| >= MaxSize ==> r == Err("Queue is full") && queue == old(queue)
      ensures |old(queue)| < MaxSize ==> r == Ok(Message(id, now, data, 0)) && queue == old(queue) + [r.value]
    {
      if |queue| >= MaxSize {
        return Err("Queue is full");
      }
      var msg := Message(id, now, data, 0);
      queue := queue + [msg];
      r := Ok(msg);
    }

    /** `register_consumer`, without the processing it schedules. */
    method RegisterConsumer(callback: Callback)
      modifies this
      ensures consumers == old(consumers) + [callback] && queue == old(queue) && processing == old(processing)
    {
      consumers := consumers + [callback];
    }

    /** `_process_queue`: unless already processing, delivers messages to the
        first consumer until the queue is empty. A failed delivery counts an
        attempt and goes to the back of the queue; the third failure drops
        the message. `fails(m)` says whether the consumer raises on `m`. */
    method ProcessQueue(fails: Message -> bool) returns (calls: seq<(Callback, Message)>, delivered: seq<Message>, dropped: seq<Message>)
      requires Valid()
      modifies this
      ensures Valid() && consumers == old(consumers)
      ensures old(processing) || old(queue) == [] || old(consumers) == [] ==>
                calls == [] && delivered == [] && dropped == [] && queue == old(queue) && processing == old(processing)
      ensures !old(processing) && old(consumers) != [] ==> queue == [] && !processing
      ensures !old(processing) && old(queue) != [] && old(consumers) != [] ==>
                Drained(old(queue), consumers[0], fails, queue, calls, delivered, dropped)
    {
      calls, delivered, dropped := [], [], [];
      if processing || queue == [] || consumers == [] {
        return;
      }
      processing := true;
      calls, delivered, dropped := Drain(queue, consumers[0], fails);
      queue := [];
      processing := false;
    }

    /** What the processing loop has done so far: every call went to
        `consumer`; a message is delivered iff a call with it succeeded; a
        message is dropped only after a call at its third attempt failed; and
        every identifier of the original queue is still queued, delivered or
        dropped. */
    static ghost predicate Drained(q0: seq<Message>, consumer: Callback, fails: Message -> bool,
                                   q: seq<Message>, calls: seq<(Callback, Message)>,
                                   delivered: seq<Message>, dropped: seq<Message>)
    {
      && Logged(consumer, fails, q, calls, delivered, dropped)
      && Accounted(q, delivered, dropped) == multiset(Ids(q0))
    }

    /** The part of `Drained` that does not count identifiers. */
    static ghost predicate Logged(consumer: Callback, fails: Message -> bool,
                                  q: seq<Message>, calls: seq<(Callback, Message)>,
                                  delivered: seq<Message>, dropped: seq<Message>)
    {
      && |q| <= MaxSize && Retriable(q)
      && (forall i :: 0 <= i < |calls| ==> calls[i].0 == consumer)
      && (forall i :: 0 <= i < |calls| && !fails(calls[i].1) ==> calls[i].1 in delivered)
      && (forall m :: m in delivered ==> !fails(m) && (consumer, m) in calls)
      && (forall m :: m in dropped ==>
            m.attempts == 3 && fails(m.(attempts := 2)) && (consumer, m.(attempts := 2)) in calls)
    }

    /** The `while self.queue and self.consumers` loop: turns until the
        queue is empty, every one with the same consumer. */
    static method Drain(q0: seq<Message>, consumer: Callback, fails: Message -> bool)
      returns (calls: seq<(Callback, Message)>, delivered: seq<Message>, dropped: seq<Message>)
      requires |q0| <= MaxSize && Retriable(q0)
      ensures Drained(q0, consumer, fails, [], calls, delivered, dropped)
    {
      calls, delivered, dropped := [], [], [];
      var q := q0;
      while q != []
        invariant Drained(q0, consumer, fails, q, calls, delivered, dropped)
        decreases Budget(q)
      {
        BudgetNonNegative(q);
        q, calls, delivered, dropped := TakeTurn(q0, q, consumer, fails, calls, delivered, dropped);
      }
    }

    /** One turn of the `_process_queue` loop: the oldest message goes to
        `consumer`; on failure it is re-queued with one more attempt, or
        dropped at the third. */
    static method TakeTurn(ghost q0: seq<Message>, q: seq<Message>, consumer: Callback, fails: Message -> bool,
                           calls: seq<(Callback, Message)>, delivered: seq<Message>, dropped: seq<Message>)
      returns (q': seq<Message>, calls': seq<(Callback, Message)>, delivered': seq<Message>, dropped': seq<Message>)
      requires q != [] && Drained(q0, consumer, fails, q, calls, delivered, dropped)
      ensures Drained(q0, consumer, fails, q', calls', delivered', dropped')
      ensures Budget(q') < Budget(q) && calls' == calls + [(consumer, q[0])]
      ensures !fails(q[0]) ==> delivered' == delivered + [q[0]] && dropped' == dropped && q' == q[1..]
      ensures fails(q[0]) && q[0].attempts < 2 ==>
                delivered' == delivered && dropped' == dropped && q' == q[1..] + [Retry(q[0])]
      ensures fails(q[0]) && q[0].attempts == 2 ==>
                delivered' == delivered && dropped' == dropped + [Retry(q[0])] && q' == q[1..]
    {
      var message := q[0];
      calls' := calls + [(consumer, message)];
      delivered', dropped' := delivered, dropped;
      if !fails(message) {
        DeliverKeepsDrained(q0, q, consumer, fails, calls, delivered, dropped);
        PopBudget(q);
        q' := q[1..];
        delivered' := delivered + [message];
      } else if message.attempts + 1 < 3 {
        var retried := Retry(message);
        RequeueKeepsDrained(q0, q, consumer, fails, calls, delivered, dropped);
        RequeueBudget(q, retried);
        q' := q[1..] + [retried];
      } else {
        var failed := Retry(message);
        DropKeepsDrained(q0, q, consumer, fails, calls, delivered, dropped);
        PopBudget(q);
        q' := q[1..];
        dropped' := dropped + [failed];
      }
    }

    /** A successful delivery keeps the turn's bookkeeping. */
    static lemma DeliverKeepsDrained(q0: seq<Message>, q: seq<Message>, consumer: Callback, fails: Message -> bool,
                                     calls: seq<(Callback, Message)>, delivered: seq<Message>, dropped: seq<Message>)
      requires q != [] && Drained(q0, consumer, fails, q, calls, delivered, dropped) && !fails(q[0])
      ensures Drained(q0, consumer, fails, q[1..], calls + [(consumer, q[0])], delivered + [q[0]], dropped)
    {
      DeliverLogged(q, consumer, fails, calls, delivered, dropped);
      DeliverAccounted(q, delivered, dropped);
    }

    static lemma DeliverLogged(q: seq<Message>, consumer: Callback, fails: Message -> bool,
                               calls: seq<(Callback, Message)>, delivered: seq<Message>, dropped: seq<Message>)
      requires q != [] && Logged(consumer, fails, q, calls, delivered, dropped) && !fails(q[0])
      ensures Logged(consumer, fails, q[1..], calls + [(consumer, q[0])], delivered + [q[0]], dropped)
    {
      PopBudget(q);
    }

    /** A re-queued failure keeps the turn's bookkeeping. */
    static lemma RequeueKeepsDrained(q0: seq<Message>, q: seq<Message>, consumer: Callback, fails: Message -> bool,
                                     calls: seq<(Callback, Message)>, delivered: seq<Message>, dropped: seq<Message>)
      requires q != [] && Drained(q0, consumer, fails, q, calls, delivered, dropped)
      requires fails(q[0]) && q[0].attempts + 1 < 3
      ensures Drained(q0, consumer, fails, q[1..] + [Retry(q[0])], calls + [(consumer, q[0])], delivered, dropped)
    {
      RequeueLogged(q, consumer, fails, calls, delivered, dropped);
      RequeueAccounted(q, delivered, dropped, Retry(q[0]));
    }

    static lemma RequeueLogged(q: seq<Message>, consumer: Callback, fails: Message -> bool,
                               calls: seq<(Callback, Message)>, delivered: seq<Message>, dropped: seq<Message>)
      requires q != [] && Logged(consumer, fails, q, calls, delivered, dropped)
      requires fails(q[0]) && q[0].attempts + 1 < 3
      ensures Logged(consumer, fails, q[1..] + [Retry(q[0])], calls + [(consumer, q[0])], delivered, dropped)
    {
      RequeueBudget(q, Retry(q[0]));
    }

    /** A failure at the third attempt drops the message and keeps the
        turn's bookkeeping. */
    static lemma DropKeepsDrained(q0: seq<Message>, q: seq<Message>, consumer: Callback, fails: Message -> bool,
                                  calls: seq<(Callback, Message)>, delivered: seq<Message>, dropped: seq<Message>)
      requires q != [] && Drained(q0, consumer, fails, q, calls, delivered, dropped)
      requires fails(q[0]) && q[0].attempts + 1 >= 3
      ensures Drained(q0, consumer, fails, q[1..], calls + [(consumer, q[0])], delivered, dropped + [Retry(q[0])])
    {
      DropLogged(q, consumer, fails, calls, delivered, dropped);
      DropAccounted(q, delivered, dropped, Retry(q[0]));
    }

    static lemma DropLogged(q: seq<Message>, consumer: Callback, fails: Message -> bool,
                            calls: seq<(Callback, Message)>, delivered: seq<Message>, dropped: seq<Message>)
      requires q != [] && Logged(consumer, fails, q, calls, delivered, dropped)
      requires fails(q[0]) && q[0].attempts + 1 >= 3
      ensures Logged(consumer, fails, q[1..], calls + [(consumer, q[0])], delivered, dropped + [Retry(q[0])])
    {
      PopBudget(q);
    }

    /** `get_size`. */
    function GetSize(): (n: int)
      reads this
      ensures n == |queue|
    {
      |queue|
    }
  }
}
