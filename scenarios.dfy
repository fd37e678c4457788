/**
 * Client code written against the contracts alone, as a test suite using the
 * fake would: each method builds a fresh registry and states what the fake
 * must then report.
 */
module Scenarios {
  import opened Values
  import opened Acknowledgement
  import opened Registry
  import opened Messaging

  /** With default options the delivery is acked before the handler runs, so the handler's own ack raises. */
  method AutoAckedHandlerAckRaises() returns (r: Outcome, acks: nat)
    ensures r == Fail(AckedTwice)
    ensures acks == 1
  {
    var fake := new FakeSmith();
    var receiver := new Receiver(fake, "jobs", map[]);
    receiver.Subscribe(Some(Handler(1)));
    var delivery := new WrappedReceiver();
    r := fake.SendMessage("jobs", Str("payload"), delivery);
    acks := delivery.acks;
  }

  /** With `auto_ack: false` the handler's first ack goes through and a second one raises. */
  method ManualAckOnceThenRaises() returns (once: Outcome, twice: Outcome, acks: nat)
    ensures once == Pass
    ensures twice == Fail(AckedTwice)
    ensures acks == 2
  {
    var fake := new FakeSmith();
    var receiver := new Receiver(fake, "jobs", map[AutoAckKey := Bool(false)]);
    receiver.Subscribe(Some(Handler(1)));
    var delivery := new WrappedReceiver();
    once := fake.SendMessage("jobs", Str("first"), delivery);
    receiver.Subscribe(Some(Handler(2)));
    twice := fake.SendMessage("jobs", Str("second"), delivery);
    acks := delivery.acks;
  }

  /** After `unsubscribe` the queue is no longer listed and sending to it raises. */
  method SendAfterUnsubscribeRaises() returns (done: Outcome, queues: seq<string>, r: Outcome)
    ensures done == Pass
    ensures queues == ["audit"]
    ensures r == Fail(NoSubscribers("jobs"))
  {
    var fake := new FakeSmith();
    var jobs := new Receiver(fake, "jobs", map[]);
    var audit := new Receiver(fake, "audit", map[]);
    jobs.Subscribe(Some(Handler(0)));
    audit.Subscribe(Some(Handler(0)));
    assert fake.subscribedOrder == ["jobs", "audit"];
    assert IndexOf(["jobs", "audit"], "jobs") == 0;
    done := jobs.Unsubscribe(Some(Block("unsubscribed")));
    assert fake.subscribedOrder == ["audit"];
    queues := fake.SubscribedQueues();
    var delivery := new WrappedReceiver();
    r := fake.SendMessage("jobs", Nil, delivery);
  }

  /** A publish with a completion block and a reply function runs enqueue, completion, reply, in that order. */
  method PublishWithReply() returns (ghost effects: seq<Event>, count: seq<Value>)
    ensures effects == [Enqueued("rpc", Str("ping")), BlockCalled(Block("sent"), []),
                        BlockCalled(Block("reply"), [Str("pong")])]
    ensures count == [Str("ping")]
  {
    var fake := new FakeSmith();
    fake.SetReplyHandler("rpc", Some((m: Value) => if m == Str("ping") then Str("pong") else Nil));
    var sender := new Sender(fake, "rpc");
    sender.OnReply(Some(Block("reply")));
    sender.Publish(Str("ping"), Some(Block("sent")));
    effects := fake.trace;
    count := fake.GetMessages("rpc");
  }

  /** `clear_all` after some traffic leaves no subscriptions, no messages and an empty logger. */
  method ClearAllAfterTraffic() returns (queues: seq<string>, messages: seq<Value>, info: seq<Value>)
    ensures queues == [] && messages == [] && info == []
  {
    var fake := new FakeSmith();
    var receiver := new Receiver(fake, "jobs", map[]);
    receiver.Subscribe(Some(Handler(0)));
    var sender := new Sender(fake, "jobs");
    sender.Publish(Int(1), None);
    fake.logger.Write(Logging.Info, Str("published"), None);
    fake.ClearAll();
    queues := fake.SubscribedQueues();
    messages := fake.GetMessages("jobs");
    info := fake.logger.Log(Logging.Info);
  }
}
