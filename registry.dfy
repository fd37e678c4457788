/**
 * The process-wide state behind the fake: FakeSmith's class-level hashes of
 * published messages, subscriptions and their options, reply handlers, and
 * its logger. Here that state is one explicitly constructed FakeSmith object.
 */
module Registry {
  import opened Values
  import opened Acknowledgement
  import Logging

  /**
   * A subscription handler block, known by what it does to the receiver it is
   * handed: it calls `ack` on it `acks` times.
   */
  datatype Handler = Handler(acks: nat)

  /** A caller's block (a completion or reply callback), known by name. */
  datatype Block = Block(name: string)

  /** A subscription's options hash. */
  type Options = map<Value, Value>

  /** The key `send_message` looks up in the options. */
  const AutoAckKey := Sym("auto_ack")

  /** Whether a delivery acks before the handler runs: `:auto_ack` if present and truthy, true by default. */
  function AutoAck(opts: Options): (b: bool)
    ensures AutoAckKey !in opts ==> b
    ensures b <==> !(AutoAckKey in opts && opts[AutoAckKey] in {Nil, Bool(false)})
  {
    if AutoAckKey in opts then Truthy(opts[AutoAckKey]) else true
  }

  /** The steps the fake takes that a test can observe, in the order they happen. */
  datatype Event =
    | Enqueued(queue: string, message: Value)
    | HandlerInvoked(queue: string, payload: Value, receiverAcked: bool)
    | BlockCalled(block: Block, args: seq<Value>)

  predicate NoDuplicates(s: seq<string>) {
    forall i, j :: 0 <= i < j < |s| ==> s[i] != s[j]
  }

  /** The position of the first `x` in `s`. */
  function IndexOf(s: seq<string>, x: string): (i: nat)
    requires x in s
    ensures i < |s| && s[i] == x && x !in s[..i]
  {
    if s[0] == x then 0 else 1 + IndexOf(s[1..], x)
  }

  /** `s` with `x` deleted, the rest in their order: a key deleted from a Ruby Hash. */
  function Without(s: seq<string>, x: string): (r: seq<string>)
    ensures forall y :: y in r <==> y in s && y != x
    ensures NoDuplicates(s) ==> NoDuplicates(r)
    ensures x !in s ==> r == s
    ensures |r| <= |s|
  {
    if s == [] then []
    else if s[0] == x then Without(s[1..], x)
    else
      var rest := Without(s[1..], x);
      assert NoDuplicates(s) ==> NoDuplicates(s[1..]) && s[0] !in s[1..];
      assert forall j :: 0 <= j < |rest| ==> rest[j] in rest;
      [s[0]] + rest
  }

  /** In a duplicate-free key list, deleting a key cuts out exactly its one position: the other keys keep their order. */
  lemma {:induction false} WithoutCutsOut(s: seq<string>, x: string)
    requires NoDuplicates(s) && x in s
    ensures Without(s, x) == s[..IndexOf(s, x)] + s[IndexOf(s, x) + 1..]
    decreases |s|
  {
    if s[0] == x {
      assert x !in s[1..];
    } else {
      var k := IndexOf(s[1..], x);
      assert NoDuplicates(s[1..]);
      WithoutCutsOut(s[1..], x);
      assert s[..k + 1] == [s[0]] + s[1..][..k];
      assert s[k + 2..] == s[1..][k + 1..];
    }
  }

  /** The messages published to queue `q`; a queue never published to has none. */
  function Queue(messages: map<string, seq<Value>>, q: string): seq<Value> {
    if q in messages then messages[q] else []
  }

  /** `messages` after `m` is published to `q`. */
  function Enqueue(messages: map<string, seq<Value>>, q: string, m: Value): (r: map<string, seq<Value>>)
    ensures Queue(r, q) == Queue(messages, q) + [m]
    ensures |Queue(r, q)| == |Queue(messages, q)| + 1
    ensures forall other :: other != q ==> Queue(r, other) == Queue(messages, other)
    ensures r.Keys == messages.Keys + {q}
  {
    messages[q := Queue(messages, q) + [m]]
  }

  /** `messages` after each of `ms` is published to `q` in turn. */
  function EnqueueAll(messages: map<string, seq<Value>>, q: string, ms: seq<Value>): map<string, seq<Value>>
    decreases |ms|
  {
    if ms == [] then messages
    else EnqueueAll(Enqueue(messages, q, ms[0]), q, ms[1..])
  }

  /** Publishing several messages to a queue appends them all, in order, and touches no other queue. */
  lemma {:induction false} EnqueueAllAppends(messages: map<string, seq<Value>>, q: string, ms: seq<Value>)
    ensures Queue(EnqueueAll(messages, q, ms), q) == Queue(messages, q) + ms
    ensures forall other :: other != q ==> Queue(EnqueueAll(messages, q, ms), other) == Queue(messages, other)
    decreases |ms|
  {
    if ms != [] {
      EnqueueAllAppends(Enqueue(messages, q, ms[0]), q, ms[1..]);
      assert [ms[0]] + ms[1..] == ms;
      assert Queue(messages, q) + [ms[0]] + ms[1..] == Queue(messages, q) + ms;
    }
  }

  /** The stored handler `send_message` would call, if there is one (a nil block counts as none). */
  function Subscriber(subscriptions: map<string, Option<Handler>>, q: string): Option<Handler> {
    if q in subscriptions then subscriptions[q] else None
  }

  /** The reply function registered for `q`, if any (a nil block counts as none). */
  function ReplyFor(replyHandlers: map<string, Option<Value -> Value>>, q: string): Option<Value -> Value> {
    if q in replyHandlers then replyHandlers[q] else None
  }

  class FakeSmith {
    var messages: map<string, seq<Value>>
    var subscriptions: map<string, Option<Handler>>
    /** The keys of `subscriptions` in the order a Ruby Hash keeps them: first insertion. */
    var subscribedOrder: seq<string>
    var subscriptionsOptions: map<string, Options>
    var replyHandlers: map<string, Option<Value -> Value>>
    var logger: Logging.Logger
    ghost var trace: seq<Event>

    ghost predicate Valid()
      reads this
    {
      && subscriptions.Keys <= subscriptionsOptions.Keys
      && (forall q :: q in subscribedOrder <==> q in subscriptions)
      && NoDuplicates(subscribedOrder)
    }

    constructor ()
      ensures Valid() && fresh(logger)
      ensures messages == map[] && subscriptions == map[] && subscribedOrder == []
      ensures subscriptionsOptions == map[] && replyHandlers == map[]
      ensures logger.logs == map[] && trace == []
    {
      messages := map[];
      subscriptions := map[];
      subscribedOrder := [];
      subscriptionsOptions := map[];
      replyHandlers := map[];
      logger := new Logging.Logger();
      trace := [];
    }

    /** `set_reply_handler(q, &blk)`: a later call for the same queue replaces the earlier one. */
    method SetReplyHandler(q: string, blk: Option<Value -> Value>)
      modifies this
      ensures replyHandlers == old(replyHandlers)[q := blk]
      ensures messages == old(messages) && subscriptions == old(subscriptions)
      ensures subscribedOrder == old(subscribedOrder) && subscriptionsOptions == old(subscriptionsOptions)
      ensures logger == old(logger) && trace == old(trace)
    {
      replyHandlers := replyHandlers[q := blk];
    }

    /** `reply_handlers[q]`: the reply function registered for `q`, if any. */
    method ReplyHandler(q: string) returns (f: Option<Value -> Value>)
      ensures f.Some? ==> q in replyHandlers && replyHandlers[q] == f
      ensures q in replyHandlers ==> f == replyHandlers[q]
    {
      f := ReplyFor(replyHandlers, q);
    }

    /**
     * `send_message(q, payload, receiver)`: raise when nothing is subscribed to
     * `q`; otherwise wrap the receiver in a fresh decorator, ack it first when
     * auto-ack is on, then call the handler with the payload and the decorator.
     */
    method SendMessage(q: string, payload: Value, receiver: WrappedReceiver) returns (r: Outcome)
      requires Valid()
      modifies this, receiver
      ensures Valid()
      ensures messages == old(messages) && subscriptions == old(subscriptions)
      ensures subscribedOrder == old(subscribedOrder) && subscriptionsOptions == old(subscriptionsOptions)
      ensures replyHandlers == old(replyHandlers) && logger == old(logger)
      ensures Subscriber(subscriptions, q).None? ==>
        r == Fail(NoSubscribers(q)) && receiver.acks == old(receiver.acks) && trace == old(trace)
      ensures Subscriber(subscriptions, q).Some? ==>
        var d := Dispatch(AutoAck(subscriptionsOptions[q]), Subscriber(subscriptions, q).value.acks);
        && r == d.outcome
        && receiver.acks == old(receiver.acks) + d.state.forwarded
        && trace == old(trace) + [HandlerInvoked(q, payload, d.ackedOnEntry)]
    {
      var handler := Subscriber(subscriptions, q);
      if handler.None? {
        return Fail(NoSubscribers(q));
      }
      var dec := new ReceiverDecorator(receiver);
      var opts := subscriptionsOptions[q];
      var autoAck := AutoAck(opts);
      if autoAck {
        var first := dec.Ack();
        assert first == Pass;
      }
      trace := trace + [HandlerInvoked(q, payload, dec.acked)];
      r := RunHandler(dec, handler.value.acks);
    }

    /** `define_subscription(q, options, &blk)`: replaces any earlier handler and options for `q`. */
    method DefineSubscription(q: string, options: Options, blk: Option<Handler>)
      requires Valid()
      modifies this
      ensures Valid()
      ensures subscriptions == old(subscriptions)[q := blk]
      ensures subscriptionsOptions == old(subscriptionsOptions)[q := options]
      ensures subscribedOrder == if q in old(subscriptions) then old(subscribedOrder) else old(subscribedOrder) + [q]
      ensures messages == old(messages) && replyHandlers == old(replyHandlers)
      ensures logger == old(logger) && trace == old(trace)
    {
      if q !in subscriptions {
        subscribedOrder := subscribedOrder + [q];
      }
      subscriptions := subscriptions[q := blk];
      subscriptionsOptions := subscriptionsOptions[q := options];
    }

    /**
     * `undefine_subscription(q, &blk)`: forget the handler for `q` (nothing to
     * forget is fine), then call the block once; with no block that call raises.
     */
    method UndefineSubscription(q: string, blk: Option<Block>) returns (r: Outcome)
      requires Valid()
      modifies this
      ensures Valid()
      ensures subscriptions == old(subscriptions) - {q}
      ensures subscribedOrder == Without(old(subscribedOrder), q)
      ensures q in old(subscriptions) ==>
        var i := IndexOf(old(subscribedOrder), q);
        subscribedOrder == old(subscribedOrder)[..i] + old(subscribedOrder)[i + 1..]
      ensures q !in subscribedOrder
      ensures subscriptionsOptions == old(subscriptionsOptions)
      ensures messages == old(messages) && replyHandlers == old(replyHandlers) && logger == old(logger)
      ensures blk.None? ==> r == Fail(NilBlockCalled) && trace == old(trace)
      ensures blk.Some? ==> r == Pass && trace == old(trace) + [BlockCalled(blk.value, [])]
    {
      if q in subscribedOrder {
        WithoutCutsOut(subscribedOrder, q);
      }
      subscriptions := subscriptions - {q};
      subscribedOrder := Without(subscribedOrder, q);
      if blk.None? {
        return Fail(NilBlockCalled);
      }
      trace := trace + [BlockCalled(blk.value, [])];
      r := Pass;
    }

    /** `get_messages(q)`: the messages published to `q`, creating an empty entry when there is none. */
    method GetMessages(q: string) returns (ms: seq<Value>)
      modifies this
      ensures ms == Queue(old(messages), q)
      ensures messages == old(messages)[q := ms]
      ensures subscriptions == old(subscriptions) && subscribedOrder == old(subscribedOrder)
      ensures subscriptionsOptions == old(subscriptionsOptions) && replyHandlers == old(replyHandlers)
      ensures logger == old(logger) && trace == old(trace)
    {
      ms := Queue(messages, q);
      messages := messages[q := ms];
    }

    /** `add_message(q, m)`: append `m` to the messages published to `q`. */
    method AddMessage(q: string, m: Value)
      modifies this
      ensures messages == Enqueue(old(messages), q, m)
      ensures subscriptions == old(subscriptions) && subscribedOrder == old(subscribedOrder)
      ensures subscriptionsOptions == old(subscriptionsOptions) && replyHandlers == old(replyHandlers)
      ensures logger == old(logger) && trace == old(trace) + [Enqueued(q, m)]
    {
      var ms := GetMessages(q);
      messages := messages[q := ms + [m]];
      trace := trace + [Enqueued(q, m)];
    }

    /** `subscribed_queues`: the names with a subscription, in the order they were first subscribed. */
    method SubscribedQueues() returns (qs: seq<string>)
      requires Valid()
      ensures qs == subscribedOrder
      ensures forall q :: q in qs <==> q in subscriptions
      ensures NoDuplicates(qs)
      ensures |qs| == |subscriptions|
    {
      qs := subscribedOrder;
      DistinctCovers(qs, subscriptions.Keys);
    }

    /**
     * `clear_all`: drops subscriptions and messages and replaces the logger with
     * a fresh one. Subscription options and reply handlers are kept.
     */
    method ClearAll()
      requires Valid()
      modifies this
      ensures Valid() && fresh(logger)
      ensures subscriptions == map[] && subscribedOrder == [] && messages == map[]
      ensures forall q :: Queue(messages, q) == []
      ensures forall l :: Logging.Entries(logger.logs, l) == []
      ensures subscriptionsOptions == old(subscriptionsOptions) && replyHandlers == old(replyHandlers)
      ensures trace == old(trace)
    {
      subscriptions := map[];
      subscribedOrder := [];
      messages := map[];
      logger := new Logging.Logger();
    }
  }

  /** A duplicate-free sequence holding exactly the elements of a set is as long as the set is large. */
  lemma {:induction false} DistinctCovers(s: seq<string>, keys: set<string>)
    requires NoDuplicates(s)
    requires forall x :: x in s <==> x in keys
    ensures |s| == |keys|
    decreases |s|
  {
    if s != [] {
      var rest := s[1..];
      assert NoDuplicates(rest);
      forall x ensures x in rest <==> x in keys - {s[0]} {
        if x in rest {
          var k :| 0 <= k < |rest| && rest[k] == x;
          assert s[k + 1] == x;
        }
      }
      DistinctCovers(rest, keys - {s[0]});
    } else {
      assert keys == {};
    }
  }
}
