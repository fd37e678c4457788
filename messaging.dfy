/**
 * Smith::Messaging::Receiver and Sender: the per-queue objects application
 * code builds, which hand everything to the FakeSmith registry.
 */
module Messaging {
  import opened Values
  import opened Registry

  /**
   * What `publish` makes happen, in order: the message is enqueued, then the
   * completion block (when given) is called, then the sender's `on_reply` block
   * is called with the reply, but only when `q` has a reply function and the
   * sender has an `on_reply` block.
   */
  function PublishEffects(q: string, m: Value, completion: Option<Block>,
                          reply: Option<Value -> Value>, onReply: Option<Block>): (es: seq<Event>)
    ensures |es| == 1 + (if completion.Some? then 1 else 0) + (if reply.Some? && onReply.Some? then 1 else 0)
    ensures es[0] == Enqueued(q, m)
    ensures completion.Some? ==> es[1] == BlockCalled(completion.value, [])
    ensures reply.Some? && onReply.Some? ==> es[|es| - 1] == BlockCalled(onReply.value, [reply.value(m)])
    ensures forall i :: 0 < i < |es| ==> es[i].BlockCalled?
  {
    [Enqueued(q, m)]
    + (if completion.Some? then [BlockCalled(completion.value, [])] else [])
    + (if reply.Some? && onReply.Some? then [BlockCalled(onReply.value, [reply.value(m)])] else [])
  }

  class Receiver {
    const registry: FakeSmith
    const queueName: string
    const options: Options

    constructor (registry: FakeSmith, queueName: string, options: Options)
      ensures this.registry == registry && this.queueName == queueName && this.options == options
    {
      this.registry := registry;
      this.queueName := queueName;
      this.options := options;
    }

    /** `subscribe(&blk)`: define the subscription for this queue with this receiver's options. */
    method Subscribe(blk: Option<Handler>)
      requires registry.Valid()
      modifies registry
      ensures registry.Valid()
      ensures registry.subscriptions == old(registry.subscriptions)[queueName := blk]
      ensures registry.subscriptionsOptions == old(registry.subscriptionsOptions)[queueName := options]
      ensures registry.subscribedOrder ==
        if queueName in old(registry.subscriptions) then old(registry.subscribedOrder)
        else old(registry.subscribedOrder) + [queueName]
      ensures registry.messages == old(registry.messages) && registry.replyHandlers == old(registry.replyHandlers)
      ensures registry.logger == old(registry.logger) && registry.trace == old(registry.trace)
    {
      registry.DefineSubscription(queueName, options, blk);
    }

    /** `unsubscribe(&blk)`: remove the subscription for this queue, then call the block. */
    method Unsubscribe(blk: Option<Block>) returns (r: Outcome)
      requires registry.Valid()
      modifies registry
      ensures registry.Valid()
      ensures registry.subscriptions == old(registry.subscriptions) - {queueName}
      ensures registry.subscribedOrder == Without(old(registry.subscribedOrder), queueName)
      ensures queueName in old(registry.subscriptions) ==>
        var i := IndexOf(old(registry.subscribedOrder), queueName);
        registry.subscribedOrder == old(registry.subscribedOrder)[..i] + old(registry.subscribedOrder)[i + 1..]
      ensures registry.subscriptionsOptions == old(registry.subscriptionsOptions)
      ensures registry.messages == old(registry.messages) && registry.replyHandlers == old(registry.replyHandlers)
      ensures registry.logger == old(registry.logger)
      ensures blk.None? ==> r == Fail(NilBlockCalled) && registry.trace == old(registry.trace)
      ensures blk.Some? ==> r == Pass && registry.trace == old(registry.trace) + [BlockCalled(blk.value, [])]
    {
      r := registry.UndefineSubscription(queueName, blk);
    }
  }

  class Sender {
    const registry: FakeSmith
    const queueName: string
    var onReply: Option<Block>

    constructor (registry: FakeSmith, queueName: string)
      ensures this.registry == registry && this.queueName == queueName && onReply.None?
    {
      this.registry := registry;
      this.queueName := queueName;
      onReply := None;
    }

    /** `on_reply(opts, &blk)`: keep the block (nil when none is given) for later replies. */
    method OnReply(blk: Option<Block>)
      modifies this
      ensures onReply == blk
    {
      onReply := blk;
    }

    /** `publish(message, &blk)`: enqueue, call the completion block, then the synchronous reply round trip. */
    method Publish(message: Value, completion: Option<Block>)
      requires registry.Valid()
      modifies registry
      ensures registry.Valid()
      ensures registry.messages == Enqueue(old(registry.messages), queueName, message)
      ensures registry.trace == old(registry.trace)
        + PublishEffects(queueName, message, completion, ReplyFor(old(registry.replyHandlers), queueName), onReply)
      ensures registry.subscriptions == old(registry.subscriptions)
      ensures registry.subscribedOrder == old(registry.subscribedOrder)
      ensures registry.subscriptionsOptions == old(registry.subscriptionsOptions)
      ensures registry.replyHandlers == old(registry.replyHandlers) && registry.logger == old(registry.logger)
    {
      registry.AddMessage(queueName, message);
      if completion.Some? {
        registry.trace := registry.trace + [BlockCalled(completion.value, [])];
      }
      var reply := registry.ReplyHandler(queueName);
      if reply.Some? && onReply.Some? {
        registry.trace := registry.trace + [BlockCalled(onReply.value, [reply.value(message)])];
      }
    }

    /** `message_count(&blk)`: with a block, call it with the number of messages published to this queue. */
    method MessageCount(blk: Option<Block>)
      requires registry.Valid()
      modifies registry
      ensures registry.Valid()
      ensures blk.None? ==> registry.messages == old(registry.messages) && registry.trace == old(registry.trace)
      ensures blk.Some? ==>
        && registry.messages == old(registry.messages)[queueName := Queue(old(registry.messages), queueName)]
        && registry.trace == old(registry.trace)
             + [BlockCalled(blk.value, [Int(|Queue(old(registry.messages), queueName)|)])]
      ensures registry.subscriptions == old(registry.subscriptions)
      ensures registry.subscribedOrder == old(registry.subscribedOrder)
      ensures registry.subscriptionsOptions == old(registry.subscriptionsOptions)
      ensures registry.replyHandlers == old(registry.replyHandlers) && registry.logger == old(registry.logger)
    {
      if blk.Some? {
        var ms := registry.GetMessages(queueName);
        registry.trace := registry.trace + [BlockCalled(blk.value, [Int(|ms|)])];
      }
    }
  }
}
