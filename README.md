# fake_smith in Dafny

A model of `fake_smith`, an in-memory stand-in for the Smith message-queue
client used in tests. The Ruby library keeps process-wide hashes on the
`FakeSmith` class: published messages per queue, one subscription handler and
its options per queue, reply handlers per queue, and a logger. It also wraps
each delivered receiver in a `ReceiverDecorator` that allows one
acknowledgement only. The `Smith::Messaging::Receiver` and `Sender` facades
delegate to that state.

Layout:

- `values.dfy` (module `Values`): Ruby values (`nil`, booleans, integers,
  strings, symbols), their truthiness, and the fake's errors.
- `receiver_decorator.dfy` (module `Acknowledgement`): the decorator as a class.
  Its `acked` flag is real. A ghost count records the acks it forwarded. The
  pure functions `AckStep`, `AckTimes` and `Dispatch` specify one ack, a run of
  acks, and one whole delivery.
- `logger.dfy` (module `Logging`): `FakeSmith::Logger` as a class over a map
  from level to logged values.
- `registry.dfy` (module `Registry`): the `FakeSmith` class-level state as one
  explicitly built `FakeSmith` object. It holds the message, subscription,
  option and reply-handler maps and the logger. A ghost `trace` records, in
  order, what a test can observe: enqueues, handler calls (with whether the
  receiver was already acked), and calls of the caller's blocks.
- `messaging.dfy` (module `Messaging`): the `Receiver` and `Sender` facades.
- `scenarios.dfy` (module `Scenarios`): client methods that use only the
  contracts above and state the outcomes a test suite expects.

Modelling choices:

- A subscription handler is known by how many times it calls `ack` on the
  receiver it is given (`Handler(acks)`). The first ack that raises ends the
  handler, because the exception leaves the block.
- Completion, reply and count blocks are `Block(name)` values. Calling one
  appends `BlockCalled(block, args)` to the trace.
- A missing block is `None`. `subscribe` without a block stores nil. The queue
  is then still listed by `subscribed_queues`, but `send_message` raises "no
  subscribers" for it (lib/fake_smith.rb:36 tests the stored value, not the
  key). `unsubscribe` without a block deletes the subscription and then raises
  `NoMethodError` from `nil.call` (`NilBlockCalled`).
- A Ruby Hash keeps its keys in first-insertion order. So `subscribed_queues`
  is modelled by the sequence `subscribedOrder` beside the map. Redefining a
  queue keeps its place. Deleting a queue removes it (`Without`).
- `auto_ack` is read from the options hash under the symbol key `:auto_ack`.
  A missing key means true. Otherwise the value's Ruby truthiness decides, so
  `nil` also turns auto-ack off.
- `call` is an alias of the zero-argument `ack`; only the proc from `to_proc`
  takes an argument, which it ignores. So `Call()` takes none and
  `CallProc(obj)` ignores its argument.
- `clear_all` keeps subscription options and reply handlers. The code clears
  only subscriptions, messages and the logger. The model keeps them too, and
  `ClearAll`'s contract says so.

## Model

| member | source | states |
|---|---|---|
| Values.Message | lib/fake_smith.rb:35-36 | the "no subscribers" error text ends with the queue's name |
| Acknowledgement.AckStep | lib/fake_smith.rb:12-16 | an ack passes exactly when the decorator was not yet acked; a failing ack raises MessageAckedTwiceError and changes nothing; afterwards the flag is set; the one-shot invariant (flag set iff one ack forwarded) is preserved |
| Acknowledgement.AckTimes | lib/fake_smith.rb:12-17 | n acks in a row from a one-shot state: all pass only when n is 0, or n is 1 on an unacked decorator; any failure is the acked-twice error; the flag ends set iff it was set or n > 0; at most one ack is ever forwarded |
| Acknowledgement.Dispatch | lib/fake_smith.rb:37-41 | the handler is entered with an already acked receiver iff auto-ack is on; the delivery raises acked-twice iff the handler acks at least once under auto-ack or at least twice without it; exactly one ack reaches the wrapped receiver iff auto-ack is on or the handler acks |
| Acknowledgement.WrappedReceiver.Ack | lib/fake_smith.rb:15 | the wrapped receiver counts each ack forwarded to it |
| Acknowledgement.ReceiverDecorator.constructor | lib/fake_smith.rb:37 | a new decorator wraps the given receiver and is not acked |
| Acknowledgement.ReceiverDecorator.Ack | lib/fake_smith.rb:12-16 | `ack` steps the state as AckStep does, keeps the one-shot invariant, and forwards to the wrapped receiver exactly the acks that pass |
| Acknowledgement.ReceiverDecorator.Call | lib/fake_smith.rb:17 | `call` behaves exactly as `ack` |
| Acknowledgement.ReceiverDecorator.CallProc | lib/fake_smith.rb:19-21 | the proc from `to_proc` ignores its argument and behaves exactly as `ack` |
| Acknowledgement.RunHandler | lib/fake_smith.rb:41 | a handler acking n times leaves the decorator as AckTimes says and forwards only the acks that passed |
| Logging.Record | lib/fake_smith.rb:110-121 | appending at a level adds the value at the end of that level's entries and leaves every other level unchanged |
| Logging.LiteralAndBlockAgree | lib/fake_smith.rb:115-121 | logging a value and logging a block that yields it capture the same entries, whatever data accompanies the block |
| Logging.Logger.constructor | lib/fake_smith.rb:106-108 | a new logger has every level empty |
| Logging.Logger.Log | lib/fake_smith.rb:110-112 | `log(level)` returns the level's entries (empty if never logged) and creates the entry |
| Logging.Logger.Write | lib/fake_smith.rb:114-122 | a level method appends the block's result when a block is given, else the data argument (nil by default), at that level only |
| Registry.AutoAck | lib/fake_smith.rb:38-40 | auto-ack is on exactly when `:auto_ack` is absent or holds a truthy value (anything but false or nil) |
| Registry.Without | lib/fake_smith.rb:50 | deleting a key leaves exactly the other keys, adds no duplicates, and changes nothing when the key is absent |
| Registry.WithoutCutsOut | lib/fake_smith.rb:50 | in a duplicate-free key list, deleting a key cuts out exactly its one position, so every other key keeps its order |
| Registry.Enqueue | lib/fake_smith.rb:58-61 | publishing appends the message to that queue's sequence, so its count grows by one, and leaves every other queue unchanged |
| Registry.EnqueueAllAppends | lib/fake_smith.rb:58-61 | publishing several messages to a queue appends them all in order and leaves every other queue unchanged |
| Registry.DistinctCovers | lib/fake_smith.rb:69-71 | a duplicate-free listing of the subscribed names is exactly as long as the number of subscriptions |
| Registry.FakeSmith.constructor | lib/fake_smith.rb:79-93 | every registry starts empty, with a fresh empty logger |
| Registry.FakeSmith.SetReplyHandler | lib/fake_smith.rb:26-29 | the reply handler for the queue is replaced and nothing else changes |
| Registry.FakeSmith.ReplyHandler | lib/fake_smith.rb:31-33 | the lookup yields the registered reply function for the queue, or none |
| Registry.FakeSmith.SendMessage | lib/fake_smith.rb:35-42 | with no subscriber (or a nil one) it raises "no subscribers" and changes no state; otherwise the handler is called once, on a receiver already acked iff auto-ack, and the outcome and the acks forwarded are Dispatch's; the registry maps are unchanged |
| Registry.FakeSmith.DefineSubscription | lib/fake_smith.rb:44-47 | the handler and options for the name replace earlier ones; a new name goes last in the subscribed list, an existing one keeps its place |
| Registry.FakeSmith.UndefineSubscription | lib/fake_smith.rb:49-52 | the name is removed from the subscriptions and cut out of the subscribed list at its position, the other names keeping their order; options are kept, then the block is called exactly once (with no block, nil.call raises after the removal) |
| Registry.FakeSmith.GetMessages | lib/fake_smith.rb:54-56 | returns the queue's messages, empty for a queue never published to, and creates that entry |
| Registry.FakeSmith.AddMessage | lib/fake_smith.rb:58-61 | the queue's messages become the old ones with the message appended; other queues are unchanged |
| Registry.FakeSmith.SubscribedQueues | lib/fake_smith.rb:69-71 | lists each subscribed name exactly once, in first-subscription order, and nothing else |
| Registry.FakeSmith.ClearAll | lib/fake_smith.rb:63-67 | afterwards nothing is subscribed, every queue reads as empty, and the logger is a fresh one with all levels empty; options and reply handlers are kept |
| Messaging.PublishEffects | lib/fake_smith.rb:170-176 | publish's effects in order: enqueue first, then the completion block if given, then the on_reply block with the reply function's result, only when both are set |
| Messaging.Receiver.constructor | lib/fake_smith.rb:129-132 | a receiver keeps its queue name and options |
| Messaging.Receiver.Subscribe | lib/fake_smith.rb:134-136 | subscribing defines the subscription for the receiver's queue with the receiver's options |
| Messaging.Receiver.Unsubscribe | lib/fake_smith.rb:138-140 | unsubscribing removes the receiver's queue, leaving the other subscribed names in their order, and calls the block once |
| Messaging.Sender.constructor | lib/fake_smith.rb:158-161 | a sender keeps its queue name and has no on_reply block |
| Messaging.Sender.OnReply | lib/fake_smith.rb:163-165 | the on_reply block is replaced (by none when no block is given) |
| Messaging.Sender.Publish | lib/fake_smith.rb:170-176 | the message is appended to the sender's queue and the trace grows by exactly PublishEffects; nothing else changes |
| Messaging.Sender.MessageCount | lib/fake_smith.rb:178-180 | with a block, the block is called once with the queue's current count (and the queue's entry is created); without one nothing happens |
| Scenarios.AutoAckedHandlerAckRaises | lib/fake_smith.rb:37-41 | under default options a handler that acks raises acked-twice and the receiver sees one ack |
| Scenarios.ManualAckOnceThenRaises | lib/fake_smith.rb:37-41 | with `auto_ack: false` a handler's first ack passes and a handler acking twice raises |
| Scenarios.SendAfterUnsubscribeRaises | lib/fake_smith.rb:49-52 | after unsubscribing "jobs", `subscribed_queues` is exactly ["audit"] and sending to "jobs" raises "no subscribers" |
| Scenarios.PublishWithReply | lib/fake_smith.rb:170-176 | a publish with completion and reply runs enqueue, completion, reply in that order, the reply carrying the reply function's result |
| Scenarios.ClearAllAfterTraffic | lib/fake_smith.rb:63-67 | after traffic and `clear_all`, no queue is subscribed, the queue is empty and the logger's level is empty |

## Left out

- The optional `require "smith"` and the version require (lib/fake_smith.rb:1-8): load-time plumbing.
- `SimpleDelegator` forwarding of every method other than `ack`: only the forwarded ack is modelled.
- Handler bodies: a handler is reduced to its number of ack calls. Handlers that rescue the error, publish, or use the payload are not modelled, and neither is the handler's return value that `send_message` passes back.
- Reply functions are total functions on values; a reply function that raises is not modelled.
- Block bodies: a block's call is recorded with its arguments; what the block then does is not modelled.
- The block given to `Sender.new` (lib/fake_smith.rb:160) runs caller code against the new sender. The model cannot express that; callers configure the sender with `OnReply` after construction instead. The ignored `_opts` argument is dropped.
- `requeue_parameters`, `on_requeue_limit` and `on_timeout` (lib/fake_smith.rb:142-148, 167-168): stored or ignored, never acted on.
- The `Smith::Agent` facade (lib/fake_smith.rb:186-236): no-ops and facade factories. `Agent#sender` builds one sender per queue name and returns the names, not the senders.
- Aliasing: `get_messages` and `log` return the live Ruby arrays, which callers could mutate; the model returns copies of the values.
- Lazy `||=` creation of the class-level hashes: the maps always exist and start empty.
- Options that are not a hash (e.g. nil) make `send_message` raise `NoMethodError`; options are always a map here.
- The insertion order of the logger's level keys is not modelled; each level's entries keep their order.
- Logging.Logger.Log: Ruby's `log(level)` accepts any key and creates an empty entry for it; the model's keys are only the six levels.
- Values are nil, booleans, integers, strings and symbols; other Ruby payloads (hashes, arrays, objects) are not modelled.
- Values.Message: gives the text of the two errors the fake raises itself; the wording of Ruby's own `NoMethodError` for `nil.call` is not modelled.
- A wrapped receiver whose own `ack` raises is not modelled.
