/**
 * Ruby values as the fake sees them: message payloads, logged data, option
 * hashes and the two errors the fake raises.
 */
module Values {

  /** A Ruby value. The fake never looks inside a payload; it only stores and forwards it. */
  datatype Value = Nil | Bool(b: bool) | Int(i: int) | Str(s: string) | Sym(name: string)

  /** Ruby truthiness: only `nil` and `false` are false. */
  predicate Truthy(v: Value) {
    !(v == Nil || v == Bool(false))
  }

  datatype Option<T> = None | Some(value: T)

  /** The errors raised by the fake. */
  datatype Error =
    | NoSubscribers(queue: string)  // RuntimeError from send_message
    | AckedTwice                    // FakeSmith::MessageAckedTwiceError
    | NilBlockCalled                // NoMethodError: `call` sent to a missing block

  /** Whether an operation ran to completion or raised. */
  datatype Outcome = Pass | Fail(error: Error)

  /** The message text the Ruby code gives the error it raises. */
  function Message(e: Error): (text: string)
    requires !e.NilBlockCalled?
    ensures e.NoSubscribers? ==> |text| > |e.queue| && text[|text| - |e.queue|..] == e.queue
  {
    match e
    case NoSubscribers(q) => "no subscribers on queue: " + q
    case AckedTwice => "message was acked twice"
  }
}
