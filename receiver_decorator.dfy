/**
 * FakeSmith::ReceiverDecorator: wraps the receiver handed to a subscription
 * handler and lets it be acknowledged at most once.
 */
module Acknowledgement {
  import opened Values

  /**
   * What a decorator has done so far: whether it is acked, and how many
   * acknowledgements it has forwarded to the receiver it wraps.
   */
  datatype AckState = AckState(acked: bool, forwarded: nat)

  /** A state together with the outcome of the step that produced it. */
  datatype Acked = Acked(state: AckState, outcome: Outcome)

  /** The state of a decorator that was just built. */
  const Fresh := AckState(false, 0)

  /** The decorator's invariant: the flag is set exactly when one ack went through. */
  predicate OneShot(s: AckState) {
    s.forwarded == if s.acked then 1 else 0
  }

  /** One `ack`: raise if already acked, otherwise set the flag and forward. */
  function AckStep(s: AckState): (r: Acked)
    ensures r.outcome == Pass <==> !s.acked
    ensures r.outcome != Pass ==> r.outcome == Fail(AckedTwice) && r.state == s
    ensures r.state.acked
    ensures OneShot(s) ==> OneShot(r.state)
  {
    if s.acked then Acked(s, Fail(AckedTwice))
    else Acked(AckState(true, s.forwarded + 1), Pass)
  }

  /**
   * `n` acks in a row, as a handler block that calls `ack` `n` times does;
   * the first one that raises ends the run, since the exception leaves the block.
   */
  function AckTimes(s: AckState, n: nat): (r: Acked)
    requires OneShot(s)
    ensures OneShot(r.state)
    ensures r.state.acked <==> s.acked || n > 0
    ensures r.outcome == Pass <==> n == 0 || (!s.acked && n == 1)
    ensures r.outcome == Pass || r.outcome == Fail(AckedTwice)
    decreases n
  {
    if n == 0 then Acked(s, Pass)
    else
      var a := AckStep(s);
      if a.outcome != Pass then a else AckTimes(a.state, n - 1)
  }

  /** What one delivery through `send_message` does to its fresh decorator. */
  datatype Delivery = Delivery(ackedOnEntry: bool, state: AckState, outcome: Outcome)

  /**
   * The decorator's history in one delivery: auto-ack (when enabled) first,
   * then the handler is entered and acks `handlerAcks` times.
   */
  function Dispatch(autoAck: bool, handlerAcks: nat): (d: Delivery)
    ensures d.ackedOnEntry == autoAck
    ensures d.outcome == Pass <==> handlerAcks == 0 || (!autoAck && handlerAcks == 1)
    ensures d.outcome == Pass || d.outcome == Fail(AckedTwice)
    ensures d.state.forwarded == if autoAck || handlerAcks > 0 then 1 else 0
  {
    var entry := if autoAck then AckStep(Fresh).state else Fresh;
    var r := AckTimes(entry, handlerAcks);
    Delivery(entry.acked, r.state, r.outcome)
  }

  /** The receiver object the test hands to send_message; only its `ack` is modelled. */
  class WrappedReceiver {
    var acks: nat

    constructor ()
      ensures acks == 0
    {
      acks := 0;
    }

    method Ack()
      modifies this
      ensures acks == old(acks) + 1
    {
      acks := acks + 1;
    }
  }

  class ReceiverDecorator {
    const inner: WrappedReceiver
    var acked: bool
    ghost var forwarded: nat

    ghost predicate Valid()
      reads this
    {
      OneShot(State())
    }

    ghost function State(): AckState
      reads this
    {
      AckState(acked, forwarded)
    }

    constructor (receiver: WrappedReceiver)
      ensures Valid() && inner == receiver && State() == Fresh
    {
      inner := receiver;
      acked := false;
      forwarded := 0;
    }

    /** `ack`: a second call raises MessageAckedTwiceError and forwards nothing. */
    method Ack() returns (r: Outcome)
      requires Valid()
      modifies this, inner
      ensures Valid()
      ensures AckStep(old(State())) == Acked(State(), r)
      ensures inner.acks == old(inner.acks) + (forwarded - old(forwarded))
    {
      if acked {
        return Fail(AckedTwice);
      }
      acked := true;
      forwarded := forwarded + 1;
      inner.Ack();
      r := Pass;
    }

    /** `call`, an alias of `ack` (it takes no argument either). */
    method Call() returns (r: Outcome)
      requires Valid()
      modifies this, inner
      ensures Valid()
      ensures AckStep(old(State())) == Acked(State(), r)
      ensures inner.acks == old(inner.acks) + (forwarded - old(forwarded))
    {
      r := Ack();
    }

    /** Invoking the proc that `to_proc` returns: its argument is ignored and it acks. */
    method CallProc(obj: Value) returns (r: Outcome)
      requires Valid()
      modifies this, inner
      ensures Valid()
      ensures AckStep(old(State())) == Acked(State(), r)
      ensures inner.acks == old(inner.acks) + (forwarded - old(forwarded))
    {
      r := Ack();
    }
  }

  /**
   * Running a subscription handler that acks its receiver argument `n` times;
   * it stops at the first ack that raises.
   */
  method RunHandler(dec: ReceiverDecorator, n: nat) returns (r: Outcome)
    requires dec.Valid()
    modifies dec, dec.inner
    ensures dec.Valid()
    ensures AckTimes(old(dec.State()), n) == Acked(dec.State(), r)
    ensures dec.inner.acks == old(dec.inner.acks) + (dec.forwarded - old(dec.forwarded))
  {
    ghost var s0 := dec.State();
    r := Pass;
    var i := 0;
    while i < n && r == Pass
      invariant 0 <= i <= n
      invariant dec.Valid()
      invariant r == Pass ==> AckTimes(s0, n) == AckTimes(dec.State(), n - i)
      invariant r != Pass ==> AckTimes(s0, n) == Acked(dec.State(), r)
      invariant dec.inner.acks == old(dec.inner.acks) + (dec.forwarded - s0.forwarded)
    {
      r := dec.Ack();
      i := i + 1;
    }
  }
}
