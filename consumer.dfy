/**
 * activemq-cpp ActiveMQConsumer: the per-consumer queue of dispatched messages that no
 * listener took, the blocking receive calls that take from its head, listener dispatch,
 * and close, which purges what is still queued.
 *
 * Everything done by collaborators the model cannot see is recorded in the consumer's
 * state: the acknowledgements sent through the session, the messages deleted, the
 * messages whose ack handler was set to this consumer and the messages handed to the
 * listener. A wait on the queue consumes one Wake, which says what other threads did
 * while the lock was released and what the clock read when the wait returned.
 */
module Consumers {
  import opened Common
  import Wire

  /** A dispatched message; an expiration of 0 means it never expires. */
  datatype Message = Message(messageId: int, expiration: int)

  /** isExpired: the message has an expiration and the clock has passed it. */
  predicate Expired(m: Message, now: int) {
    0 < m.expiration < now
  }

  /** The acknowledgement mode of the owning session. */
  datatype Mode = Mode(clientAcknowledge: bool, transacted: bool)

  datatype Listener = Listener(id: int)

  datatype ConsumerError =
    | InvalidState              // the consumer is closed
    | IllegalArgument           // a resource other than this consumer's ConsumerInfo closed
    | CollaboratorFailed(reason: string)   // the ConsumerInfo or the session threw

  /** A failure injected into the purge: destroying the at-th popped message throws. */
  datatype Fault = Fault(at: nat, reason: string)

  /**
   * What one wait observed: messages other threads queued, whether one of them closed the
   * consumer, the clock. Only dispatch notifies, so a wake with nothing pushed stands for
   * a spurious or timed return of the wait.
   */
  datatype Wake = Wake(pushed: seq<Message>, closes: bool, clock: int)

  /**
   * The consumer's dealings with its collaborators, in order: messages acknowledged
   * through the session, messages deleted, messages whose ack handler was set to this
   * consumer, messages handed to the listener.
   */
  datatype Effects = Effects(
    acknowledged: seq<Message>,
    destroyed: seq<Message>,
    ackHandled: seq<Message>,
    heard: seq<Message>)

  datatype ConsumerValue = ConsumerValue(
    unconsumedMessages: seq<Message>,
    closed: bool,
    infoClosed: bool,
    listener: Option<Listener>,
    effects: Effects)

  /** An operation's outcome together with the state it leaves. */
  datatype Step = Step(outcome: Outcome<ConsumerError>, value: ConsumerValue)

  /** What a dequeue hands back. */
  datatype Received =
    | Got(m: Message)
    | NoMessage
    | Blocked                   // still waiting when the schedule of wakes ran out
    | Refused(error: ConsumerError)

  /** A dequeue's result, the state it leaves and the last clock reading. */
  datatype DequeueState = DequeueState(result: Received, value: ConsumerValue, clock: int)

  /** The timeout left until deadline, as dequeue computes it: a 32-bit int, never negative. */
  function Remaining(deadline: int, now: int): (t: int)
    ensures t >= 0
    ensures Wire.INT_MIN <= deadline - now <= Wire.INT_MAX ==> (t == 0 <==> deadline <= now)
  {
    var left := Wire.ToInt(deadline - now);
    if left > 0 then left else 0
  }

  /** The first of two errors: the earlier one wins. */
  function FirstError(first: Outcome<ConsumerError>, second: Outcome<ConsumerError>): (r: Outcome<ConsumerError>)
    ensures r.Fail? <==> first.Fail? || second.Fail?
    ensures first.Fail? ==> r == first
  {
    if first.Fail? then first else second
  }

  /** destroyMessage: a message is deleted here unless the session is transacted. */
  function Destroy(e: Effects, mode: Mode, m: Option<Message>): Effects {
    if m.Some? && !mode.transacted then e.(destroyed := e.destroyed + [m.value]) else e
  }

  /** beforeMessageIsConsumed: in client-acknowledge mode the message's ack handler becomes this consumer. */
  function BeforeConsumed(e: Effects, mode: Mode, m: Message): Effects {
    if mode.clientAcknowledge then e.(ackHandled := e.ackHandled + [m]) else e
  }

  /** afterMessageIsConsumed: acknowledged unless in client-acknowledge mode, then destroyed. */
  function AfterConsumed(e: Effects, mode: Mode, m: Message): Effects {
    var acked := if mode.clientAcknowledge then e else e.(acknowledged := e.acknowledged + [m]);
    Destroy(acked, mode, Some(m))
  }

  /** Pre- and post-processing of a message the consumer is done with. */
  function Consume(e: Effects, mode: Mode, m: Message): Effects {
    AfterConsumed(BeforeConsumed(e, mode, m), mode, m)
  }

  /**
   * dispatch: an expired message is acknowledged and deleted; otherwise a listener gets
   * it at once, and without one it joins the tail of the queue.
   */
  function AfterDispatch(v: ConsumerValue, mode: Mode, m: Message, now: int): ConsumerValue {
    var e := v.effects;
    if Expired(m, now) then
      v.(effects := e.(acknowledged := e.acknowledged + [m], destroyed := e.destroyed + [m]))
    else if v.listener.Some? then
      v.(effects := AfterConsumed(BeforeConsumed(e, mode, m).(heard := e.heard + [m]), mode, m))
    else
      v.(unconsumedMessages := v.unconsumedMessages + [m])
  }

  /** purgeMessages from the k-th pop on: pops and destroys each queued message. */
  function Purge(v: ConsumerValue, mode: Mode, fault: Option<Fault>, k: nat): Step
    decreases |v.unconsumedMessages|
  {
    if v.unconsumedMessages == [] then Step(Pass, v)
    else
      var popped := v.(unconsumedMessages := v.unconsumedMessages[1..]);
      if fault.Some? && fault.value.at == k then Step(Fail(CollaboratorFailed(fault.value.reason)), popped)
      else Purge(popped.(effects := Destroy(v.effects, mode, Some(v.unconsumedMessages[0]))), mode, fault, k + 1)
  }

  /**
   * close: on an open consumer, closes its ConsumerInfo (infoReply is what that call
   * does), marks it closed and purges the queue, reporting the first error.
   */
  function AfterClose(v: ConsumerValue, mode: Mode, infoReply: Outcome<ConsumerError>, fault: Option<Fault>): Step {
    if v.closed then Step(Pass, v)
    else
      var infoError := if v.infoClosed then Pass else infoReply;
      var v1 := v.(infoClosed := v.infoClosed || infoReply.Pass?, closed := true);
      var p := Purge(v1, mode, fault, 0);
      Step(FirstError(infoError, p.outcome), p.value)
  }

  /** What other threads did during one wait, as the waiter finds it on waking. */
  function ApplyWake(v: ConsumerValue, mode: Mode, w: Wake): ConsumerValue {
    var v1 := v.(unconsumedMessages := v.unconsumedMessages + w.pushed);
    if w.closes then AfterClose(v1, mode, Pass, None).value else v1
  }

  /**
   * The loop of dequeue once the deadline is fixed: wait while the queue is empty, the
   * consumer open and time left; then pop the head, consuming and skipping it when it
   * has expired.
   */
  function DequeueFrom(v: ConsumerValue, mode: Mode, deadline: int, timeout: int, now: int, wakes: seq<Wake>): DequeueState
    decreases |wakes|, |v.unconsumedMessages|
  {
    if !v.closed && v.unconsumedMessages == [] && timeout != 0 then
      if wakes == [] then DequeueState(Blocked, v, now)
      else
        var w := wakes[0];
        var t := if timeout > 0 then Remaining(deadline, w.clock) else timeout;
        DequeueFrom(ApplyWake(v, mode, w), mode, deadline, t, w.clock, wakes[1..])
    else if v.unconsumedMessages == [] then DequeueState(NoMessage, v, now)
    else
      var m := v.unconsumedMessages[0];
      var rest := v.(unconsumedMessages := v.unconsumedMessages[1..]);
      if Expired(m, now) then
        var t := if timeout > 0 then Remaining(deadline, now) else timeout;
        DequeueFrom(rest.(effects := Consume(v.effects, mode, m)), mode, deadline, t, now, wakes)
      else DequeueState(Got(m), rest, now)
  }

  /** dequeue(timeout): refused on a closed consumer; a positive timeout fixes a deadline. */
  function DequeueOutcome(v: ConsumerValue, mode: Mode, timeout: int, now: int, wakes: seq<Wake>): DequeueState {
    if v.closed then DequeueState(Refused(InvalidState), v, now)
    else DequeueFrom(v, mode, if timeout > 0 then now + timeout else 0, timeout, now, wakes)
  }

  /** receive: a dequeued message is consumed and a copy of it handed to the caller. */
  function ReceiveOutcome(v: ConsumerValue, mode: Mode, timeout: int, now: int, wakes: seq<Wake>): DequeueState {
    if v.closed then DequeueState(Refused(InvalidState), v, now)
    else
      var d := DequeueOutcome(v, mode, timeout, now, wakes);
      if d.result.Got? then DequeueState(d.result, d.value.(effects := Consume(d.value.effects, mode, d.result.m)), d.clock) else d
  }

  /** The session's redispatch of a backlog: each message dispatched again, in order. */
  function Redispatch(v: ConsumerValue, mode: Mode, backlog: seq<Message>, now: int): ConsumerValue
    decreases |backlog|
  {
    if backlog == [] then v else Redispatch(AfterDispatch(v, mode, backlog[0], now), mode, backlog[1..], now)
  }

  /** setMessageListener: a new listener takes the queued backlog through the session. */
  function AfterSetListener(v: ConsumerValue, mode: Mode, listener: Option<Listener>, now: int): Step {
    if v.closed then Step(Fail(InvalidState), v)
    else if listener.Some? then
      Step(Pass, Redispatch(v.(listener := listener, unconsumedMessages := []), mode, v.unconsumedMessages, now))
    else Step(Pass, v.(listener := listener))
  }

  /** The messages of a backlog still alive at the clock reading now, in order. */
  function Live(backlog: seq<Message>, now: int): seq<Message>
    decreases |backlog|
  {
    if backlog == [] then []
    else if Expired(backlog[0], now) then Live(backlog[1..], now)
    else [backlog[0]] + Live(backlog[1..], now)
  }

  /** The index of the first message alive at now, or the queue's length when none is. */
  function FirstLive(q: seq<Message>, now: int): (i: nat)
    ensures i <= |q|
    ensures forall j :: 0 <= j < i ==> Expired(q[j], now)
    ensures i < |q| ==> !Expired(q[i], now)
    decreases |q|
  {
    if q == [] || !Expired(q[0], now) then 0 else 1 + FirstLive(q[1..], now)
  }

  /** The state after consuming, in order, the expired messages a dequeue skips. */
  function ConsumeAll(e: Effects, mode: Mode, skipped: seq<Message>): Effects
    decreases |skipped|
  {
    if skipped == [] then e else ConsumeAll(Consume(e, mode, skipped[0]), mode, skipped[1..])
  }

  /** The messages destroyMessage deletes out of ms. */
  function DeletedBy(mode: Mode, ms: seq<Message>): seq<Message> {
    if mode.transacted then [] else ms
  }

  /**
   * Purging with no fault among the pops from the k-th on: the whole queue goes, each
   * message destroyed in order (unless the session is transacted), and nothing fails.
   */
  lemma {:induction false} PurgeWhole(v: ConsumerValue, mode: Mode, fault: Option<Fault>, k: nat)
    requires fault.None? || !(k <= fault.value.at < k + |v.unconsumedMessages|)
    ensures Purge(v, mode, fault, k) == Step(Pass, v.(unconsumedMessages := [],
      effects := v.effects.(destroyed := v.effects.destroyed + DeletedBy(mode, v.unconsumedMessages))))
    decreases |v.unconsumedMessages|
  {
    var q := v.unconsumedMessages;
    if q != [] {
      PurgeWhole(v.(unconsumedMessages := q[1..], effects := Destroy(v.effects, mode, Some(q[0]))), mode, fault, k + 1);
      assert v.effects.destroyed + [q[0]] + q[1..] == v.effects.destroyed + q;
    }
  }

  /**
   * Purging with a fault at pop k + j: the j messages before it are destroyed, the one
   * popped at the fault is lost from the queue, the rest stay queued, and the fault is
   * reported.
   */
  lemma {:induction false} PurgeInterrupted(v: ConsumerValue, mode: Mode, fault: Option<Fault>, k: nat)
    requires fault.Some? && k <= fault.value.at < k + |v.unconsumedMessages|
    ensures var j := fault.value.at - k;
      var q := v.unconsumedMessages;
      Purge(v, mode, fault, k) == Step(Fail(CollaboratorFailed(fault.value.reason)),
        v.(unconsumedMessages := q[j + 1..], effects := v.effects.(destroyed := v.effects.destroyed + DeletedBy(mode, q[..j]))))
    decreases |v.unconsumedMessages|
  {
    var q := v.unconsumedMessages;
    var j := fault.value.at - k;
    if j == 0 {
      assert q[..0] == [];
    } else {
      var e := Destroy(v.effects, mode, Some(q[0]));
      assert e == v.effects.(destroyed := v.effects.destroyed + DeletedBy(mode, [q[0]]));
      PurgeInterrupted(v.(unconsumedMessages := q[1..], effects := e), mode, fault, k + 1);
      SplitAt(q, j);
      assert v.effects.destroyed + DeletedBy(mode, [q[0]]) + DeletedBy(mode, q[1..][..j - 1]) == v.effects.destroyed + DeletedBy(mode, q[..j]);
    }
  }

  /** Cutting a queue at j > 0 after dropping its head. */
  lemma SplitAt(q: seq<Message>, j: nat)
    requires 0 < j < |q|
    ensures q[1..][j - 1 + 1..] == q[j + 1..]
    ensures [q[0]] + q[1..][..j - 1] == q[..j]
  {
  }

  /**
   * close on an open consumer: it ends closed; without a purge fault the queue is empty
   * and every queued message was destroyed in order (unless the session is transacted);
   * the error reported is the ConsumerInfo's if it failed, else the purge's.
   */
  lemma CloseEffect(v: ConsumerValue, mode: Mode, infoReply: Outcome<ConsumerError>, fault: Option<Fault>)
    requires !v.closed
    ensures var c := AfterClose(v, mode, infoReply, fault);
      c.value.closed && c.value.listener == v.listener && c.value.effects.heard == v.effects.heard &&
      (c.value.infoClosed <==> v.infoClosed || infoReply.Pass?) &&
      (!v.infoClosed && infoReply.Fail? ==> c.outcome == infoReply) &&
      (c.outcome.Fail? <==> (!v.infoClosed && infoReply.Fail?) || (fault.Some? && fault.value.at < |v.unconsumedMessages|)) &&
      (fault.None? || fault.value.at >= |v.unconsumedMessages| ==>
        c.value.unconsumedMessages == [] &&
        c.value.effects.destroyed == v.effects.destroyed + DeletedBy(mode, v.unconsumedMessages))
  {
    var v1 := v.(infoClosed := v.infoClosed || infoReply.Pass?, closed := true);
    if fault.Some? && fault.value.at < |v.unconsumedMessages| {
      PurgeInterrupted(v1, mode, fault, 0);
    } else {
      PurgeWhole(v1, mode, fault, 0);
    }
  }

  /** close is idempotent: a second close does nothing and reports no error. */
  lemma CloseIdempotent(v: ConsumerValue, mode: Mode, r1: Outcome<ConsumerError>, f1: Option<Fault>, r2: Outcome<ConsumerError>, f2: Option<Fault>)
    ensures var c := AfterClose(v, mode, r1, f1);
      AfterClose(c.value, mode, r2, f2) == Step(Pass, c.value)
  {
    if !v.closed {
      CloseEffect(v, mode, r1, f1);
    }
  }

  /** dequeue(0) never waits, so the wakes on offer make no difference and the clock is not read again. */
  lemma {:induction false} NoWaitIgnoresWakes(v: ConsumerValue, mode: Mode, deadline: int, now: int, wakes: seq<Wake>)
    ensures DequeueFrom(v, mode, deadline, 0, now, wakes) == DequeueFrom(v, mode, deadline, 0, now, [])
    ensures DequeueFrom(v, mode, deadline, 0, now, wakes).clock == now
    decreases |v.unconsumedMessages|
  {
    var q := v.unconsumedMessages;
    if q != [] && Expired(q[0], now) {
      NoWaitIgnoresWakes(v.(unconsumedMessages := q[1..], effects := Consume(v.effects, mode, q[0])), mode, deadline, now, wakes);
    }
  }

  /**
   * dequeue(0) skips the expired messages at the head, consuming them in order, and
   * hands back the first live one, which leaves the queue, or none when there is none,
   * which empties it. Nothing else about the consumer changes.
   */
  lemma {:induction false} NoWait(v: ConsumerValue, mode: Mode, deadline: int, now: int)
    ensures var d := DequeueFrom(v, mode, deadline, 0, now, []);
      var q := v.unconsumedMessages;
      var i := FirstLive(q, now);
      (i < |q| ==> d.result == Got(q[i]) && d.value.unconsumedMessages == q[i + 1..]) &&
      (i == |q| ==> d.result == NoMessage && d.value.unconsumedMessages == []) &&
      d.value.effects == ConsumeAll(v.effects, mode, q[..i]) &&
      d.value.closed == v.closed && d.value.infoClosed == v.infoClosed && d.value.listener == v.listener
    decreases |v.unconsumedMessages|
  {
    var q := v.unconsumedMessages;
    if q != [] && Expired(q[0], now) {
      var next := v.(unconsumedMessages := q[1..], effects := Consume(v.effects, mode, q[0]));
      NoWaitSkips(v, mode, deadline, now);
      NoWait(next, mode, deadline, now);
      var i := FirstLive(q, now);
      assert i == 1 + FirstLive(q[1..], now);
      ConsumeAllFront(v.effects, mode, q, i);
      assert DequeueFrom(v, mode, deadline, 0, now, []) == DequeueFrom(next, mode, deadline, 0, now, []);
      if i < |q| {
        assert q[1..][i - 1] == q[i] && q[1..][i - 1 + 1..] == q[i + 1..];
      }
    } else if q != [] {
      assert q[..0] == [];
    }
  }

  /** dequeue(0) over an expired head consumes it and goes on with the rest, on no wake. */
  lemma NoWaitSkips(v: ConsumerValue, mode: Mode, deadline: int, now: int)
    requires v.unconsumedMessages != [] && Expired(v.unconsumedMessages[0], now)
    ensures DequeueFrom(v, mode, deadline, 0, now, [])
         == DequeueFrom(v.(unconsumedMessages := v.unconsumedMessages[1..],
                           effects := Consume(v.effects, mode, v.unconsumedMessages[0])), mode, deadline, 0, now, [])
  {
  }

  /** Consuming a non-empty prefix consumes its head first. */
  lemma ConsumeAllFront(e: Effects, mode: Mode, q: seq<Message>, i: nat)
    requires 0 < i <= |q|
    ensures ConsumeAll(e, mode, q[..i]) == ConsumeAll(Consume(e, mode, q[0]), mode, q[1..][..i - 1])
  {
    assert q[..i][0] == q[0] && q[..i][1..] == q[1..][..i - 1];
  }

  /** A dequeue never hands back a message that has expired by its last clock reading. */
  lemma {:induction false} NeverExpired(v: ConsumerValue, mode: Mode, deadline: int, timeout: int, now: int, wakes: seq<Wake>)
    ensures var d := DequeueFrom(v, mode, deadline, timeout, now, wakes);
      d.result.Got? ==> !Expired(d.result.m, d.clock)
    decreases |wakes|, |v.unconsumedMessages|
  {
    if !v.closed && v.unconsumedMessages == [] && timeout != 0 {
      if wakes != [] {
        var w := wakes[0];
        var t := if timeout > 0 then Remaining(deadline, w.clock) else timeout;
        NeverExpired(ApplyWake(v, mode, w), mode, deadline, t, w.clock, wakes[1..]);
      }
    } else if v.unconsumedMessages != [] {
      var m := v.unconsumedMessages[0];
      var rest := v.(unconsumedMessages := v.unconsumedMessages[1..]);
      if Expired(m, now) {
        var t := if timeout > 0 then Remaining(deadline, now) else timeout;
        NeverExpired(rest.(effects := Consume(v.effects, mode, m)), mode, deadline, t, now, wakes);
      }
    }
  }

  /**
   * With a positive timeout the wait ends at the deadline: no message comes back only
   * when the consumer was closed or the clock has reached the deadline. The budget is
   * the remaining time, never negative, recomputed after each wake from the fixed
   * deadline (the clock readings are within 32-bit range of it).
   */
  lemma {:induction false} TimedWaitEndsAtDeadline(v: ConsumerValue, mode: Mode, deadline: int, timeout: int, now: int, wakes: seq<Wake>)
    requires timeout >= 0 && (timeout == 0 ==> deadline <= now)
    requires forall i :: 0 <= i < |wakes| ==> Wire.INT_MIN <= deadline - wakes[i].clock <= Wire.INT_MAX
    requires Wire.INT_MIN <= deadline - now <= Wire.INT_MAX
    ensures var d := DequeueFrom(v, mode, deadline, timeout, now, wakes);
      d.result.NoMessage? ==> d.value.closed || deadline <= d.clock
    decreases |wakes|, |v.unconsumedMessages|
  {
    if !v.closed && v.unconsumedMessages == [] && timeout != 0 {
      if wakes != [] {
        var w := wakes[0];
        assert Wire.INT_MIN <= deadline - w.clock <= Wire.INT_MAX;
        TimedWaitEndsAtDeadline(ApplyWake(v, mode, w), mode, deadline, Remaining(deadline, w.clock), w.clock, wakes[1..]);
      }
    } else if v.unconsumedMessages != [] {
      var m := v.unconsumedMessages[0];
      var rest := v.(unconsumedMessages := v.unconsumedMessages[1..]);
      if Expired(m, now) {
        var t := if timeout > 0 then Remaining(deadline, now) else timeout;
        TimedWaitEndsAtDeadline(rest.(effects := Consume(v.effects, mode, m)), mode, deadline, t, now, wakes);
      }
    }
  }

  /** The same for dequeue itself: a receive with a positive timeout gives up only at its deadline. */
  lemma TimedDequeueEndsAtDeadline(v: ConsumerValue, mode: Mode, timeout: int, now: int, wakes: seq<Wake>)
    requires 0 < timeout <= Wire.INT_MAX
    requires forall i :: 0 <= i < |wakes| ==> Wire.INT_MIN <= now + timeout - wakes[i].clock <= Wire.INT_MAX
    ensures var d := DequeueOutcome(v, mode, timeout, now, wakes);
      d.result.NoMessage? ==> d.value.closed || now + timeout <= d.clock
  {
    if !v.closed {
      TimedWaitEndsAtDeadline(v, mode, now + timeout, timeout, now, wakes);
    }
  }

  /** With a negative timeout the wait never times out: no message comes back only once the consumer is closed. */
  lemma {:induction false} BlockingReturnsOnlyWhenClosed(v: ConsumerValue, mode: Mode, deadline: int, timeout: int, now: int, wakes: seq<Wake>)
    requires timeout < 0
    ensures var d := DequeueFrom(v, mode, deadline, timeout, now, wakes);
      d.result.NoMessage? ==> d.value.closed
    decreases |wakes|, |v.unconsumedMessages|
  {
    if !v.closed && v.unconsumedMessages == [] {
      if wakes != [] {
        var w := wakes[0];
        BlockingReturnsOnlyWhenClosed(ApplyWake(v, mode, w), mode, deadline, timeout, w.clock, wakes[1..]);
      }
    } else if v.unconsumedMessages != [] {
      var m := v.unconsumedMessages[0];
      var rest := v.(unconsumedMessages := v.unconsumedMessages[1..]);
      if Expired(m, now) {
        BlockingReturnsOnlyWhenClosed(rest.(effects := Consume(v.effects, mode, m)), mode, deadline, timeout, now, wakes);
      }
    }
  }

  /**
   * FIFO order: a message dispatched to a consumer without a listener waits behind
   * those already queued; the next dequeue hands back the head.
   */
  lemma DispatchThenDequeue(v: ConsumerValue, mode: Mode, m: Message, now: int, timeout: int, wakes: seq<Wake>)
    requires !v.closed && v.listener.None?
    requires v.unconsumedMessages != [] && !Expired(v.unconsumedMessages[0], now)
    ensures var d := DequeueOutcome(AfterDispatch(v, mode, m, now), mode, timeout, now, wakes);
      d.result == Got(v.unconsumedMessages[0]) &&
      d.value.unconsumedMessages == v.unconsumedMessages[1..] + (if Expired(m, now) then [] else [m])
  {
    if !Expired(m, now) {
      assert (v.unconsumedMessages + [m])[1..] == v.unconsumedMessages[1..] + [m];
    }
  }

  /**
   * FIFO order with nothing queued: a live message dispatched to a consumer without a
   * listener is what the next dequeue hands back, and the queue is empty again after it.
   */
  lemma DispatchThenDequeueEmpty(v: ConsumerValue, mode: Mode, m: Message, now: int, timeout: int, wakes: seq<Wake>)
    requires !v.closed && v.listener.None?
    requires v.unconsumedMessages == [] && !Expired(m, now)
    ensures var d := DequeueOutcome(AfterDispatch(v, mode, m, now), mode, timeout, now, wakes);
      d.result == Got(m) && d.value.unconsumedMessages == []
  {
    assert AfterDispatch(v, mode, m, now).unconsumedMessages == [m];
  }

  /** A message dispatched expired is acknowledged and deleted, and reaches neither the queue nor the listener. */
  lemma DispatchExpired(v: ConsumerValue, mode: Mode, m: Message, now: int)
    requires Expired(m, now)
    ensures var d := AfterDispatch(v, mode, m, now);
      d.unconsumedMessages == v.unconsumedMessages && d.effects.heard == v.effects.heard &&
      d.effects.acknowledged == v.effects.acknowledged + [m] && d.effects.destroyed == v.effects.destroyed + [m]
  {
  }

  /**
   * A listener installed on an open consumer takes over the backlog: the queue empties
   * and the listener hears the backlog's live messages in their original order.
   */
  lemma {:induction false} RedispatchToListener(v: ConsumerValue, mode: Mode, backlog: seq<Message>, now: int)
    requires v.listener.Some?
    ensures var r := Redispatch(v, mode, backlog, now);
      r.unconsumedMessages == v.unconsumedMessages && r.listener == v.listener &&
      r.effects.heard == v.effects.heard + Live(backlog, now)
    decreases |backlog|
  {
    if backlog != [] {
      var next := AfterDispatch(v, mode, backlog[0], now);
      RedispatchToListener(next, mode, backlog[1..], now);
      if !Expired(backlog[0], now) {
        assert v.effects.heard + [backlog[0]] + Live(backlog[1..], now) == v.effects.heard + Live(backlog, now);
      }
    }
  }

  lemma ListenerTakesBacklog(v: ConsumerValue, mode: Mode, listener: Listener, now: int)
    requires !v.closed
    ensures var s := AfterSetListener(v, mode, Some(listener), now);
      s.outcome == Pass && s.value.listener == Some(listener) && s.value.unconsumedMessages == [] &&
      s.value.effects.heard == v.effects.heard + Live(v.unconsumedMessages, now)
  {
    RedispatchToListener(v.(listener := Some(listener), unconsumedMessages := []), mode, v.unconsumedMessages, now);
  }

  class ActiveMQConsumer {
    /** The session's acknowledgement mode. */
    const mode: Mode
    /** The handle of this consumer's ConsumerInfo. */
    const consumerInfo: int
    var unconsumedMessages: seq<Message>
    var closed: bool
    var infoClosed: bool
    var listener: Option<Listener>
    /** What the consumer has done through its collaborators so far. */
    var effects: Effects

    function Value(): ConsumerValue
      reads this
    {
      ConsumerValue(unconsumedMessages, closed, infoClosed, listener, effects)
    }

    /** A new consumer: open, no listener, nothing queued. */
    constructor (consumerInfo: int, mode: Mode)
      ensures this.consumerInfo == consumerInfo && this.mode == mode
      ensures Value() == ConsumerValue([], false, false, None, Effects([], [], [], []))
    {
      this.consumerInfo := consumerInfo;
      this.mode := mode;
      unconsumedMessages, closed, infoClosed, listener := [], false, false, None;
      effects := Effects([], [], [], []);
    }

    /** Takes on a whole state: what other threads did while this one waited. */
    method Become(v: ConsumerValue)
      modifies this
      ensures Value() == v
    {
      unconsumedMessages, closed, infoClosed, listener, effects := v.unconsumedMessages, v.closed, v.infoClosed, v.listener, v.effects;
    }

    method DestroyMessage(message: Option<Message>)
      modifies this
      ensures Value() == old(Value()).(effects := Destroy(old(effects), mode, message))
    {
      if message.Some? && !mode.transacted {
        effects := effects.(destroyed := effects.destroyed + [message.value]);
      }
    }

    method BeforeMessageIsConsumed(message: Message)
      modifies this
      ensures Value() == old(Value()).(effects := BeforeConsumed(old(effects), mode, message))
    {
      if mode.clientAcknowledge {
        effects := effects.(ackHandled := effects.ackHandled + [message]);
      }
    }

    method AfterMessageIsConsumed(message: Message, messageExpired: bool)
      modifies this
      ensures Value() == old(Value()).(effects := AfterConsumed(old(effects), mode, message))
    {
      if !mode.clientAcknowledge {
        effects := effects.(acknowledged := effects.acknowledged + [message]);
      }
      DestroyMessage(Some(message));
    }

    /** acknowledgeMessage: refused once closed, otherwise the session acknowledges the message. */
    method AcknowledgeMessage(message: Message) returns (r: Outcome<ConsumerError>)
      modifies this
      ensures old(closed) ==> r == Fail(InvalidState) && Value() == old(Value())
      ensures !old(closed) ==> r == Pass && Value() == old(Value()).(effects := old(effects).(acknowledged := old(effects.acknowledged) + [message]))
    {
      if closed {
        return Fail(InvalidState);
      }
      effects := effects.(acknowledged := effects.acknowledged + [message]);
      r := Pass;
    }

    method Dispatch(message: Message, now: int)
      modifies this
      ensures Value() == AfterDispatch(old(Value()), mode, message, now)
    {
      if Expired(message, now) {
        effects := effects.(acknowledged := effects.acknowledged + [message], destroyed := effects.destroyed + [message]);
        return;
      }
      if listener.Some? {
        BeforeMessageIsConsumed(message);
        effects := effects.(heard := effects.heard + [message]);
        AfterMessageIsConsumed(message, false);
      } else {
        unconsumedMessages := unconsumedMessages + [message];
      }
    }

    method PurgeMessages(fault: Option<Fault>) returns (r: Outcome<ConsumerError>)
      modifies this
      ensures Step(r, Value()) == Purge(old(Value()), mode, fault, 0)
    {
      var k := 0;
      while unconsumedMessages != []
        invariant Purge(old(Value()), mode, fault, 0) == Purge(Value(), mode, fault, k)
        decreases |unconsumedMessages|
      {
        var m := unconsumedMessages[0];
        unconsumedMessages := unconsumedMessages[1..];
        if fault.Some? && fault.value.at == k {
          return Fail(CollaboratorFailed(fault.value.reason));
        }
        DestroyMessage(Some(m));
        k := k + 1;
      }
      r := Pass;
    }

    method Close(infoReply: Outcome<ConsumerError>, fault: Option<Fault>) returns (r: Outcome<ConsumerError>)
      modifies this
      ensures Step(r, Value()) == AfterClose(old(Value()), mode, infoReply, fault)
    {
      r := Pass;
      if !closed {
        var error: Outcome<ConsumerError> := Pass;
        if !infoClosed {
          if infoReply.Fail? {
            error := infoReply;
          } else {
            infoClosed := true;
          }
        }
        closed := true;
        var purged := PurgeMessages(fault);
        if purged.Fail? && error.Pass? {
          error := purged;
        }
        r := error;
      }
    }

    /**
     * The inner loop of dequeue: waits, one wake at a time, while the queue is empty, the
     * consumer open and time left; blocked when the wakes run out first.
     */
    method AwaitMessage(deadline: int, timeout: int, now: int, from: nat, wakes: seq<Wake>)
      returns (blocked: bool, t: int, clock: int, i: nat)
      requires from <= |wakes|
      modifies this
      ensures from <= i <= |wakes|
      ensures i == from ==> Value() == old(Value())
      ensures DequeueFrom(old(Value()), mode, deadline, timeout, now, wakes[from..]) == DequeueFrom(Value(), mode, deadline, t, clock, wakes[i..])
      ensures blocked ==> i == |wakes| && !closed && unconsumedMessages == [] && t != 0
      ensures !blocked ==> closed || unconsumedMessages != [] || t == 0
    {
      blocked, t, clock, i := false, timeout, now, from;
      while !closed && unconsumedMessages == [] && t != 0
        invariant from <= i <= |wakes|
        invariant i == from ==> Value() == old(Value())
        invariant DequeueFrom(old(Value()), mode, deadline, timeout, now, wakes[from..]) == DequeueFrom(Value(), mode, deadline, t, clock, wakes[i..])
        decreases |wakes| - i
      {
        if i == |wakes| {
          return true, t, clock, i;
        }
        var w := wakes[i];
        assert wakes[i..][1..] == wakes[i + 1..];
        Become(ApplyWake(Value(), mode, w));
        if t > 0 {
          t := Remaining(deadline, w.clock);
        }
        clock := w.clock;
        i := i + 1;
      }
    }

    method Dequeue(timeout: int, now: int, wakes: seq<Wake>) returns (r: Received, clock: int)
      modifies this
      ensures DequeueState(r, Value(), clock) == DequeueOutcome(old(Value()), mode, timeout, now, wakes)
      ensures old(closed) ==> r == Refused(InvalidState) && Value() == old(Value())
    {
      clock := now;
      if closed {
        return Refused(InvalidState), clock;
      }
      var deadline := if timeout > 0 then now + timeout else 0;
      ghost var goal := DequeueFrom(Value(), mode, deadline, timeout, now, wakes);
      var t := timeout;
      var i := 0;
      while true
        invariant 0 <= i <= |wakes|
        invariant goal == DequeueFrom(Value(), mode, deadline, t, clock, wakes[i..])
        decreases |wakes| - i, |unconsumedMessages|
      {
        var blocked;
        blocked, t, clock, i := AwaitMessage(deadline, t, clock, i, wakes);
        if blocked {
          return Blocked, clock;
        }
        if unconsumedMessages == [] {
          return NoMessage, clock;
        }
        var m, live := TakeHead(clock);
        if !live {
          if t > 0 {
            t := Remaining(deadline, clock);
          }
          continue;
        }
        return Got(m), clock;
      }
    }

    /** One pass of dequeue's outer loop: pops the head, consuming it when it has expired. */
    method TakeHead(now: int) returns (m: Message, live: bool)
      requires unconsumedMessages != []
      modifies this
      ensures m == old(unconsumedMessages[0]) && live == !Expired(m, now)
      ensures live ==> Value() == old(Value()).(unconsumedMessages := old(unconsumedMessages[1..]))
      ensures !live ==> Value() == old(Value()).(unconsumedMessages := old(unconsumedMessages[1..]), effects := Consume(old(effects), mode, m))
    {
      m := unconsumedMessages[0];
      unconsumedMessages := unconsumedMessages[1..];
      live := !Expired(m, now);
      if !live {
        BeforeMessageIsConsumed(m);
        AfterMessageIsConsumed(m, true);
      }
    }

    /** receive(timeout) shared by the three receive calls. */
    method ReceiveWithin(timeout: int, now: int, wakes: seq<Wake>) returns (r: Received, clock: int)
      modifies this
      ensures DequeueState(r, Value(), clock) == ReceiveOutcome(old(Value()), mode, timeout, now, wakes)
      ensures old(closed) ==> r == Refused(InvalidState) && Value() == old(Value())
    {
      if closed {
        return Refused(InvalidState), now;
      }
      r, clock := Dequeue(timeout, now, wakes);
      if r.Got? {
        BeforeMessageIsConsumed(r.m);
        AfterMessageIsConsumed(r.m, false);
      }
    }

    /** receive(): waits without a deadline. */
    method Receive(now: int, wakes: seq<Wake>) returns (r: Received, clock: int)
      modifies this
      ensures DequeueState(r, Value(), clock) == ReceiveOutcome(old(Value()), mode, -1, now, wakes)
    {
      r, clock := ReceiveWithin(-1, now, wakes);
    }

    /** receiveNoWait(): never waits, so it needs no wakes. */
    method ReceiveNoWait(now: int) returns (r: Received)
      modifies this
      ensures DequeueState(r, Value(), now) == ReceiveOutcome(old(Value()), mode, 0, now, [])
    {
      var clock;
      r, clock := ReceiveWithin(0, now, []);
      if !old(closed) {
        NoWaitIgnoresWakes(old(Value()), mode, 0, now, []);
      }
    }

    method SetMessageListener(newListener: Option<Listener>, now: int) returns (r: Outcome<ConsumerError>)
      modifies this
      ensures Step(r, Value()) == AfterSetListener(old(Value()), mode, newListener, now)
    {
      if closed {
        return Fail(InvalidState);
      }
      listener := newListener;
      r := Pass;
      if newListener.Some? {
        var backlog := unconsumedMessages;
        unconsumedMessages := [];
        var i := 0;
        while i < |backlog|
          invariant 0 <= i <= |backlog|
          invariant Redispatch(old(Value()).(listener := newListener, unconsumedMessages := []), mode, backlog, now)
            == Redispatch(Value(), mode, backlog[i..], now)
        {
          assert backlog[i..][1..] == backlog[i + 1..];
          Dispatch(backlog[i], now);
          i := i + 1;
        }
      }
    }

    /** onConnectorResourceClosed: the consumer's own ConsumerInfo closing closes the consumer. */
    method OnConnectorResourceClosed(resource: int, infoReply: Outcome<ConsumerError>, fault: Option<Fault>) returns (r: Outcome<ConsumerError>)
      modifies this
      ensures old(closed) ==> r == Fail(InvalidState) && Value() == old(Value())
      ensures !old(closed) && resource != consumerInfo ==> r == Fail(IllegalArgument) && Value() == old(Value())
      ensures !old(closed) && resource == consumerInfo ==>
        Step(r, Value()) == AfterClose(old(Value()), mode, infoReply, fault)
    {
      if closed {
        return Fail(InvalidState);
      }
      if resource != consumerInfo {
        return Fail(IllegalArgument);
      }
      r := Close(infoReply, fault);
    }
  }
}
