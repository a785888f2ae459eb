/**
 * The maker's contract-setup actor: one per taker order. It rejects an
 * order whose quantity is out of range as soon as it starts, confirms the
 * order and starts the contract setup when the maker accepts, forwards the
 * taker's protocol messages to the running setup, and ends by emitting
 * exactly one outcome (completed, rejected or failed) and stopping.
 *
 * Every outcome that depends on another actor or on the database is a
 * parameter: whether a message was delivered, whether a command produced
 * its event.
 */
module SetupMaker {
  import opened Common
  import CfdEvents

  /** The writing end of the channel into a running contract setup, by identity. */
  type Channel = nat

  datatype Order = Order(id: nat, minQuantity: int, maxQuantity: int)

  /** The outcome the actor emits for the CFD. */
  datatype Outcome = Complete(dlc: CfdEvents.Dlc) | Reject | Fail

  /** What the actor did that others can see, in order. */
  datatype Effect =
    | RejectOrderSent(orderId: nat)
    | OrderConfirmed(orderId: nat)
    | SetupStarted(orderId: nat)
    | SetupTaskSpawned(channel: Channel)
    | Forwarded(channel: Channel, msg: nat)
    /** An emit: the outcome's command was run; `executed` says whether it produced its event. */
    | Emitted(outcome: Outcome, executed: bool)

  /** The actor's mutable state: the protocol channel, whether it stopped, what it did. */
  datatype State = State(sender: Option<Channel>, stopped: bool, effects: seq<Effect>)

  function Init(): State
  {
    State(None, false, [])
  }

  // ---------------------------------------------------------------------------
  // Handlers, as functions of the state

  /** `emit_complete`, `emit_reject`, `emit_fail`: run the outcome's command and stop, whatever it returned. */
  function Emit(s: State, outcome: Outcome, executed: bool): State
  {
    State(s.sender, true, s.effects + [Emitted(outcome, executed)])
  }

  function SentIf(s: State, delivered: bool, e: Effect): State
  {
    if delivered then s.(effects := s.effects + [e]) else s
  }

  predicate QuantityInRange(order: Order, quantity: int)
  {
    order.minQuantity <= quantity <= order.maxQuantity
  }

  /** `started`: an order whose quantity is out of range is rejected to the taker, then emitted as rejected. */
  function OnStarted(s: State, order: Order, quantity: int, rejectDelivered: bool, emitOk: bool): State
  {
    if !QuantityInRange(order, quantity) then
      Emit(SentIf(s, rejectDelivered, RejectOrderSent(order.id)), Reject, emitOk)
    else s
  }

  /**
   * `handle(Accepted)`: unless a setup is already active, confirm the order,
   * store the new channel, run `start_contract_setup` and spawn the setup
   * task; a failed confirmation or start emits a failure.
   */
  function OnAccepted(s: State, orderId: nat, confirmOk: bool, channel: Channel, startOk: bool, emitOk: bool): State
  {
    if s.sender.Some? then s
    else if !confirmOk then Emit(s, Fail, emitOk)
    else
      var s1 := State(Some(channel), s.stopped, s.effects + [OrderConfirmed(orderId)]);
      if !startOk then Emit(s1, Fail, emitOk)
      else s1.(effects := s1.effects + [SetupStarted(orderId), SetupTaskSpawned(channel)])
  }

  /** `handle(Rejected)`: tell the taker (a failed delivery is only logged), then emit the rejection. */
  function OnRejected(s: State, orderId: nat, rejectDelivered: bool, emitOk: bool): State
  {
    Emit(SentIf(s, rejectDelivered, RejectOrderSent(orderId)), Reject, emitOk)
  }

  /** `handle(SetupMsg)`: forward to the running setup; without one, or if the send fails, the error is only logged. */
  function OnSetupMsg(s: State, msg: nat, sendOk: bool): State
  {
    if s.sender.None? then s
    else SentIf(s, sendOk, Forwarded(s.sender.value, msg))
  }

  // ---------------------------------------------------------------------------
  // Properties of single handlers

  /** At start, exactly an out-of-range quantity ends the actor with a rejection; the taker is told first if reachable. */
  lemma StartRejectsExactlyOutOfRange(s: State, order: Order, quantity: int, rejectDelivered: bool, emitOk: bool)
    ensures var s' := OnStarted(s, order, quantity, rejectDelivered, emitOk);
            && (s' == s <==> QuantityInRange(order, quantity))
            && (!QuantityInRange(order, quantity) ==>
                  s'.stopped && s'.effects ==
                    s.effects + (if rejectDelivered then [RejectOrderSent(order.id)] else []) + [Emitted(Reject, emitOk)])
  {
    if !QuantityInRange(order, quantity) {
      assert |OnStarted(s, order, quantity, rejectDelivered, emitOk).effects| > |s.effects|;
    }
  }

  /** A second `Accepted` while a setup is active changes nothing: no second confirmation, no second setup. */
  lemma DuplicateAcceptIgnored(s: State, orderId: nat, confirmOk: bool, channel: Channel, startOk: bool, emitOk: bool)
    requires s.sender.Some?
    ensures OnAccepted(s, orderId, confirmOk, channel, startOk, emitOk) == s
  {
  }

  /**
   * On a confirmed order the channel is stored before the setup command runs,
   * so it stays stored even when the command fails; the confirmation always
   * precedes the start.
   */
  lemma AcceptStoresChannelFirst(s: State, orderId: nat, channel: Channel, startOk: bool, emitOk: bool)
    requires s.sender.None?
    ensures var s' := OnAccepted(s, orderId, true, channel, startOk, emitOk);
            && s'.sender == Some(channel)
            && (startOk ==> s'.stopped == s.stopped && s'.effects == s.effects + [OrderConfirmed(orderId), SetupStarted(orderId), SetupTaskSpawned(channel)])
            && (!startOk ==> s'.stopped && s'.effects == s.effects + [OrderConfirmed(orderId), Emitted(Fail, emitOk)])
  {
    assert s.effects + [OrderConfirmed(orderId)] + [SetupStarted(orderId), SetupTaskSpawned(channel)]
        == s.effects + [OrderConfirmed(orderId), SetupStarted(orderId), SetupTaskSpawned(channel)];
  }

  /** Any error while accepting emits a failure and stops the actor. */
  lemma AcceptErrorFails(s: State, orderId: nat, confirmOk: bool, channel: Channel, startOk: bool, emitOk: bool)
    requires s.sender.None? && (!confirmOk || !startOk)
    ensures var s' := OnAccepted(s, orderId, confirmOk, channel, startOk, emitOk);
            s'.stopped && s'.effects[|s'.effects| - 1] == Emitted(Fail, emitOk)
  {
  }

  /** A protocol message with no setup running is dropped; the actor keeps running. */
  lemma ForwardWithoutSetupHarmless(s: State, msg: nat, sendOk: bool)
    requires s.sender.None?
    ensures OnSetupMsg(s, msg, sendOk) == s
  {
  }

  // ---------------------------------------------------------------------------
  // The actor's whole life

  /** A message in the actor's mailbox, with the outcomes of what handling it depends on. */
  datatype Msg =
    | Accepted(confirmOk: bool, channel: Channel, startOk: bool, emitOk: bool)
    | Rejected(rejectDelivered: bool, emitOk: bool)
    | SetupSucceeded(dlc: CfdEvents.Dlc, emitOk: bool)
    | SetupFailed(emitOk: bool)
    | SetupMsg(msg: nat, sendOk: bool)

  /** One message; a stopped actor handles none. */
  function Step(s: State, orderId: nat, m: Msg): State
  {
    if s.stopped then s
    else match m
      case Accepted(confirmOk, channel, startOk, emitOk) => OnAccepted(s, orderId, confirmOk, channel, startOk, emitOk)
      case Rejected(rejectDelivered, emitOk) => OnRejected(s, orderId, rejectDelivered, emitOk)
      case SetupSucceeded(dlc, emitOk) => Emit(s, Complete(dlc), emitOk)
      case SetupFailed(emitOk) => Emit(s, Fail, emitOk)
      case SetupMsg(msg, sendOk) => OnSetupMsg(s, msg, sendOk)
  }

  function Run(s: State, orderId: nat, ms: seq<Msg>): State
    decreases |ms|
  {
    if |ms| == 0 then s else Run(Step(s, orderId, ms[0]), orderId, ms[1..])
  }

  predicate IsEmit(e: Effect) { e.Emitted? }
  predicate IsConfirm(e: Effect) { e.OrderConfirmed? }
  predicate IsStart(e: Effect) { e.SetupStarted? }

  /**
   * What holds of the actor at every point of its life: it emits at most one
   * outcome, and it has stopped exactly when it has; it confirms the order at
   * most once, and holds a channel exactly when it has; a setup is started
   * only once and only after the confirmation.
   */
  predicate Inv(s: State)
  {
    var (emits, confirms, starts) := Counts(s.effects);
    && emits <= 1
    && (s.stopped <==> emits == 1)
    && confirms <= 1
    && (s.sender.Some? <==> confirms == 1)
    && starts <= confirms
  }

  lemma InitInv()
    ensures Inv(Init())
  {
  }

  /** The counts an effect contributes. */
  function Counts(es: seq<Effect>): (nat, nat, nat)
  {
    (|Filter(es, IsEmit)|, |Filter(es, IsConfirm)|, |Filter(es, IsStart)|)
  }

  /** Appending effects adds their counts. */
  lemma CountsAppend(xs: seq<Effect>, ys: seq<Effect>)
    ensures Counts(xs + ys).0 == Counts(xs).0 + Counts(ys).0
    ensures Counts(xs + ys).1 == Counts(xs).1 + Counts(ys).1
    ensures Counts(xs + ys).2 == Counts(xs).2 + Counts(ys).2
  {
    FilterAppend(xs, ys, IsEmit);
    FilterAppend(xs, ys, IsConfirm);
    FilterAppend(xs, ys, IsStart);
  }

  lemma EmitKeepsInv(s: State, outcome: Outcome, executed: bool)
    requires Inv(s) && !s.stopped
    ensures Inv(Emit(s, outcome, executed))
  {
    CountsAppend(s.effects, [Emitted(outcome, executed)]);
  }

  /** An effect that is neither an emit nor a confirmation nor a start leaves every count as it is. */
  lemma NeutralKeepsInv(s: State, e: Effect)
    requires Inv(s) && !e.Emitted? && !e.OrderConfirmed? && !e.SetupStarted?
    ensures Inv(s.(effects := s.effects + [e]))
  {
    CountsAppend(s.effects, [e]);
  }

  lemma AcceptedKeepsInv(s: State, orderId: nat, confirmOk: bool, channel: Channel, startOk: bool, emitOk: bool)
    requires Inv(s) && !s.stopped
    ensures Inv(OnAccepted(s, orderId, confirmOk, channel, startOk, emitOk))
  {
    if s.sender.None? {
      if !confirmOk {
        EmitKeepsInv(s, Fail, emitOk);
      } else {
        var s1 := State(Some(channel), s.stopped, s.effects + [OrderConfirmed(orderId)]);
        CountsAppend(s.effects, [OrderConfirmed(orderId)]);
        assert Inv(s1);
        if !startOk {
          EmitKeepsInv(s1, Fail, emitOk);
        } else {
          var s2 := s1.(effects := s1.effects + [SetupStarted(orderId)]);
          CountsAppend(s1.effects, [SetupStarted(orderId)]);
          assert Inv(s2);
          NeutralKeepsInv(s2, SetupTaskSpawned(channel));
          assert s1.effects + [SetupStarted(orderId), SetupTaskSpawned(channel)] == s2.effects + [SetupTaskSpawned(channel)];
        }
      }
    }
  }

  lemma SentIfKeepsInv(s: State, delivered: bool, e: Effect)
    requires Inv(s) && !e.Emitted? && !e.OrderConfirmed? && !e.SetupStarted?
    ensures Inv(SentIf(s, delivered, e)) && SentIf(s, delivered, e).stopped == s.stopped
  {
    if delivered {
      NeutralKeepsInv(s, e);
    }
  }

  lemma StepKeepsInv(s: State, orderId: nat, m: Msg)
    requires Inv(s)
    ensures Inv(Step(s, orderId, m))
  {
    if !s.stopped {
      match m
      case Accepted(confirmOk, channel, startOk, emitOk) =>
        AcceptedKeepsInv(s, orderId, confirmOk, channel, startOk, emitOk);
      case Rejected(rejectDelivered, emitOk) =>
        SentIfKeepsInv(s, rejectDelivered, RejectOrderSent(orderId));
        EmitKeepsInv(SentIf(s, rejectDelivered, RejectOrderSent(orderId)), Reject, emitOk);
      case SetupSucceeded(dlc, emitOk) =>
        EmitKeepsInv(s, Complete(dlc), emitOk);
      case SetupFailed(emitOk) =>
        EmitKeepsInv(s, Fail, emitOk);
      case SetupMsg(msg, sendOk) =>
        if s.sender.Some? {
          SentIfKeepsInv(s, sendOk, Forwarded(s.sender.value, msg));
        }
    }
  }

  /** A start that does not reject keeps the invariant; a rejecting one ends the actor with its only emit. */
  lemma StartKeepsInv(s: State, order: Order, quantity: int, rejectDelivered: bool, emitOk: bool)
    requires Inv(s) && !s.stopped
    ensures Inv(OnStarted(s, order, quantity, rejectDelivered, emitOk))
  {
    if !QuantityInRange(order, quantity) {
      SentIfKeepsInv(s, rejectDelivered, RejectOrderSent(order.id));
      EmitKeepsInv(SentIf(s, rejectDelivered, RejectOrderSent(order.id)), Reject, emitOk);
    }
  }

  /**
   * Over any sequence of messages, the actor emits at most one outcome,
   * confirms at most one order and starts at most one setup, and is stopped
   * exactly when it has emitted.
   */
  lemma {:induction false} RunKeepsInv(s: State, orderId: nat, ms: seq<Msg>)
    requires Inv(s)
    ensures Inv(Run(s, orderId, ms))
    decreases |ms|
  {
    if |ms| > 0 {
      StepKeepsInv(s, orderId, ms[0]);
      RunKeepsInv(Step(s, orderId, ms[0]), orderId, ms[1..]);
    }
  }

  /** Once stopped, the actor does nothing more. */
  lemma {:induction false} StoppedIsFinal(s: State, orderId: nat, ms: seq<Msg>)
    requires s.stopped
    ensures Run(s, orderId, ms) == s
    decreases |ms|
  {
    if |ms| > 0 {
      StoppedIsFinal(s, orderId, ms[1..]);
    }
  }

  // ---------------------------------------------------------------------------
  // The actor

  class Actor {
    const order: Order
    const quantity: int
    var setupMsgSender: Option<Channel>
    var stopped: bool
    var effects: seq<Effect>

    function Snapshot(): State
      reads this
    {
      State(setupMsgSender, stopped, effects)
    }

    constructor (order: Order, quantity: int)
      ensures this.order == order && this.quantity == quantity
      ensures Snapshot() == Init()
    {
      this.order := order;
      this.quantity := quantity;
      setupMsgSender := None;
      stopped := false;
      effects := [];
    }

    method EmitOutcome(outcome: Outcome, executed: bool)
      modifies this
      ensures Snapshot() == Emit(old(Snapshot()), outcome, executed)
    {
      effects := effects + [Emitted(outcome, executed)];
      stopped := true;
    }

    method SendRejectOrder(delivered: bool)
      modifies this
      ensures Snapshot() == SentIf(old(Snapshot()), delivered, RejectOrderSent(order.id))
    {
      if delivered {
        effects := effects + [RejectOrderSent(order.id)];
      }
    }

    method Started(rejectDelivered: bool, emitOk: bool)
      requires !stopped
      modifies this
      ensures Snapshot() == OnStarted(old(Snapshot()), order, quantity, rejectDelivered, emitOk)
    {
      if quantity < order.minQuantity || quantity > order.maxQuantity {
        SendRejectOrder(rejectDelivered);
        EmitOutcome(Reject, emitOk);
      }
    }

    /** `contract_setup`: store the channel, then run `start_contract_setup` and spawn the setup task. */
    method ContractSetup(channel: Channel, startOk: bool) returns (r: Result<()>)
      modifies this
      ensures setupMsgSender == Some(channel) && stopped == old(stopped)
      ensures r.Ok? <==> startOk
      ensures effects == old(effects) + (if startOk then [SetupStarted(order.id), SetupTaskSpawned(channel)] else [])
    {
      setupMsgSender := Some(channel);
      if !startOk {
        return Err("Failed to start contract setup");
      }
      effects := effects + [SetupStarted(order.id), SetupTaskSpawned(channel)];
      r := Ok(());
    }

    method HandleAccepted(confirmOk: bool, channel: Channel, startOk: bool, emitOk: bool)
      requires !stopped
      modifies this
      ensures Snapshot() == OnAccepted(old(Snapshot()), order.id, confirmOk, channel, startOk, emitOk)
    {
      if setupMsgSender.Some? {
        return;
      }
      if !confirmOk {
        EmitOutcome(Fail, emitOk);
        return;
      }
      effects := effects + [OrderConfirmed(order.id)];
      var r := ContractSetup(channel, startOk);
      if r.Err? {
        EmitOutcome(Fail, emitOk);
      }
    }

    method HandleRejected(rejectDelivered: bool, emitOk: bool)
      requires !stopped
      modifies this
      ensures Snapshot() == OnRejected(old(Snapshot()), order.id, rejectDelivered, emitOk)
    {
      SendRejectOrder(rejectDelivered);
      EmitOutcome(Reject, emitOk);
    }

    method HandleSetupSucceeded(dlc: CfdEvents.Dlc, emitOk: bool)
      requires !stopped
      modifies this
      ensures Snapshot() == Emit(old(Snapshot()), Complete(dlc), emitOk)
    {
      EmitOutcome(Complete(dlc), emitOk);
    }

    method HandleSetupFailed(emitOk: bool)
      requires !stopped
      modifies this
      ensures Snapshot() == Emit(old(Snapshot()), Fail, emitOk)
    {
      EmitOutcome(Fail, emitOk);
    }

    /** `forward_protocol_msg`: fails without a running setup or when the send fails. */
    method ForwardProtocolMsg(msg: nat, sendOk: bool) returns (r: Result<()>)
      modifies this
      ensures r.Ok? <==> old(setupMsgSender).Some? && sendOk
      ensures Snapshot() == OnSetupMsg(old(Snapshot()), msg, sendOk)
    {
      if setupMsgSender.None? {
        return Err("Cannot forward message to contract setup task");
      }
      if !sendOk {
        return Err("channel closed");
      }
      effects := effects + [Forwarded(setupMsgSender.value, msg)];
      r := Ok(());
    }

    method HandleSetupMsg(msg: nat, sendOk: bool)
      requires !stopped
      modifies this
      ensures Snapshot() == OnSetupMsg(old(Snapshot()), msg, sendOk)
    {
      var _ := ForwardProtocolMsg(msg, sendOk);
    }
  }
}
