/**
 * The maker's rollover actor: one per rollover proposal from a taker. On
 * start it records the proposal; on accept it confirms the rollover to the
 * taker and spawns the rollover protocol; on reject it tells the taker and
 * completes as rejected; it forwards the taker's protocol messages to the
 * running rollover; it ends by reporting the completion (or by failing
 * silently) and stopping, and when it stops it notifies its two listeners.
 *
 * Every outcome that depends on another actor, the database, the oracle or
 * the clock is a parameter.
 */
module RolloverMaker {
  import opened Common
  import CfdEvents

  /** The writing end of the channel into a running rollover, by identity. */
  type Channel = nat

  /** The number of actors told when this one stops (the two `on_stopping` channels). */
  const LISTENERS: nat := 2

  /** How a rollover completed, as reported to the process manager. */
  datatype Completion = Succeeded(dlc: CfdEvents.Dlc) | Rejected | Failed

  /** What the actor did that others can see, in order. */
  datatype Effect =
    /** The event recording the proposal reached the process manager. */
    | ProposalRecorded
    /** The event accepting the proposal reached the process manager. */
    | AcceptRecorded
    /** `ConfirmRollOver` reached the taker, naming the oracle event the new contract uses. */
    | ConfirmSent(oracleEventId: nat)
    /** The rollover protocol task is running, reading from `channel`. */
    | RolloverSpawned(channel: Channel, announcement: nat)
    /** `RejectRollOver` reached the taker. */
    | RejectSent
    /** The completion event reached the process manager. */
    | Reported(completion: Completion)
    | Forwarded(channel: Channel, msg: nat)
    /** Listener `listener` was told that the actor is stopping. */
    | StoppingNotified(listener: nat)

  /** The actor's mutable state: the protocol channel, whether it stopped, what it did. */
  datatype State = State(sender: Option<Channel>, stopped: bool, effects: seq<Effect>)

  function Init(): State
  {
    State(None, false, [])
  }

  /**
   * What accepting depends on: whether the CFD loaded and accepted the
   * proposal, whether the process manager took the event, the next oracle
   * event (none when it cannot be computed), whether the taker took the
   * confirmation, and the oracle's announcement (none when the oracle is
   * unreachable or does not know the event).
   */
  datatype AcceptEnv = AcceptEnv(
    channel: Channel,
    loadOk: bool,
    recordOk: bool,
    oracleEventId: Option<nat>,
    confirmOk: bool,
    announcement: Option<nat>)

  // ---------------------------------------------------------------------------
  // Handlers, as functions of the state

  function Append(s: State, es: seq<Effect>): State
  {
    s.(effects := s.effects + es)
  }

  /** `complete`: report the completion if its event could be built and delivered, then stop, either way. */
  function Complete(s: State, c: Completion, reportOk: bool): State
  {
    State(s.sender, true, s.effects + (if reportOk then [Reported(c)] else []))
  }

  /** `fail`: stop, telling no one. */
  function Fail(s: State): State
  {
    s.(stopped := true)
  }

  /** `started`: record the proposal; if that fails, complete as failed. */
  function OnStarted(s: State, proposalOk: bool, reportOk: bool): State
  {
    if proposalOk then Append(s, [ProposalRecorded]) else Complete(s, Failed, reportOk)
  }

  /**
   * `handle(AcceptRollOver)`: unless a rollover is already active, store the
   * channel, record the acceptance, confirm to the taker, fetch the
   * announcement and spawn the rollover; the first step that fails makes the
   * actor fail.
   */
  function OnAccept(s: State, env: AcceptEnv): State
  {
    if s.sender.Some? then s
    else
      var s1 := s.(sender := Some(env.channel));
      if !env.loadOk || !env.recordOk then Fail(s1)
      else
        var s2 := Append(s1, [AcceptRecorded]);
        if env.oracleEventId.None? || !env.confirmOk then Fail(s2)
        else
          var s3 := Append(s2, [ConfirmSent(env.oracleEventId.value)]);
          if env.announcement.None? then Fail(s3)
          else Append(s3, [RolloverSpawned(env.channel, env.announcement.value)])
  }

  /** `handle(RejectRollOver)`: tell the taker, then complete as rejected; if the taker cannot be told, fail. */
  function OnReject(s: State, rejectOk: bool, reportOk: bool): State
  {
    if !rejectOk then Fail(s) else Complete(Append(s, [RejectSent]), Rejected, reportOk)
  }

  /** `handle(ProtocolMsg)`: forward to the running rollover; without one, or if the send fails, fail. */
  function OnProtocolMsg(s: State, msg: nat, sendOk: bool): State
  {
    if s.sender.None? || !sendOk then Fail(s)
    else Append(s, [Forwarded(s.sender.value, msg)])
  }

  /** `stopping`: each listener, in order, is told; a listener that cannot be reached is skipped. */
  function Notices(delivered: nat -> bool, n: nat): seq<Effect>
  {
    if n == 0 then []
    else Notices(delivered, n - 1) + (if delivered(n - 1) then [StoppingNotified(n - 1)] else [])
  }

  // ---------------------------------------------------------------------------
  // Properties of single handlers

  /** A proposal that cannot be recorded ends the actor as a failed rollover. */
  lemma StartFailureCompletesFailed(s: State, proposalOk: bool, reportOk: bool)
    ensures var s' := OnStarted(s, proposalOk, reportOk);
            && (s'.stopped <==> s.stopped || !proposalOk)
            && (!proposalOk ==> s'.effects == s.effects + (if reportOk then [Reported(Failed)] else []))
            && (proposalOk ==> s'.effects == s.effects + [ProposalRecorded])
  {
  }

  /** A second accept while a rollover is active changes nothing. */
  lemma DuplicateAcceptIgnored(s: State, env: AcceptEnv)
    requires s.sender.Some?
    ensures OnAccept(s, env) == s
  {
  }

  /**
   * An accept stores the channel before anything can fail; it spawns the
   * rollover exactly when every step succeeded, after recording and
   * confirming, and otherwise fails without reporting a completion.
   */
  lemma AcceptOutcome(s: State, env: AcceptEnv)
    requires s.sender.None? && !s.stopped
    ensures var s' := OnAccept(s, env);
            var allOk := env.loadOk && env.recordOk && env.oracleEventId.Some? && env.confirmOk && env.announcement.Some?;
            && s'.sender == Some(env.channel)
            && (s'.stopped <==> !allOk)
            && (allOk ==> s'.effects == s.effects + [AcceptRecorded, ConfirmSent(env.oracleEventId.value), RolloverSpawned(env.channel, env.announcement.value)])
            && |s'.effects| <= |s.effects| + 3
            && s'.effects[..|s.effects|] == s.effects
            && (forall i :: |s.effects| <= i < |s'.effects| ==> !s'.effects[i].Reported?)
  {
    var s' := OnAccept(s, env);
    if env.loadOk && env.recordOk && env.oracleEventId.Some? && env.confirmOk && env.announcement.Some? {
      assert s.effects + [AcceptRecorded] + [ConfirmSent(env.oracleEventId.value)] + [RolloverSpawned(env.channel, env.announcement.value)]
          == s.effects + [AcceptRecorded, ConfirmSent(env.oracleEventId.value), RolloverSpawned(env.channel, env.announcement.value)];
    }
  }

  /** Unlike the setup actor, the rollover actor fails on a protocol message it cannot forward. */
  lemma ProtocolMsgWithoutRolloverFails(s: State, msg: nat, sendOk: bool)
    ensures var s' := OnProtocolMsg(s, msg, sendOk);
            && (s'.stopped <==> s.stopped || s.sender.None? || !sendOk)
            && (s.sender.None? ==> s'.effects == s.effects)
  {
  }

  /** A rejection reaches the taker before the completion is reported; the actor stops either way. */
  lemma RejectThenComplete(s: State, rejectOk: bool, reportOk: bool)
    ensures var s' := OnReject(s, rejectOk, reportOk);
            && s'.stopped
            && s'.effects == s.effects + (if rejectOk then [RejectSent] + (if reportOk then [Reported(Rejected)] else []) else [])
  {
  }

  /** Each reachable listener is told exactly once that the actor stops, and no one else is. */
  lemma {:induction false} NoticesOncePerListener(delivered: nat -> bool, n: nat, listener: nat)
    ensures multiset(Notices(delivered, n))[StoppingNotified(listener)] == (if listener < n && delivered(listener) then 1 else 0)
  {
    if n > 0 {
      NoticesOncePerListener(delivered, n - 1, listener);
      var prev := Notices(delivered, n - 1);
      var e := StoppingNotified(listener);
      var before := multiset(prev)[e];
      assert before == (if listener < n - 1 && delivered(listener) then 1 else 0);
      if delivered(n - 1) {
        var added := multiset([StoppingNotified(n - 1)])[e];
        assert added == (if listener == n - 1 then 1 else 0);
        assert Notices(delivered, n) == prev + [StoppingNotified(n - 1)];
        assert multiset(Notices(delivered, n))[e] == before + added;
      } else {
        assert Notices(delivered, n) == prev;
        assert listener == n - 1 ==> !delivered(listener);
      }
    }
  }

  /** Stopping tells only listeners, and none beyond the registered ones. */
  lemma {:induction false} NoticesOnlyListeners(delivered: nat -> bool, n: nat)
    ensures forall e :: e in Notices(delivered, n) ==> e.StoppingNotified? && e.listener < n && delivered(e.listener)
  {
    if n > 0 {
      NoticesOnlyListeners(delivered, n - 1);
    }
  }

  // ---------------------------------------------------------------------------
  // The actor's whole life

  /** A message in the actor's mailbox, with the outcomes of what handling it depends on. */
  datatype Msg =
    | AcceptRollOver(env: AcceptEnv)
    | RejectRollOver(rejectOk: bool, reportOk: bool)
    | ProtocolMsg(msg: nat, sendOk: bool)
    | RolloverFailed(reportOk: bool)
    | RolloverSucceeded(dlc: CfdEvents.Dlc, reportOk: bool)

  /** One message; a stopped actor handles none. */
  function Step(s: State, m: Msg): State
  {
    if s.stopped then s
    else match m
      case AcceptRollOver(env) => OnAccept(s, env)
      case RejectRollOver(rejectOk, reportOk) => OnReject(s, rejectOk, reportOk)
      case ProtocolMsg(msg, sendOk) => OnProtocolMsg(s, msg, sendOk)
      case RolloverFailed(reportOk) => Complete(s, Failed, reportOk)
      case RolloverSucceeded(dlc, reportOk) => Complete(s, Succeeded(dlc), reportOk)
  }

  function Run(s: State, ms: seq<Msg>): State
    decreases |ms|
  {
    if |ms| == 0 then s else Run(Step(s, ms[0]), ms[1..])
  }

  predicate IsReport(e: Effect) { e.Reported? }
  predicate IsAccept(e: Effect) { e.AcceptRecorded? }
  predicate IsConfirm(e: Effect) { e.ConfirmSent? }
  predicate IsSpawn(e: Effect) { e.RolloverSpawned? }
  predicate IsForward(e: Effect) { e.Forwarded? }

  /** How many reports, acceptances, confirmations, spawns and forwards `es` holds. */
  function Counts(es: seq<Effect>): (nat, nat, nat, nat, nat)
  {
    (|Filter(es, IsReport)|, |Filter(es, IsAccept)|, |Filter(es, IsConfirm)|, |Filter(es, IsSpawn)|, |Filter(es, IsForward)|)
  }

  /**
   * What holds of the actor at every point of its life: it reports at most
   * one completion, and only as it stops; it accepts, confirms and spawns at
   * most once, each only after the previous one; without a channel it has
   * done none of these and forwarded nothing.
   */
  predicate Inv(s: State)
  {
    var (reports, accepts, confirms, spawns, forwards) := Counts(s.effects);
    && reports <= 1
    && (reports == 1 ==> s.stopped)
    && spawns <= confirms <= accepts <= 1
    && (s.sender.None? ==> accepts == 0 && forwards == 0)
  }

  lemma InitInv()
    ensures Inv(Init())
  {
  }

  /** Appending effects adds their counts. */
  lemma CountsAppend(xs: seq<Effect>, ys: seq<Effect>)
    ensures Counts(xs + ys).0 == Counts(xs).0 + Counts(ys).0
    ensures Counts(xs + ys).1 == Counts(xs).1 + Counts(ys).1
    ensures Counts(xs + ys).2 == Counts(xs).2 + Counts(ys).2
    ensures Counts(xs + ys).3 == Counts(xs).3 + Counts(ys).3
    ensures Counts(xs + ys).4 == Counts(xs).4 + Counts(ys).4
  {
    FilterAppend(xs, ys, IsReport);
    FilterAppend(xs, ys, IsAccept);
    FilterAppend(xs, ys, IsConfirm);
    FilterAppend(xs, ys, IsSpawn);
    FilterAppend(xs, ys, IsForward);
  }

  /** Appending one effect adds one to the count of its own kind only. */
  lemma CountsSnoc(xs: seq<Effect>, e: Effect)
    ensures Counts(xs + [e]) == (Counts(xs).0 + (if IsReport(e) then 1 else 0),
                                 Counts(xs).1 + (if IsAccept(e) then 1 else 0),
                                 Counts(xs).2 + (if IsConfirm(e) then 1 else 0),
                                 Counts(xs).3 + (if IsSpawn(e) then 1 else 0),
                                 Counts(xs).4 + (if IsForward(e) then 1 else 0))
  {
    CountsAppend(xs, [e]);
    assert [e][1..] == [];
  }

  lemma CompleteKeepsInv(s: State, c: Completion, reportOk: bool)
    requires Inv(s) && !s.stopped
    ensures Inv(Complete(s, c, reportOk))
  {
    if reportOk {
      CountsSnoc(s.effects, Reported(c));
    } else {
      assert s.effects + [] == s.effects;
    }
  }

  lemma AcceptKeepsInv(s: State, env: AcceptEnv)
    requires Inv(s) && !s.stopped
    ensures Inv(OnAccept(s, env))
  {
    if s.sender.None? {
      var s1 := s.(sender := Some(env.channel));
      if env.loadOk && env.recordOk {
        CountsSnoc(s1.effects, AcceptRecorded);
        var s2 := Append(s1, [AcceptRecorded]);
        if env.oracleEventId.Some? && env.confirmOk {
          CountsSnoc(s2.effects, ConfirmSent(env.oracleEventId.value));
          var s3 := Append(s2, [ConfirmSent(env.oracleEventId.value)]);
          if env.announcement.Some? {
            CountsSnoc(s3.effects, RolloverSpawned(env.channel, env.announcement.value));
          }
        }
      }
    }
  }

  lemma RejectKeepsInv(s: State, rejectOk: bool, reportOk: bool)
    requires Inv(s) && !s.stopped
    ensures Inv(OnReject(s, rejectOk, reportOk))
  {
    if rejectOk {
      CountsSnoc(s.effects, RejectSent);
      CompleteKeepsInv(Append(s, [RejectSent]), Rejected, reportOk);
    }
  }

  lemma ProtocolMsgKeepsInv(s: State, msg: nat, sendOk: bool)
    requires Inv(s) && !s.stopped
    ensures Inv(OnProtocolMsg(s, msg, sendOk))
  {
    if s.sender.Some? && sendOk {
      CountsSnoc(s.effects, Forwarded(s.sender.value, msg));
    }
  }

  lemma StepKeepsInv(s: State, m: Msg)
    requires Inv(s)
    ensures Inv(Step(s, m))
  {
    if !s.stopped {
      match m
      case AcceptRollOver(env) => AcceptKeepsInv(s, env);
      case RejectRollOver(rejectOk, reportOk) => RejectKeepsInv(s, rejectOk, reportOk);
      case ProtocolMsg(msg, sendOk) => ProtocolMsgKeepsInv(s, msg, sendOk);
      case RolloverFailed(reportOk) => CompleteKeepsInv(s, Failed, reportOk);
      case RolloverSucceeded(dlc, reportOk) => CompleteKeepsInv(s, Succeeded(dlc), reportOk);
    }
  }

  /** The start keeps the invariant. */
  lemma StartKeepsInv(s: State, proposalOk: bool, reportOk: bool)
    requires Inv(s) && !s.stopped
    ensures Inv(OnStarted(s, proposalOk, reportOk))
  {
    if proposalOk {
      CountsAppend(s.effects, [ProposalRecorded]);
    } else {
      CompleteKeepsInv(s, Failed, reportOk);
    }
  }

  /**
   * Over any sequence of messages the actor reports at most one completion
   * and only as it stops, and spawns at most one rollover, only after it
   * recorded the acceptance and confirmed it to the taker.
   */
  lemma {:induction false} RunKeepsInv(s: State, ms: seq<Msg>)
    requires Inv(s)
    ensures Inv(Run(s, ms))
    decreases |ms|
  {
    if |ms| > 0 {
      StepKeepsInv(s, ms[0]);
      RunKeepsInv(Step(s, ms[0]), ms[1..]);
    }
  }

  /** Once stopped, the actor does nothing more. */
  lemma {:induction false} StoppedIsFinal(s: State, ms: seq<Msg>)
    requires s.stopped
    ensures Run(s, ms) == s
    decreases |ms|
  {
    if |ms| > 0 {
      StoppedIsFinal(s, ms[1..]);
    }
  }

  // ---------------------------------------------------------------------------
  // The actor

  class Actor {
    var sentFromTaker: Option<Channel>
    var stopped: bool
    var effects: seq<Effect>

    function Snapshot(): State
      reads this
    {
      State(sentFromTaker, stopped, effects)
    }

    constructor ()
      ensures Snapshot() == Init()
    {
      sentFromTaker := None;
      stopped := false;
      effects := [];
    }

    method CompleteWith(c: Completion, reportOk: bool)
      modifies this
      ensures Snapshot() == Complete(old(Snapshot()), c, reportOk)
    {
      if reportOk {
        effects := effects + [Reported(c)];
      }
      stopped := true;
    }

    method FailNow()
      modifies this
      ensures Snapshot() == Fail(old(Snapshot()))
    {
      stopped := true;
    }

    /** `handle_proposal`: load the CFD, record the proposal with the process manager. */
    method HandleProposal(proposalOk: bool) returns (r: Result<()>)
      modifies this
      ensures r.Ok? <==> proposalOk
      ensures Snapshot() == if proposalOk then Append(old(Snapshot()), [ProposalRecorded]) else old(Snapshot())
    {
      if !proposalOk {
        return Err("failed to record rollover proposal");
      }
      effects := effects + [ProposalRecorded];
      r := Ok(());
    }

    method Started(proposalOk: bool, reportOk: bool)
      requires !stopped
      modifies this
      ensures Snapshot() == OnStarted(old(Snapshot()), proposalOk, reportOk)
    {
      var r := HandleProposal(proposalOk);
      if r.Err? {
        CompleteWith(Failed, reportOk);
      }
    }

    /** `accept`: the steps in order, the first failure returning its error. */
    method Accept(env: AcceptEnv) returns (r: Result<()>)
      modifies this
      ensures r.Err? ==> Fail(Snapshot()) == OnAccept(old(Snapshot()), env)
      ensures r.Ok? ==> Snapshot() == OnAccept(old(Snapshot()), env)
      ensures r.Ok? <==> old(sentFromTaker).Some? || (env.loadOk && env.recordOk && env.oracleEventId.Some? && env.confirmOk && env.announcement.Some?)
    {
      if sentFromTaker.Some? {
        return Ok(());
      }
      sentFromTaker := Some(env.channel);
      if !env.loadOk {
        return Err("failed to load CFD");
      }
      if !env.recordOk {
        return Err("failed to record rollover acceptance");
      }
      effects := effects + [AcceptRecorded];
      if env.oracleEventId.None? {
        return Err("no next oracle event");
      }
      if !env.confirmOk {
        return Err("failed to confirm rollover to taker");
      }
      effects := effects + [ConfirmSent(env.oracleEventId.value)];
      if env.announcement.None? {
        return Err("Announcement not found");
      }
      effects := effects + [RolloverSpawned(env.channel, env.announcement.value)];
      r := Ok(());
    }

    method HandleAcceptRollover(env: AcceptEnv)
      requires !stopped
      modifies this
      ensures Snapshot() == OnAccept(old(Snapshot()), env)
    {
      var r := Accept(env);
      if r.Err? {
        FailNow();
      }
    }

    /** `reject`: tell the taker, complete as rejected, stop. */
    method RejectProposal(rejectOk: bool, reportOk: bool) returns (r: Result<()>)
      modifies this
      ensures r.Ok? <==> rejectOk
      ensures r.Err? ==> Snapshot() == old(Snapshot())
      ensures r.Ok? ==> Snapshot() == OnReject(old(Snapshot()), rejectOk, reportOk)
    {
      if !rejectOk {
        return Err("failed to send RejectRollOver");
      }
      effects := effects + [RejectSent];
      CompleteWith(Rejected, reportOk);
      stopped := true;
      r := Ok(());
    }

    method HandleRejectRollover(rejectOk: bool, reportOk: bool)
      requires !stopped
      modifies this
      ensures Snapshot() == OnReject(old(Snapshot()), rejectOk, reportOk)
    {
      var r := RejectProposal(rejectOk, reportOk);
      if r.Err? {
        FailNow();
      }
    }

    /** `forward_protocol_msg`: fails without a running rollover or when the send fails. */
    method ForwardProtocolMsg(msg: nat, sendOk: bool) returns (r: Result<()>)
      modifies this
      ensures r.Ok? <==> old(sentFromTaker).Some? && sendOk
      ensures r.Err? ==> Snapshot() == old(Snapshot())
      ensures r.Ok? ==> Snapshot() == OnProtocolMsg(old(Snapshot()), msg, sendOk)
    {
      if sentFromTaker.None? {
        return Err("cannot forward message to rollover task");
      }
      if !sendOk {
        return Err("channel closed");
      }
      effects := effects + [Forwarded(sentFromTaker.value, msg)];
      r := Ok(());
    }

    method HandleProtocolMsg(msg: nat, sendOk: bool)
      requires !stopped
      modifies this
      ensures Snapshot() == OnProtocolMsg(old(Snapshot()), msg, sendOk)
    {
      var r := ForwardProtocolMsg(msg, sendOk);
      if r.Err? {
        FailNow();
      }
    }

    method HandleRolloverFailed(reportOk: bool)
      requires !stopped
      modifies this
      ensures Snapshot() == Complete(old(Snapshot()), Failed, reportOk)
    {
      CompleteWith(Failed, reportOk);
    }

    method HandleRolloverSucceeded(dlc: CfdEvents.Dlc, reportOk: bool)
      requires !stopped
      modifies this
      ensures Snapshot() == Complete(old(Snapshot()), Succeeded(dlc), reportOk)
    {
      CompleteWith(Succeeded(dlc), reportOk);
    }

    /** `stopping`: tell each listener in turn, ignoring the ones that cannot be reached. */
    method Stopping(delivered: nat -> bool)
      modifies this
      ensures sentFromTaker == old(sentFromTaker) && stopped == old(stopped)
      ensures effects == old(effects) + Notices(delivered, LISTENERS)
    {
      var i := 0;
      while i < LISTENERS
        invariant i <= LISTENERS
        invariant sentFromTaker == old(sentFromTaker) && stopped == old(stopped)
        invariant effects == old(effects) + Notices(delivered, i)
      {
        if delivered(i) {
          effects := effects + [StoppingNotified(i)];
        }
        i := i + 1;
      }
    }
  }
}
