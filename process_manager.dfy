/**
 * The process manager: it persists each CFD event first, then turns it into
 * the side effects its kind calls for (broadcasting a transaction, starting a
 * monitor, watching an oracle attestation) and finally tells the UI
 * projection that the CFD changed.
 *
 * Sends go to other actors and may fail; `delivered(i)` says whether the
 * `i`-th send of one handling succeeds.
 */
module ProcessManager {
  import opened Common
  import opened CfdEvents

  /** What a transaction broadcast is for. */
  datatype TxKind = Lock | Commit | Cet | Refund | CollaborativeClose

  /** A message to another actor. */
  datatype Command =
    | TryBroadcast(tx: Tx, kind: TxKind)
    | StartMonitoring(id: OrderId, dlc: Dlc)
    | MonitorAttestation(eventId: nat)
    | MonitorCetFinality(orderId: OrderId, cet: Tx)
    | MonitorCollaborativeSettlement(orderId: OrderId, spendTx: Tx, script: nat)
    | CfdChanged(changed: OrderId)

  /** The post-processing of an event: the commands its kind calls for, in order. */
  function Dispatch(e: CfdEvent, role: Role): seq<Command>
  {
    match e.event
    case ContractSetupCompleted(dlc) =>
      [TryBroadcast(dlc.lockTx, Lock), StartMonitoring(e.id, dlc), MonitorAttestation(dlc.settlementEventId)]
    case CollaborativeSettlementCompleted(spendTx, script) =>
      (if role == Maker then [TryBroadcast(spendTx, CollaborativeClose)] else [])
      + [MonitorCollaborativeSettlement(e.id, spendTx, script)]
    case CetTimelockExpiredPostOracleAttestation(cet) =>
      [MonitorCetFinality(e.id, cet), TryBroadcast(cet, Cet)]
    case OracleAttestedPostCetTimelock(cet) =>
      [MonitorCetFinality(e.id, cet), TryBroadcast(cet, Cet)]
    case OracleAttestedPriorCetTimelock(timelockedCet, commitTx) =>
      if commitTx.Some? then [TryBroadcast(commitTx.value, Commit)]
      else [MonitorCetFinality(e.id, timelockedCet)]
    case ManualCommit(tx) =>
      [TryBroadcast(tx, Commit)]
    case RolloverCompleted(dlc) =>
      [StartMonitoring(e.id, dlc), MonitorAttestation(dlc.settlementEventId)]
    case RefundTimelockExpired(refundTx) =>
      [TryBroadcast(refundTx, Refund)]
    case RefundConfirmed => []
    case CollaborativeSettlementStarted => []
    case ContractSetupStarted => []
    case ContractSetupFailed => []
    case OfferRejected => []
    case RolloverStarted => []
    case RolloverAccepted => []
    case RolloverRejected => []
    case RolloverFailed => []
    case CollaborativeSettlementProposalAccepted => []
    case LockConfirmed => []
    case LockConfirmedAfterFinality => []
    case CommitConfirmed => []
    case CetConfirmed => []
    case RevokeConfirmed => []
    case CollaborativeSettlementConfirmed => []
    case CollaborativeSettlementRejected => []
    case CollaborativeSettlementFailed => []
    case CetTimelockExpiredPriorOracleAttestation => []
  }

  /** Every command of a successful handling: the dispatched ones, then the notification. */
  function Commands(e: CfdEvent, role: Role): seq<Command>
  {
    Dispatch(e, role) + [CfdChanged(e.id)]
  }

  /** What one handling sends: nothing if the event could not be saved, else the commands up to the first failed send. */
  function Effects(e: CfdEvent, role: Role, appendOk: bool, delivered: nat -> bool): (out: seq<Command>)
    ensures |out| <= |Commands(e, role)| && out == Commands(e, role)[..|out|]
    ensures !appendOk ==> out == []
    ensures appendOk ==> |out| == LeadingSuccesses(delivered, |Commands(e, role)|)
  {
    if appendOk then Commands(e, role)[..LeadingSuccesses(delivered, |Commands(e, role)|)] else []
  }

  // ---------------------------------------------------------------------------
  // The actor

  class Actor {
    const role: Role
    /** The events saved so far. */
    var log: seq<CfdEvent>
    /** The commands sent so far, in order. */
    var sent: seq<Command>

    constructor (role: Role)
      ensures this.role == role && log == [] && sent == []
    {
      this.role := role;
      log := [];
      sent := [];
    }

    /**
     * `handle(Event)`: save the event, then send its commands one by one and
     * finally the change notification; the first failure (of the save or of a
     * send) ends the handling with an error.
     */
    method Handle(event: CfdEvent, appendOk: bool, delivered: nat -> bool) returns (r: Result<()>)
      modifies this
      ensures log == if appendOk then old(log) + [event] else old(log)
      ensures sent == old(sent) + Effects(event, role, appendOk, delivered)
      ensures r.Ok? <==> appendOk && Effects(event, role, appendOk, delivered) == Commands(event, role)
    {
      if !appendOk {
        return Err("could not append event");
      }
      log := log + [event];

      var cmds := Dispatch(event, role) + [CfdChanged(event.id)];
      ghost var m := LeadingSuccesses(delivered, |cmds|);
      ghost var start := sent;
      var i := 0;
      while i < |cmds|
        invariant 0 <= i <= m
        invariant sent == start + cmds[..i]
        invariant log == old(log) + [event]
      {
        if !delivered(i) {
          LeadingSuccessesIs(delivered, |cmds|, i);
          return Err("could not send command");
        }
        LeadingSuccessesPast(delivered, |cmds|, i);
        sent := sent + [cmds[i]];
        assert cmds[..i + 1] == cmds[..i] + [cmds[i]];
        i := i + 1;
      }
      assert cmds[..i] == cmds;
      r := Ok(());
    }
  }

  // ---------------------------------------------------------------------------
  // What the handling promises

  /** Nothing is sent, not even the notification, unless the event was saved first. */
  lemma NothingWithoutAppend(e: CfdEvent, role: Role, delivered: nat -> bool)
    ensures Effects(e, role, false, delivered) == []
  {
  }

  /** Dispatch never notifies; the notification is added once, at the end. */
  lemma {:induction false} DispatchNeverNotifies(e: CfdEvent, role: Role)
    ensures forall c :: c in Dispatch(e, role) ==> !c.CfdChanged?
  {
  }

  /**
   * The UI hears of the change only after every dispatched command went out,
   * and then exactly once, as the last message.
   */
  lemma NotifiedOnlyAfterAllEffects(e: CfdEvent, role: Role, appendOk: bool, delivered: nat -> bool)
    ensures var out := Effects(e, role, appendOk, delivered);
            (exists i :: 0 <= i < |out| && out[i].CfdChanged?) <==> out == Commands(e, role)
    ensures var out := Effects(e, role, appendOk, delivered);
            out == Commands(e, role) ==>
              out[|out| - 1] == CfdChanged(e.id) && forall i :: 0 <= i < |out| - 1 ==> !out[i].CfdChanged?
  {
    var out := Effects(e, role, appendOk, delivered);
    var cmds := Commands(e, role);
    DispatchNeverNotifies(e, role);
    if exists i :: 0 <= i < |out| && out[i].CfdChanged? {
      var i :| 0 <= i < |out| && out[i].CfdChanged?;
      assert out == cmds[..|out|];
      assert cmds[i] == out[i];
      assert i >= |Dispatch(e, role)|;
      assert |out| == |cmds|;
    }
    if out == cmds {
      assert out[|out| - 1].CfdChanged?;
      forall i | 0 <= i < |out| - 1 ensures !out[i].CfdChanged? {
        assert out[i] == Dispatch(e, role)[i];
        assert Dispatch(e, role)[i] in Dispatch(e, role);
      }
    }
  }

  /** Every command goes out exactly when the event was saved and no send failed. */
  lemma AllSentIffNoFailure(e: CfdEvent, role: Role, appendOk: bool, delivered: nat -> bool)
    ensures Effects(e, role, appendOk, delivered) == Commands(e, role) <==>
            appendOk && forall i :: 0 <= i < |Commands(e, role)| ==> delivered(i)
  {
    var n := |Commands(e, role)|;
    if appendOk && forall i :: 0 <= i < n ==> delivered(i) {
      LeadingSuccessesIs(delivered, n, n);
    }
  }

  function Broadcasts(cmds: seq<Command>): seq<TxKind>
  {
    if |cmds| == 0 then []
    else (if cmds[0].TryBroadcast? then [cmds[0].kind] else []) + Broadcasts(cmds[1..])
  }

  /**
   * The broadcast each kind of event calls for: the lock transaction on
   * setup, the spend transaction on a collaborative close (the maker only), a
   * CET once it can be spent, the commit transaction on a manual commit or an
   * attestation before the CET timelock that carries one, the refund once its
   * timelock expired; nothing else.
   */
  lemma BroadcastsByEvent(e: CfdEvent, role: Role)
    ensures var b := Broadcasts(Dispatch(e, role));
            match e.event
            case ContractSetupCompleted(_) => b == [Lock]
            case CollaborativeSettlementCompleted(_, _) => b == (if role == Maker then [CollaborativeClose] else [])
            case CetTimelockExpiredPostOracleAttestation(_) => b == [Cet]
            case OracleAttestedPostCetTimelock(_) => b == [Cet]
            case OracleAttestedPriorCetTimelock(_, commitTx) => b == (if commitTx.Some? then [Commit] else [])
            case ManualCommit(_) => b == [Commit]
            case RefundTimelockExpired(_) => b == [Refund]
            case _ => b == []
  {
    var d := Dispatch(e, role);
    assert |d| <= 3;
    if |d| >= 1 {
      assert Broadcasts(d) == (if d[0].TryBroadcast? then [d[0].kind] else []) + Broadcasts(d[1..]);
    }
    if |d| >= 2 {
      assert d[1..][0] == d[1];
      assert Broadcasts(d[1..]) == (if d[1].TryBroadcast? then [d[1].kind] else []) + Broadcasts(d[2..]);
    }
    if |d| >= 3 {
      assert d[2..][0] == d[2] && d[2..][1..] == d[3..] == [];
      assert !d[2].TryBroadcast? && Broadcasts(d[2..]) == [];
    }
  }

  /** A taker never publishes the collaborative settlement transaction. */
  lemma TakerNeverClosesCollaboratively(e: CfdEvent)
    ensures forall c :: c in Dispatch(e, Taker) && c.TryBroadcast? ==> c.kind != CollaborativeClose
  {
  }

  /** A CET is only broadcast after the monitor for its finality was started, for the same CFD. */
  lemma CetFinalityMonitoredFirst(e: CfdEvent, role: Role)
    ensures var d := Dispatch(e, role);
            forall i :: 0 <= i < |d| && d[i].TryBroadcast? && d[i].kind == Cet ==>
              0 < i && d[i - 1] == MonitorCetFinality(e.id, d[i].tx)
  {
  }

  /** Monitoring and attestation watching are re-armed with the new DLC when a setup or rollover completes. */
  lemma MonitoringFollowsDlc(e: CfdEvent, role: Role)
    ensures var d := Dispatch(e, role);
            forall c :: c in d && c.StartMonitoring? ==>
              c.id == e.id && (e.event.ContractSetupCompleted? || e.event.RolloverCompleted?) && c.dlc == e.event.dlc
              && MonitorAttestation(c.dlc.settlementEventId) in d
  {
  }

  /** Exactly the listed housekeeping-only kinds dispatch nothing. */
  lemma QuietKinds(e: CfdEvent, role: Role)
    ensures Dispatch(e, role) == [] <==>
            || e.event.RefundConfirmed? || e.event.CollaborativeSettlementStarted? || e.event.ContractSetupStarted?
            || e.event.ContractSetupFailed? || e.event.OfferRejected? || e.event.RolloverStarted?
            || e.event.RolloverAccepted? || e.event.RolloverRejected? || e.event.RolloverFailed?
            || e.event.CollaborativeSettlementProposalAccepted? || e.event.LockConfirmed?
            || e.event.LockConfirmedAfterFinality? || e.event.CommitConfirmed? || e.event.CetConfirmed?
            || e.event.RevokeConfirmed? || e.event.CollaborativeSettlementConfirmed?
            || e.event.CollaborativeSettlementRejected? || e.event.CollaborativeSettlementFailed?
            || e.event.CetTimelockExpiredPriorOracleAttestation?
  {
  }
}
