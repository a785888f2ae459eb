/**
 * Start-up housekeeping over the older state-row store: CFDs stuck in a state
 * that cannot be continued are moved to `SetupFailed`, and transactions that
 * are still pending are published again. Which CFDs qualify, how a state is
 * displayed and how refund and commit transactions are built are decided by
 * the CFD model, which is not part of this model: they are parameters here.
 */
module Housekeeping {
  import opened Common
  import opened StateStore

  type Tx = nat

  /** The part of a DLC housekeeping needs: its lock transaction. */
  datatype Dlc = Dlc(lockTx: Tx)

  // ---------------------------------------------------------------------------
  // transition_non_continue_cfds_to_setup_failed

  /** The info text of the appended state: `Was in state {} which cannot be continued.` */
  function CannotContinueInfo(display: string): string
  {
    "Was in state " + display + " which cannot be continued."
  }

  /** The state a stuck CFD is moved to; its info names the state it was in. */
  function FailedStateFor(c: Cfd, display: CfdState -> string, now: int): CfdState
  {
    SetupFailed(now, CannotContinueInfo(display(c.state)))
  }

  /** The state rows appended for `targets`, each on the cfd row of its order uuid. */
  function FailedRows(t: Tables, targets: seq<Cfd>, display: CfdState -> string, now: int): seq<StateRow>
    requires forall k :: 0 <= k < |targets| ==> FindCfd(t.cfds, targets[k].order.id).Some?
  {
    if |targets| == 0 then []
    else [StateRow(FindCfd(t.cfds, targets[0].order.id).value, FailedStateFor(targets[0], display, now))]
         + FailedRows(t, targets[1..], display, now)
  }

  /** In a valid store, every loaded CFD has a cfd row for its order uuid. */
  lemma LoadedCfdHasRow(t: Tables, c: Cfd)
    requires Valid(t) && c in LoadAllCfds(t)
    ensures FindCfd(t.cfds, c.order.id).Some?
  {
    LoadAllCfdsExact(t);
    var i :| 0 <= i < |LoadAllCfds(t)| && LoadAllCfds(t)[i] == c;
    assert RowLinked(t, i);
    assert t.cfds[i].orderUuid == c.order.id;
  }

  /**
   * `transition_non_continue_cfds_to_setup_failed`: loads every CFD and, in
   * load order, appends a `SetupFailed` state to each one `isCleanup` selects.
   * The first failing append ends the pass; the appends before it stay.
   * `loadOk` is the outcome of the load statement: when it fails nothing is
   * appended. `writeOk(k)` is the outcome of the `k`-th insert statement.
   */
  method TransitionNonContinueCfdsToSetupFailed(
    db: Db, isCleanup: Cfd -> bool, display: CfdState -> string, now: int, loadOk: bool, writeOk: nat -> bool)
    returns (r: Result<()>)
    requires Valid(db.Snapshot())
    modifies db
    ensures forall k :: 0 <= k < |Targets(old(db.Snapshot()), isCleanup)| ==>
              FindCfd(old(db.cfds), Targets(old(db.Snapshot()), isCleanup)[k].order.id).Some?
    ensures db.orders == old(db.orders) && db.cfds == old(db.cfds)
    ensures !loadOk ==> db.states == old(db.states)
    ensures var targets := Targets(old(db.Snapshot()), isCleanup);
            loadOk ==> db.states == old(db.states)
                         + FailedRows(old(db.Snapshot()), targets[..LeadingSuccesses(writeOk, |targets|)], display, now)
    ensures r.Ok? <==> loadOk && LeadingSuccesses(writeOk, |Targets(old(db.Snapshot()), isCleanup)|) == |Targets(old(db.Snapshot()), isCleanup)|
    ensures Valid(db.Snapshot())
  {
    ghost var t0 := db.Snapshot();
    TargetsHaveRows(t0, Targets(t0, isCleanup));
    if !loadOk {
      return Err("could not load cfds");
    }
    var cfds := LoadAllCfds(db.Snapshot());
    var targets := Filter(cfds, isCleanup);
    r := AppendFailedStates(db, t0, targets, display, now, writeOk);
  }

  /**
   * The loop of the transition: appends the `SetupFailed` state of each
   * target in turn and returns the first error.
   */
  method AppendFailedStates(
    db: Db, ghost t0: Tables, targets: seq<Cfd>, display: CfdState -> string, now: int, writeOk: nat -> bool)
    returns (r: Result<()>)
    requires db.Snapshot() == t0 && Valid(t0)
    requires forall k :: 0 <= k < |targets| ==> FindCfd(t0.cfds, targets[k].order.id).Some?
    modifies db
    ensures db.orders == t0.orders && db.cfds == t0.cfds
    ensures db.states == t0.states + FailedRows(t0, targets[..LeadingSuccesses(writeOk, |targets|)], display, now)
    ensures r.Ok? <==> LeadingSuccesses(writeOk, |targets|) == |targets|
    ensures Valid(db.Snapshot())
  {
    ghost var m := LeadingSuccesses(writeOk, |targets|);
    var i := 0;
    while i < |targets|
      invariant 0 <= i <= m
      invariant db.orders == t0.orders && db.cfds == t0.cfds
      invariant db.states == t0.states + FailedRows(t0, targets[..i], display, now)
    {
      var res := AppendFailedState(db, t0, targets, i, display, now, writeOk(i));
      if res.Err? {
        LeadingSuccessesIs(writeOk, |targets|, i);
        FailedRowsInRange(t0, targets[..i], display, now);
        AppendRowsKeepValid(t0, FailedRows(t0, targets[..i], display, now));
        return res;
      }
      LeadingSuccessesPast(writeOk, |targets|, i);
      i := i + 1;
    }
    assert targets[..i] == targets;
    FailedRowsInRange(t0, targets, display, now);
    AppendRowsKeepValid(t0, FailedRows(t0, targets, display, now));
    r := Ok(());
  }

  /**
   * One turn of the loop: appends the `SetupFailed` state of target `i` after
   * those of the targets before it; only the write itself can fail.
   */
  method AppendFailedState(
    db: Db, ghost t0: Tables, targets: seq<Cfd>, i: nat, display: CfdState -> string, now: int, writeOk: bool)
    returns (r: Result<()>)
    requires Valid(t0) && i < |targets|
    requires forall k :: 0 <= k < |targets| ==> FindCfd(t0.cfds, targets[k].order.id).Some?
    requires db.orders == t0.orders && db.cfds == t0.cfds
    requires db.states == t0.states + FailedRows(t0, targets[..i], display, now)
    modifies db
    ensures db.orders == t0.orders && db.cfds == t0.cfds
    ensures r.Ok? <==> writeOk
    ensures r.Ok? ==> db.states == t0.states + FailedRows(t0, targets[..i + 1], display, now)
    ensures r.Err? ==> db.states == old(db.states)
  {
    var c := targets[i];
    NextFailedRow(t0, targets, i, display, now);
    r := db.InsertNewCfdStateByOrderId(c.order.id, FailedStateFor(c, display, now), writeOk);
  }

  /**
   * After the rows of the targets before `i`, the insert for target `i` finds
   * its cfd row and a latest state, and the row it appends is the next row of
   * the transition.
   */
  lemma NextFailedRow(t0: Tables, targets: seq<Cfd>, i: nat, display: CfdState -> string, now: int)
    requires Valid(t0) && i < |targets|
    requires forall k :: 0 <= k < |targets| ==> FindCfd(t0.cfds, targets[k].order.id).Some?
    ensures var t := t0.(states := t0.states + FailedRows(t0, targets[..i], display, now));
            var id := targets[i].order.id;
            && LoadCfdIdByOrderUuid(t, id) == Ok(FindCfd(t0.cfds, id).value)
            && LoadLatestCfdState(t, FindCfd(t0.cfds, id).value).Ok?
            && t.states + [StateRow(FindCfd(t0.cfds, id).value, FailedStateFor(targets[i], display, now))]
               == t0.states + FailedRows(t0, targets[..i + 1], display, now)
  {
    var done := FailedRows(t0, targets[..i], display, now);
    InsertableAfterAppends(t0, done, targets[i].order.id);
    FailedRowsSnoc(t0, targets, i, display, now);
  }

  /** Appending more state rows keeps the cfd lookup and finds a latest state wherever there was one. */
  lemma InsertableAfterAppends(t: Tables, more: seq<StateRow>, id: OrderId)
    requires Valid(t) && FindCfd(t.cfds, id).Some?
    ensures var t' := t.(states := t.states + more);
            && LoadCfdIdByOrderUuid(t', id) == Ok(FindCfd(t.cfds, id).value)
            && LoadLatestCfdState(t', FindCfd(t.cfds, id).value).Ok?
  {
    var k := FindCfd(t.cfds, id).value;
    assert RowLinked(t, k);
    var j :| 0 <= j < |t.states| && t.states[j].cfdId == k;
    assert (t.states + more)[j].cfdId == k;
  }

  /** Every appended row points at an existing cfd row. */
  lemma {:induction false} FailedRowsInRange(t: Tables, targets: seq<Cfd>, display: CfdState -> string, now: int)
    requires forall k :: 0 <= k < |targets| ==> FindCfd(t.cfds, targets[k].order.id).Some?
    ensures forall j :: 0 <= j < |FailedRows(t, targets, display, now)| ==>
              FailedRows(t, targets, display, now)[j].cfdId < |t.cfds|
  {
    if |targets| > 0 {
      FailedRowsInRange(t, targets[1..], display, now);
    }
  }

  /** Appending state rows of existing cfd rows keeps a valid store valid. */
  lemma AppendRowsKeepValid(t: Tables, more: seq<StateRow>)
    requires Valid(t)
    requires forall j :: 0 <= j < |more| ==> more[j].cfdId < |t.cfds|
    ensures Valid(t.(states := t.states + more))
  {
    var t' := t.(states := t.states + more);
    forall i | 0 <= i < |t'.cfds|
      ensures RowLinked(t', i)
    {
      assert RowLinked(t, i);
      var j :| 0 <= j < |t.states| && t.states[j].cfdId == i;
      assert t'.states[j].cfdId == i;
    }
  }

  /** The CFDs the transition visits, in load order. */
  function Targets(t: Tables, isCleanup: Cfd -> bool): seq<Cfd>
  {
    Filter(LoadAllCfds(t), isCleanup)
  }

  lemma TargetsHaveRows(t: Tables, targets: seq<Cfd>)
    requires Valid(t)
    requires forall k :: 0 <= k < |targets| ==> targets[k] in LoadAllCfds(t)
    ensures forall k :: 0 <= k < |targets| ==> FindCfd(t.cfds, targets[k].order.id).Some?
  {
    forall k | 0 <= k < |targets|
      ensures FindCfd(t.cfds, targets[k].order.id).Some?
    {
      LoadedCfdHasRow(t, targets[k]);
    }
  }

  /** In a valid store, a state insert for an order with a cfd row finds that row and its latest state. */
  lemma FoundCfdInsertable(t: Tables, id: OrderId)
    requires Valid(t) && FindCfd(t.cfds, id).Some?
    ensures LoadCfdIdByOrderUuid(t, id) == Ok(FindCfd(t.cfds, id).value)
    ensures LoadLatestCfdState(t, FindCfd(t.cfds, id).value).Ok?
  {
    assert RowLinked(t, FindCfd(t.cfds, id).value);
  }


  lemma {:induction false} FailedRowsAppend(t: Tables, a: seq<Cfd>, b: seq<Cfd>, display: CfdState -> string, now: int)
    requires forall k :: 0 <= k < |a| ==> FindCfd(t.cfds, a[k].order.id).Some?
    requires forall k :: 0 <= k < |b| ==> FindCfd(t.cfds, b[k].order.id).Some?
    ensures forall k :: 0 <= k < |a + b| ==> FindCfd(t.cfds, (a + b)[k].order.id).Some?
    ensures FailedRows(t, a + b, display, now) == FailedRows(t, a, display, now) + FailedRows(t, b, display, now)
  {
    if |a| > 0 {
      assert (a + b)[1..] == a[1..] + b;
      FailedRowsAppend(t, a[1..], b, display, now);
    } else {
      assert a + b == b;
    }
  }

  lemma FailedRowsSnoc(t: Tables, targets: seq<Cfd>, i: nat, display: CfdState -> string, now: int)
    requires i < |targets|
    requires forall k :: 0 <= k < |targets| ==> FindCfd(t.cfds, targets[k].order.id).Some?
    ensures FailedRows(t, targets[..i + 1], display, now)
            == FailedRows(t, targets[..i], display, now)
               + [StateRow(FindCfd(t.cfds, targets[i].order.id).value, FailedStateFor(targets[i], display, now))]
  {
    assert targets[..i + 1] == targets[..i] + [targets[i]];
    FailedRowsAppend(t, targets[..i], [targets[i]], display, now);
  }

  // ---------------------------------------------------------------------------
  // Which CFDs the transition marks

  /** No two cfd rows belong to the same order. */
  predicate DistinctOrders(t: Tables)
  {
    forall i, j :: 0 <= i < j < |t.cfds| ==> t.cfds[i].orderUuid != t.cfds[j].orderUuid
  }

  /**
   * The rows the transition appends when `cs` is the loaded CFD list: for each
   * position `i` that `isCleanup` selects, one `SetupFailed` row for cfd row `i`.
   */
  function Marks(cs: seq<Cfd>, isCleanup: Cfd -> bool, display: CfdState -> string, now: int): seq<StateRow>
  {
    if |cs| == 0 then []
    else
      var i := |cs| - 1;
      Marks(cs[..i], isCleanup, display, now)
      + (if isCleanup(cs[i]) then [StateRow(i, FailedStateFor(cs[i], display, now))] else [])
  }

  /** In a valid store with one cfd row per order, the loaded CFD at position `i` is found at cfd row `i`. */
  lemma LoadedCfdsFoundInPlace(t: Tables)
    requires Valid(t) && DistinctOrders(t)
    ensures |LoadAllCfds(t)| == |t.cfds|
    ensures forall i :: 0 <= i < |t.cfds| ==> FindCfd(t.cfds, LoadAllCfds(t)[i].order.id) == Some(i)
  {
    LoadAllCfdsExact(t);
    forall i | 0 <= i < |t.cfds|
      ensures FindCfd(t.cfds, LoadAllCfds(t)[i].order.id) == Some(i)
    {
      assert RowLinked(t, i);
      var found := FindCfd(t.cfds, LoadAllCfds(t)[i].order.id);
      assert t.cfds[i].orderUuid == LoadAllCfds(t)[i].order.id;
    }
  }

  lemma {:induction false} FailedRowsAreMarks(t: Tables, cs: seq<Cfd>, isCleanup: Cfd -> bool, display: CfdState -> string, now: int)
    requires forall i :: 0 <= i < |cs| ==> FindCfd(t.cfds, cs[i].order.id) == Some(i)
    ensures forall k :: 0 <= k < |Filter(cs, isCleanup)| ==> FindCfd(t.cfds, Filter(cs, isCleanup)[k].order.id).Some?
    ensures FailedRows(t, Filter(cs, isCleanup), display, now) == Marks(cs, isCleanup, display, now)
  {
    if |cs| == 0 {
      assert Filter(cs, isCleanup) == [];
    } else {
      var i := |cs| - 1;
      var init := cs[..i];
      SplitLast(cs);
      FailedRowsAreMarks(t, init, isCleanup, display, now);
      FilterAppend(init, [cs[i]], isCleanup);
      var single := Filter([cs[i]], isCleanup);
      SingleFailedRow(t, cs[i], i, isCleanup, display, now);
      FailedRowsAppend(t, Filter(init, isCleanup), single, display, now);
    }
  }

  /** The rows for one loaded CFD found at cfd row `i`: one mark if it is selected, none otherwise. */
  lemma SingleFailedRow(t: Tables, c: Cfd, i: nat, isCleanup: Cfd -> bool, display: CfdState -> string, now: int)
    requires FindCfd(t.cfds, c.order.id) == Some(i)
    ensures Filter([c], isCleanup) == if isCleanup(c) then [c] else []
    ensures forall k :: 0 <= k < |Filter([c], isCleanup)| ==> FindCfd(t.cfds, Filter([c], isCleanup)[k].order.id).Some?
    ensures FailedRows(t, Filter([c], isCleanup), display, now)
            == if isCleanup(c) then [StateRow(i, FailedStateFor(c, display, now))] else []
  {
    assert Filter([c], isCleanup) == (if isCleanup(c) then [c] else []) + Filter([c][1..], isCleanup);
    assert [c][1..] == [];
  }

  lemma {:induction false} LatestStateAfterMarks(states: seq<StateRow>, cs: seq<Cfd>, isCleanup: Cfd -> bool, display: CfdState -> string, now: int, i: nat)
    ensures LatestState(states + Marks(cs, isCleanup, display, now), i) ==
            if i < |cs| && isCleanup(cs[i]) then Some(FailedStateFor(cs[i], display, now))
            else LatestState(states, i)
  {
    if |cs| == 0 {
      assert states + [] == states;
    } else {
      var n := |cs| - 1;
      var init := cs[..n];
      var prev := states + Marks(init, isCleanup, display, now);
      LatestStateAfterMarks(states, init, isCleanup, display, now, i);
      if isCleanup(cs[n]) {
        var row := StateRow(n, FailedStateFor(cs[n], display, now));
        assert states + Marks(cs, isCleanup, display, now) == prev + [row];
        if i != n {
          LatestStateOther(prev, n, row.state, i);
        }
      } else {
        assert states + Marks(cs, isCleanup, display, now) == prev;
      }
    }
  }

  lemma {:induction false} MarksPointAtCfds(cs: seq<Cfd>, isCleanup: Cfd -> bool, display: CfdState -> string, now: int)
    ensures forall row :: row in Marks(cs, isCleanup, display, now) ==> row.cfdId < |cs|
  {
    if |cs| > 0 {
      MarksPointAtCfds(cs[..|cs| - 1], isCleanup, display, now);
    }
  }

  /**
   * When every append succeeds, exactly the CFDs `isCleanup` selects now load
   * with a `SetupFailed` state naming the state they were in, and every other
   * CFD loads as before.
   */
  lemma TransitionMarksExactlyCleanup(t: Tables, isCleanup: Cfd -> bool, display: CfdState -> string, now: int)
    requires Valid(t) && DistinctOrders(t)
    ensures var targets := Filter(LoadAllCfds(t), isCleanup);
            && (forall k :: 0 <= k < |targets| ==> FindCfd(t.cfds, targets[k].order.id).Some?)
            && var t' := t.(states := t.states + FailedRows(t, targets, display, now));
               && |LoadAllCfds(t')| == |LoadAllCfds(t)| == |t.cfds|
               && forall i :: 0 <= i < |t.cfds| ==>
                    LoadAllCfds(t')[i] ==
                      if isCleanup(LoadAllCfds(t)[i])
                      then LoadAllCfds(t)[i].(state := FailedStateFor(LoadAllCfds(t)[i], display, now))
                      else LoadAllCfds(t)[i]
  {
    var cs := LoadAllCfds(t);
    LoadedCfdsFoundInPlace(t);
    FailedRowsAreMarks(t, cs, isCleanup, display, now);
    LoadAllCfdsExact(t);
    var t' := t.(states := t.states + Marks(cs, isCleanup, display, now));
    assert Valid(t') by {
      forall i | 0 <= i < |t'.cfds|
        ensures RowLinked(t', i)
      {
        assert RowLinked(t, i);
        LatestStateAfterMarks(t.states, cs, isCleanup, display, now, i);
      }
      MarksPointAtCfds(cs, isCleanup, display, now);
      forall j | 0 <= j < |t'.states|
        ensures t'.states[j].cfdId < |t'.cfds|
      {
        if j >= |t.states| {
          assert t'.states[j] in Marks(cs, isCleanup, display, now);
        }
      }
    }
    LoadAllCfdsExact(t');
    forall i | 0 <= i < |t.cfds|
      ensures LoadAllCfds(t')[i] ==
                if isCleanup(cs[i]) then cs[i].(state := FailedStateFor(cs[i], display, now)) else cs[i]
    {
      LatestStateAfterMarks(t.states, cs, isCleanup, display, now, i);
    }
  }

  // ---------------------------------------------------------------------------
  // rebroadcast_transactions

  datatype TxKind = LockKind | RefundKind | CommitKind

  /** A transaction handed to the wallet and published. */
  datatype Broadcast = Broadcast(kind: TxKind, tx: Tx)

  /** One planned step: a transaction of some kind to publish, or the error from building it. */
  datatype Step = Step(kind: TxKind, tx: Result<Tx>)

  /** The steps of one pass over `cfds`: one for each CFD `select` picks, in load order. */
  function Steps(cfds: seq<Cfd>, kind: TxKind, select: Cfd -> Option<Result<Tx>>): (r: seq<Step>)
    ensures forall k :: 0 <= k < |r| ==> r[k].kind == kind
  {
    if |cfds| == 0 then []
    else (match select(cfds[0]) case None => [] case Some(tx) => [Step(kind, tx)])
         + Steps(cfds[1..], kind, select)
  }

  function LockTx(pendingOpenDlc: Cfd -> Option<Dlc>): Cfd -> Option<Result<Tx>>
  {
    (c: Cfd) => match pendingOpenDlc(c) case None => None case Some(dlc) => Some(Ok(dlc.lockTx))
  }

  function BuiltTx(qualifies: Cfd -> bool, build: Cfd -> Result<Tx>): Cfd -> Option<Result<Tx>>
  {
    (c: Cfd) => if qualifies(c) then Some(build(c)) else None
  }

  /** All lock transactions first, then refund transactions, then commit transactions. */
  function RebroadcastPlan(
    cfds: seq<Cfd>, pendingOpenDlc: Cfd -> Option<Dlc>,
    isMustRefund: Cfd -> bool, refundTx: Cfd -> Result<Tx>,
    isPendingCommit: Cfd -> bool, commitTx: Cfd -> Result<Tx>): seq<Step>
  {
    Steps(cfds, LockKind, LockTx(pendingOpenDlc))
    + Steps(cfds, RefundKind, BuiltTx(isMustRefund, refundTx))
    + Steps(cfds, CommitKind, BuiltTx(isPendingCommit, commitTx))
  }

  /** Runs the plan: publishes in order and stops at the first build or broadcast error. */
  function Run(plan: seq<Step>, walletOk: Tx -> bool): (seq<Broadcast>, Result<()>)
  {
    if |plan| == 0 then ([], Ok(()))
    else match plan[0].tx
      case Err(e) => ([], Err(e))
      case Ok(tx) =>
        if !walletOk(tx) then ([], Err("broadcast failed"))
        else var rest := Run(plan[1..], walletOk); ([Broadcast(plan[0].kind, tx)] + rest.0, rest.1)
  }

  /**
   * `rebroadcast_transactions`: publishes the lock transaction of every CFD
   * with a pending-open DLC, then the refund transaction of every CFD that
   * must refund, then the commit transaction of every CFD pending commit. The
   * first error building or publishing a transaction ends the pass.
   * `loadOk` is the outcome of the load statement: when it fails nothing is
   * published. `walletOk(tx)` is the wallet's answer for `tx`; the answer
   * depends only on the transaction, not on the broadcasts before it.
   */
  method RebroadcastTransactions(
    db: Db, pendingOpenDlc: Cfd -> Option<Dlc>,
    isMustRefund: Cfd -> bool, refundTx: Cfd -> Result<Tx>,
    isPendingCommit: Cfd -> bool, commitTx: Cfd -> Result<Tx>,
    loadOk: bool, walletOk: Tx -> bool)
    returns (r: Result<()>, published: seq<Broadcast>)
    ensures !loadOk ==> r.Err? && published == []
    ensures loadOk ==> (published, r) == Run(RebroadcastPlan(LoadAllCfds(db.Snapshot()), pendingOpenDlc,
                                                             isMustRefund, refundTx, isPendingCommit, commitTx), walletOk)
  {
    if !loadOk {
      return Err("could not load cfds"), [];
    }
    var cfds := LoadAllCfds(db.Snapshot());
    RunPlanInPasses(cfds, pendingOpenDlc, isMustRefund, refundTx, isPendingCommit, commitTx, walletOk);
    var lockResult, lockPublished := PublishPass(cfds, LockKind, LockTx(pendingOpenDlc), walletOk);
    if lockResult.Err? {
      return lockResult, lockPublished;
    }
    var refundResult, refundPublished := PublishPass(cfds, RefundKind, BuiltTx(isMustRefund, refundTx), walletOk);
    if refundResult.Err? {
      return refundResult, lockPublished + refundPublished;
    }
    var commitResult, commitPublished := PublishPass(cfds, CommitKind, BuiltTx(isPendingCommit, commitTx), walletOk);
    r := commitResult;
    published := lockPublished + refundPublished + commitPublished;
  }

  /** The plan runs as three passes; a pass that fails ends the run. */
  lemma RunPlanInPasses(
    cfds: seq<Cfd>, pendingOpenDlc: Cfd -> Option<Dlc>,
    isMustRefund: Cfd -> bool, refundTx: Cfd -> Result<Tx>,
    isPendingCommit: Cfd -> bool, commitTx: Cfd -> Result<Tx>, walletOk: Tx -> bool)
    ensures var locks := Run(Steps(cfds, LockKind, LockTx(pendingOpenDlc)), walletOk);
            var refunds := Run(Steps(cfds, RefundKind, BuiltTx(isMustRefund, refundTx)), walletOk);
            var commits := Run(Steps(cfds, CommitKind, BuiltTx(isPendingCommit, commitTx)), walletOk);
            Run(RebroadcastPlan(cfds, pendingOpenDlc, isMustRefund, refundTx, isPendingCommit, commitTx), walletOk)
            == if locks.1.Err? then locks
               else if refunds.1.Err? then (locks.0 + refunds.0, refunds.1)
               else (locks.0 + refunds.0 + commits.0, commits.1)
  {
    var locks := Steps(cfds, LockKind, LockTx(pendingOpenDlc));
    var refunds := Steps(cfds, RefundKind, BuiltTx(isMustRefund, refundTx));
    var commits := Steps(cfds, CommitKind, BuiltTx(isPendingCommit, commitTx));
    assert RebroadcastPlan(cfds, pendingOpenDlc, isMustRefund, refundTx, isPendingCommit, commitTx)
           == locks + (refunds + commits);
    RunAppend(locks, refunds + commits, walletOk);
    RunAppend(refunds, commits, walletOk);
    var l := Run(locks, walletOk).0;
    var f := Run(refunds, walletOk).0;
    var c := Run(commits, walletOk).0;
    assert l + (f + c) == l + f + c;
  }

  /** One pass over the loaded CFDs: publishes the transaction of each CFD `select` picks, in load order. */
  method PublishPass(cfds: seq<Cfd>, kind: TxKind, select: Cfd -> Option<Result<Tx>>, walletOk: Tx -> bool)
    returns (r: Result<()>, published: seq<Broadcast>)
    ensures (published, r) == Run(Steps(cfds, kind, select), walletOk)
  {
    published := [];
    var i := 0;
    PassStarts(cfds, kind, select, walletOk);
    while i < |cfds|
      invariant 0 <= i <= |cfds|
      invariant PassSoFar(cfds, i, kind, select, walletOk, published)
    {
      var picked := select(cfds[i]);
      if picked.Some? && (picked.value.Err? || !walletOk(picked.value.value)) {
        r := Err(if picked.value.Err? then picked.value.error else "broadcast failed");
        PassStops(cfds, i, kind, select, walletOk, published);
        return;
      }
      PassAdvances(cfds, i, kind, select, walletOk, published);
      if picked.Some? {
        published := published + [Broadcast(kind, picked.value.value)];
      }
      i := i + 1;
    }
    PassEnds(cfds, kind, select, walletOk, published);
    r := Ok(());
  }

  /** What a pass has published before CFD `i`, followed by what the rest of the pass publishes, is what the whole pass publishes. */
  predicate PassSoFar(cfds: seq<Cfd>, i: nat, kind: TxKind, select: Cfd -> Option<Result<Tx>>, walletOk: Tx -> bool, published: seq<Broadcast>)
    requires i <= |cfds|
  {
    var whole := Run(Steps(cfds, kind, select), walletOk);
    var rest := Run(Steps(cfds[i..], kind, select), walletOk);
    whole == (published + rest.0, rest.1)
  }

  lemma PassStarts(cfds: seq<Cfd>, kind: TxKind, select: Cfd -> Option<Result<Tx>>, walletOk: Tx -> bool)
    ensures PassSoFar(cfds, 0, kind, select, walletOk, [])
  {
    assert cfds[0..] == cfds;
    assert [] + Run(Steps(cfds, kind, select), walletOk).0 == Run(Steps(cfds, kind, select), walletOk).0;
  }

  lemma PassAdvances(cfds: seq<Cfd>, i: nat, kind: TxKind, select: Cfd -> Option<Result<Tx>>, walletOk: Tx -> bool, published: seq<Broadcast>)
    requires i < |cfds| && PassSoFar(cfds, i, kind, select, walletOk, published)
    requires select(cfds[i]).Some? ==> select(cfds[i]).value.Ok? && walletOk(select(cfds[i]).value.value)
    ensures select(cfds[i]).None? ==> PassSoFar(cfds, i + 1, kind, select, walletOk, published)
    ensures select(cfds[i]).Some? ==>
              PassSoFar(cfds, i + 1, kind, select, walletOk, published + [Broadcast(kind, select(cfds[i]).value.value)])
  {
    PassStep(cfds, i, kind, select, walletOk);
    var rest := Run(Steps(cfds[i + 1..], kind, select), walletOk).0;
    if select(cfds[i]).Some? {
      var b := Broadcast(kind, select(cfds[i]).value.value);
      assert published + ([b] + rest) == (published + [b]) + rest;
    }
  }

  lemma PassStops(cfds: seq<Cfd>, i: nat, kind: TxKind, select: Cfd -> Option<Result<Tx>>, walletOk: Tx -> bool, published: seq<Broadcast>)
    requires i < |cfds| && PassSoFar(cfds, i, kind, select, walletOk, published)
    requires select(cfds[i]).Some? && (select(cfds[i]).value.Err? || !walletOk(select(cfds[i]).value.value))
    ensures Run(Steps(cfds, kind, select), walletOk)
            == (published, Err(if select(cfds[i]).value.Err? then select(cfds[i]).value.error else "broadcast failed"))
  {
    PassStep(cfds, i, kind, select, walletOk);
    assert published + [] == published;
  }

  lemma PassEnds(cfds: seq<Cfd>, kind: TxKind, select: Cfd -> Option<Result<Tx>>, walletOk: Tx -> bool, published: seq<Broadcast>)
    requires PassSoFar(cfds, |cfds|, kind, select, walletOk, published)
    ensures Run(Steps(cfds, kind, select), walletOk) == (published, Ok(()))
  {
    assert cfds[|cfds|..] == [];
    assert published + [] == published;
  }

  /** What the pass does with the CFD at position `i`, in terms of the run of the remaining steps. */
  lemma PassStep(cfds: seq<Cfd>, i: nat, kind: TxKind, select: Cfd -> Option<Result<Tx>>, walletOk: Tx -> bool)
    requires i < |cfds|
    ensures var here := Run(Steps(cfds[i..], kind, select), walletOk);
            var rest := Run(Steps(cfds[i + 1..], kind, select), walletOk);
            var picked := select(cfds[i]);
            && (picked.None? ==> here == rest)
            && (picked.Some? && picked.value.Err? ==> here == ([], Err(picked.value.error)))
            && (picked.Some? && picked.value.Ok? && walletOk(picked.value.value) ==>
                  here == ([Broadcast(kind, picked.value.value)] + rest.0, rest.1))
            && (picked.Some? && picked.value.Ok? && !walletOk(picked.value.value) ==>
                  here == ([], Err("broadcast failed")))
  {
    StepsUnfold(cfds, i, kind, select);
    var rest := Steps(cfds[i + 1..], kind, select);
    match select(cfds[i]) {
      case None =>
        assert Steps(cfds[i..], kind, select) == rest;
      case Some(built) =>
        var plan := [Step(kind, built)] + rest;
        assert Steps(cfds[i..], kind, select) == plan;
        assert plan[1..] == rest;
    }
  }

  /** Running two plans one after the other is running their concatenation. */
  lemma {:induction false} RunAppend(a: seq<Step>, b: seq<Step>, walletOk: Tx -> bool)
    ensures Run(a, walletOk).1.Ok? ==> Run(a + b, walletOk).0 == Run(a, walletOk).0 + Run(b, walletOk).0
    ensures Run(a, walletOk).1.Ok? ==> Run(a + b, walletOk).1 == Run(b, walletOk).1
    ensures Run(a, walletOk).1.Err? ==> Run(a + b, walletOk) == Run(a, walletOk)
  {
    if |a| == 0 {
      assert a + b == b;
      assert [] + Run(b, walletOk).0 == Run(b, walletOk).0;
    } else {
      assert (a + b)[1..] == a[1..] + b;
      RunAppend(a[1..], b, walletOk);
      if a[0].tx.Ok? && walletOk(a[0].tx.value) {
        var x := Broadcast(a[0].kind, a[0].tx.value);
        assert [x] + Run(a[1..], walletOk).0 + Run(b, walletOk).0 == [x] + (Run(a[1..], walletOk).0 + Run(b, walletOk).0);
      }
    }
  }

  lemma StepsUnfold(cfds: seq<Cfd>, i: nat, kind: TxKind, select: Cfd -> Option<Result<Tx>>)
    requires i < |cfds|
    ensures Steps(cfds[i..], kind, select) ==
            (match select(cfds[i]) case None => [] case Some(tx) => [Step(kind, tx)])
            + Steps(cfds[i + 1..], kind, select)
  {
    assert cfds[i..][1..] == cfds[i + 1..];
  }

  // ---------------------------------------------------------------------------
  // What rebroadcasting publishes

  function Rank(kind: TxKind): nat
  {
    match kind
    case LockKind => 0
    case RefundKind => 1
    case CommitKind => 2
  }

  /** The run publishes transactions from the plan, in plan order. */
  lemma {:induction false} RunPublishesPlannedTxs(plan: seq<Step>, walletOk: Tx -> bool)
    ensures forall b :: b in Run(plan, walletOk).0 ==> Step(b.kind, Ok(b.tx)) in plan && walletOk(b.tx)
  {
    if |plan| > 0 && plan[0].tx.Ok? && walletOk(plan[0].tx.value) {
      RunPublishesPlannedTxs(plan[1..], walletOk);
    }
  }

  /** Every lock transaction comes before any refund transaction, and every refund transaction before any commit transaction. */
  predicate KindOrdered(kinds: seq<TxKind>)
  {
    forall i, j :: 0 <= i < j < |kinds| ==> Rank(kinds[i]) <= Rank(kinds[j])
  }

  /** The kinds of a sequence of planned steps or of published transactions, in order. */
  function Kinds<T>(xs: seq<T>, kindOf: T -> TxKind): (r: seq<TxKind>)
    ensures |r| == |xs| && forall k :: 0 <= k < |xs| ==> r[k] == kindOf(xs[k])
  {
    seq(|xs|, k requires 0 <= k < |xs| => kindOf(xs[k]))
  }

  function StepKind(s: Step): TxKind { s.kind }

  function BroadcastKind(b: Broadcast): TxKind { b.kind }

  function PlanKinds(plan: seq<Step>): seq<TxKind>
  {
    Kinds(plan, StepKind)
  }

  function PublishedKinds(published: seq<Broadcast>): seq<TxKind>
  {
    Kinds(published, BroadcastKind)
  }

  /** A plan ordered by kind gives a publication order ordered by kind. */
  lemma {:induction false} RunKeepsKindOrder(plan: seq<Step>, walletOk: Tx -> bool)
    requires KindOrdered(PlanKinds(plan))
    ensures KindOrdered(PublishedKinds(Run(plan, walletOk).0))
  {
    if |plan| > 0 && plan[0].tx.Ok? && walletOk(plan[0].tx.value) {
      PlanTailOrdered(plan);
      RunKeepsKindOrder(plan[1..], walletOk);
      HeadRanksFirst(plan, walletOk);
      var rest := Run(plan[1..], walletOk).0;
      assert Run(plan, walletOk).0 == [Broadcast(plan[0].kind, plan[0].tx.value)] + rest;
      ConsKindOrdered(Broadcast(plan[0].kind, plan[0].tx.value), rest);
    }
  }

  /** The rest of a plan ordered by kind is ordered by kind. */
  lemma PlanTailOrdered(plan: seq<Step>)
    requires |plan| > 0 && KindOrdered(PlanKinds(plan))
    ensures KindOrdered(PlanKinds(plan[1..]))
  {
    forall i, j | 0 <= i < j < |plan[1..]|
      ensures Rank(PlanKinds(plan[1..])[i]) <= Rank(PlanKinds(plan[1..])[j])
    {
      assert PlanKinds(plan)[i + 1] == plan[1..][i].kind;
      assert PlanKinds(plan)[j + 1] == plan[1..][j].kind;
    }
  }

  /** In a plan ordered by kind, everything the rest of the run publishes ranks at least as high as the first step. */
  lemma HeadRanksFirst(plan: seq<Step>, walletOk: Tx -> bool)
    requires |plan| > 0 && KindOrdered(PlanKinds(plan))
    ensures forall j :: 0 <= j < |Run(plan[1..], walletOk).0| ==> Rank(plan[0].kind) <= Rank(Run(plan[1..], walletOk).0[j].kind)
  {
    RunPublishesPlannedTxs(plan[1..], walletOk);
    var rest := Run(plan[1..], walletOk).0;
    forall j | 0 <= j < |rest|
      ensures Rank(plan[0].kind) <= Rank(rest[j].kind)
    {
      assert rest[j] in rest;
      var k :| 0 <= k < |plan[1..]| && plan[1..][k] == Step(rest[j].kind, Ok(rest[j].tx));
      assert plan[k + 1] == plan[1..][k];
      assert PlanKinds(plan)[0] == plan[0].kind;
      assert PlanKinds(plan)[k + 1] == plan[k + 1].kind;
    }
  }

  /** Putting a broadcast that ranks lowest in front of an ordered publication keeps it ordered. */
  lemma ConsKindOrdered(b: Broadcast, rest: seq<Broadcast>)
    requires KindOrdered(PublishedKinds(rest))
    requires forall j :: 0 <= j < |rest| ==> Rank(b.kind) <= Rank(rest[j].kind)
    ensures KindOrdered(PublishedKinds([b] + rest))
  {
    var published := [b] + rest;
    var restKinds := PublishedKinds(rest);
    forall i, j | 0 <= i < j < |published|
      ensures Rank(PublishedKinds(published)[i]) <= Rank(PublishedKinds(published)[j])
    {
      assert published[j] == rest[j - 1];
      if i > 0 {
        assert published[i] == rest[i - 1];
        assert Rank(restKinds[i - 1]) <= Rank(restKinds[j - 1]);
      }
    }
  }


  /**
   * Rebroadcasting publishes every lock transaction before any refund
   * transaction, and every refund transaction before any commit transaction.
   */
  lemma RebroadcastOrder(
    cfds: seq<Cfd>, pendingOpenDlc: Cfd -> Option<Dlc>,
    isMustRefund: Cfd -> bool, refundTx: Cfd -> Result<Tx>,
    isPendingCommit: Cfd -> bool, commitTx: Cfd -> Result<Tx>, walletOk: Tx -> bool)
    ensures KindOrdered(PublishedKinds(Run(RebroadcastPlan(cfds, pendingOpenDlc, isMustRefund, refundTx,
                                                           isPendingCommit, commitTx), walletOk).0))
  {
    var locks := Steps(cfds, LockKind, LockTx(pendingOpenDlc));
    var refunds := Steps(cfds, RefundKind, BuiltTx(isMustRefund, refundTx));
    var commits := Steps(cfds, CommitKind, BuiltTx(isPendingCommit, commitTx));
    var plan := locks + refunds + commits;
    forall i, j | 0 <= i < j < |plan|
      ensures Rank(PlanKinds(plan)[i]) <= Rank(PlanKinds(plan)[j])
    {
      if i < |locks| {
        assert plan[i] == locks[i];
      } else if i < |locks| + |refunds| {
        assert plan[i] == refunds[i - |locks|];
        if j < |locks| + |refunds| {
          assert plan[j] == refunds[j - |locks|];
        } else {
          assert plan[j] == commits[j - |locks| - |refunds|];
        }
      } else {
        assert plan[i] == commits[i - |locks| - |refunds|];
        assert plan[j] == commits[j - |locks| - |refunds|];
      }
    }
    RunKeepsKindOrder(plan, walletOk);
  }

  /** A step of a pass comes from a CFD its selector picks. */
  lemma {:induction false} StepsFromSelected(cfds: seq<Cfd>, kind: TxKind, select: Cfd -> Option<Result<Tx>>, s: Step)
    requires s in Steps(cfds, kind, select)
    ensures s.kind == kind && exists c :: c in cfds && select(c) == Some(s.tx)
  {
    if select(cfds[0]).Some? && s == Step(kind, select(cfds[0]).value) {
      assert cfds[0] in cfds;
    } else {
      assert s in Steps(cfds[1..], kind, select);
      StepsFromSelected(cfds[1..], kind, select, s);
      var c :| c in cfds[1..] && select(c) == Some(s.tx);
      assert c in cfds;
    }
  }

  /**
   * Only qualifying CFDs are covered: a published lock transaction is the lock
   * transaction of a pending-open DLC, a published refund transaction was built
   * for a CFD that must refund, and a published commit transaction for a CFD
   * pending commit.
   */
  lemma RebroadcastCoversOnlySelected(
    cfds: seq<Cfd>, pendingOpenDlc: Cfd -> Option<Dlc>,
    isMustRefund: Cfd -> bool, refundTx: Cfd -> Result<Tx>,
    isPendingCommit: Cfd -> bool, commitTx: Cfd -> Result<Tx>, walletOk: Tx -> bool, b: Broadcast)
    requires b in Run(RebroadcastPlan(cfds, pendingOpenDlc, isMustRefund, refundTx,
                                      isPendingCommit, commitTx), walletOk).0
    ensures walletOk(b.tx)
    ensures b.kind == LockKind ==> exists c :: c in cfds && pendingOpenDlc(c).Some? && pendingOpenDlc(c).value.lockTx == b.tx
    ensures b.kind == RefundKind ==> exists c :: c in cfds && isMustRefund(c) && refundTx(c) == Ok(b.tx)
    ensures b.kind == CommitKind ==> exists c :: c in cfds && isPendingCommit(c) && commitTx(c) == Ok(b.tx)
  {
    var locks := Steps(cfds, LockKind, LockTx(pendingOpenDlc));
    var refunds := Steps(cfds, RefundKind, BuiltTx(isMustRefund, refundTx));
    var commits := Steps(cfds, CommitKind, BuiltTx(isPendingCommit, commitTx));
    RunPublishesPlannedTxs(locks + refunds + commits, walletOk);
    var s := Step(b.kind, Ok(b.tx));
    if s in locks {
      StepsFromSelected(cfds, LockKind, LockTx(pendingOpenDlc), s);
      var c :| c in cfds && LockTx(pendingOpenDlc)(c) == Some(s.tx);
    } else if s in refunds {
      StepsFromSelected(cfds, RefundKind, BuiltTx(isMustRefund, refundTx), s);
    } else {
      assert s in commits;
      StepsFromSelected(cfds, CommitKind, BuiltTx(isPendingCommit, commitTx), s);
    }
  }

  /** The pass succeeds exactly when every planned transaction is built and accepted, and then all are published. */
  lemma {:induction false} RunSucceedsIffAllPublished(plan: seq<Step>, walletOk: Tx -> bool)
    ensures Run(plan, walletOk).1.Ok? <==>
            forall k :: 0 <= k < |plan| ==> plan[k].tx.Ok? && walletOk(plan[k].tx.value)
    ensures Run(plan, walletOk).1.Ok? ==> |Run(plan, walletOk).0| == |plan|
  {
    if |plan| > 0 {
      RunSucceedsIffAllPublished(plan[1..], walletOk);
      if plan[0].tx.Ok? && walletOk(plan[0].tx.value) {
        assert forall k :: 1 <= k < |plan| ==> plan[k] == plan[1..][k - 1];
      }
    }
  }
}
