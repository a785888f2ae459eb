/**
 * The position-metrics read model: a CFD is rehydrated from its event log
 * into four status flags (open, closed, failed, refunded), and every update
 * cycle counts and sums the CFDs per status and position.
 */
module PositionMetrics {
  import opened Common
  import opened CfdEvents

  const U32_LIMIT: int := 0x1_0000_0000

  newtype u32 = x: int | 0 <= x < 0x1_0000_0000

  /** The read model of one CFD. */
  datatype Cfd = Cfd(
    position: Position,
    quantityUsd: int,
    isOpen: bool,
    isClosed: bool,
    isFailed: bool,
    isRefunded: bool,
    version: u32)

  /** A fresh read model: no status yet, no event applied. */
  function New(position: Position, quantityUsd: int): (c: Cfd)
    ensures c.position == position && c.quantityUsd == quantityUsd
    ensures !c.isOpen && !c.isClosed && !c.isFailed && !c.isRefunded
    ensures c.version == 0
  {
    Cfd(position, quantityUsd, false, false, false, false, 0)
  }

  /** A CFD loaded from the closed table: closed, never open, with its contracts as quantity. */
  function NewClosed(position: Position, nContracts: nat): (c: Cfd)
    ensures c.position == position && c.quantityUsd == nContracts
    ensures c.isClosed && !c.isOpen && !c.isFailed && !c.isRefunded
    ensures c.version == 0
  {
    Cfd(position, nContracts, false, true, false, false, 0)
  }

  // ---------------------------------------------------------------------------
  // Event categories, as the read model sees them

  predicate Resets(k: EventKind)
  {
    k.ContractSetupStarted?
  }

  predicate Opens(k: EventKind)
  {
    k.ContractSetupCompleted? || k.LockConfirmed? || k.LockConfirmedAfterFinality?
  }

  predicate FailsSetup(k: EventKind)
  {
    k.ContractSetupFailed? || k.OfferRejected?
  }

  predicate Closes(k: EventKind)
  {
    || k.CollaborativeSettlementCompleted? || k.CollaborativeSettlementConfirmed?
    || k.CetConfirmed? || k.RevokeConfirmed?
    || k.CetTimelockExpiredPriorOracleAttestation? || k.CetTimelockExpiredPostOracleAttestation?
    || k.RefundTimelockExpired?
    || k.OracleAttestedPriorCetTimelock? || k.OracleAttestedPostCetTimelock?
  }

  predicate Refunds(k: EventKind)
  {
    k.RefundConfirmed?
  }

  /** Events that leave every flag as it is: rollover, non-final settlement steps, commits. */
  predicate Neutral(k: EventKind)
  {
    || k.RolloverStarted? || k.RolloverAccepted? || k.RolloverRejected? || k.RolloverCompleted? || k.RolloverFailed?
    || k.CollaborativeSettlementStarted? || k.CollaborativeSettlementProposalAccepted?
    || k.CollaborativeSettlementRejected? || k.CollaborativeSettlementFailed?
    || k.ManualCommit? || k.CommitConfirmed?
  }

  /** Every event kind falls into exactly one category. */
  lemma CategoriesPartition(k: EventKind)
    ensures Resets(k) || Opens(k) || FailsSetup(k) || Closes(k) || Refunds(k) || Neutral(k)
    ensures !(Resets(k) && (Opens(k) || FailsSetup(k) || Closes(k) || Refunds(k) || Neutral(k)))
    ensures !(Opens(k) && (FailsSetup(k) || Closes(k) || Refunds(k) || Neutral(k)))
    ensures !(FailsSetup(k) && (Closes(k) || Refunds(k) || Neutral(k)))
    ensures !(Closes(k) && (Refunds(k) || Neutral(k)))
    ensures !(Refunds(k) && Neutral(k))
  {
  }

  // ---------------------------------------------------------------------------
  // Applying events

  /** The version after one more event: a u32 increment, wrapping as a release build does. */
  function NextVersion(v: u32): (r: u32)
    ensures r as int == (v as int + 1) % U32_LIMIT
  {
    if v as int + 1 == U32_LIMIT then 0 else v + 1
  }

  /** `Cfd::apply`: one event moves the flags and bumps the version. */
  function Apply(c: Cfd, e: CfdEvent): (r: Cfd)
    ensures r.position == c.position && r.quantityUsd == c.quantityUsd
    ensures r.version as int == (c.version as int + 1) % U32_LIMIT
  {
    var c := c.(version := NextVersion(c.version));
    match e.event
    case ContractSetupStarted =>
      c.(isOpen := false, isClosed := false, isFailed := false, isRefunded := false)
    case ContractSetupCompleted(_) => c.(isOpen := true)
    case LockConfirmed => c.(isOpen := true)
    case LockConfirmedAfterFinality => c.(isOpen := true)
    case ContractSetupFailed => c.(isFailed := true)
    case OfferRejected => c.(isFailed := true)
    case RolloverStarted => c
    case RolloverAccepted => c
    case RolloverRejected => c
    case RolloverCompleted(_) => c
    case RolloverFailed => c
    case CollaborativeSettlementStarted => c
    case CollaborativeSettlementProposalAccepted => c
    case CollaborativeSettlementRejected => c
    case CollaborativeSettlementFailed => c
    case CollaborativeSettlementCompleted(_, _) => c.(isOpen := false, isClosed := true)
    case ManualCommit(_) => c
    case CommitConfirmed => c
    case CetConfirmed => c.(isOpen := false, isClosed := true)
    case RefundConfirmed => c.(isOpen := false, isRefunded := true)
    case RevokeConfirmed => c.(isOpen := false, isClosed := true)
    case CollaborativeSettlementConfirmed => c.(isOpen := false, isClosed := true)
    case CetTimelockExpiredPriorOracleAttestation => c.(isOpen := false, isClosed := true)
    case CetTimelockExpiredPostOracleAttestation(_) => c.(isOpen := false, isClosed := true)
    case RefundTimelockExpired(_) => c.(isOpen := false, isClosed := true)
    case OracleAttestedPriorCetTimelock(_, _) => c.(isOpen := false, isClosed := true)
    case OracleAttestedPostCetTimelock(_) => c.(isOpen := false, isClosed := true)
  }

  /** The effect of each category of event on the four flags. */
  lemma ApplyByCategory(c: Cfd, e: CfdEvent)
    ensures var r := Apply(c, e);
            && (Resets(e.event) ==> !r.isOpen && !r.isClosed && !r.isFailed && !r.isRefunded)
            && (Opens(e.event) ==> r.isOpen && r.isClosed == c.isClosed && r.isFailed == c.isFailed && r.isRefunded == c.isRefunded)
            && (FailsSetup(e.event) ==> r.isFailed && r.isOpen == c.isOpen && r.isClosed == c.isClosed && r.isRefunded == c.isRefunded)
            && (Closes(e.event) ==> !r.isOpen && r.isClosed && r.isFailed == c.isFailed && r.isRefunded == c.isRefunded)
            && (Refunds(e.event) ==> !r.isOpen && r.isRefunded && r.isClosed == c.isClosed && r.isFailed == c.isFailed)
            && (Neutral(e.event) ==> r == c.(version := r.version))
  {
  }

  /** Rehydration: the events folded over a read model, oldest first. */
  function Fold(c: Cfd, events: seq<CfdEvent>): Cfd
  {
    if |events| == 0 then c else Apply(Fold(c, events[..|events| - 1]), events[|events| - 1])
  }

  /** Every event bumps the version by one, modulo 2^32. */
  lemma {:induction false} FoldVersion(c: Cfd, events: seq<CfdEvent>)
    ensures Fold(c, events).version as int == (c.version as int + |events|) % U32_LIMIT
    ensures Fold(c, events).position == c.position && Fold(c, events).quantityUsd == c.quantityUsd
  {
    if |events| > 0 {
      FoldVersion(c, events[..|events| - 1]);
    }
  }

  /** A CFD rehydrated from fewer than 2^32 events has the number of its events as version. */
  lemma RehydratedVersion(position: Position, quantityUsd: int, events: seq<CfdEvent>)
    requires |events| < U32_LIMIT
    ensures Fold(New(position, quantityUsd), events).version as int == |events|
  {
    FoldVersion(New(position, quantityUsd), events);
  }

  /** Folding a concatenation folds the first part, then the second. */
  lemma {:induction false} FoldAppend(c: Cfd, xs: seq<CfdEvent>, ys: seq<CfdEvent>)
    ensures Fold(c, xs + ys) == Fold(Fold(c, xs), ys)
    decreases |ys|
  {
    if |ys| == 0 {
      assert xs + ys == xs;
    } else {
      var n := |ys| - 1;
      assert (xs + ys)[..|xs + ys| - 1] == xs + ys[..n];
      FoldAppend(c, xs, ys[..n]);
    }
  }

  // ---------------------------------------------------------------------------
  // What each flag means after a whole log

  /** Some event of the log sets the flag and no later event clears it. */
  predicate SetLastly(events: seq<CfdEvent>, sets: EventKind -> bool, clears: EventKind -> bool)
  {
    exists i :: 0 <= i < |events| && sets(events[i].event) && NotClearedAfter(events, clears, i)
  }

  predicate NotClearedAfter(events: seq<CfdEvent>, clears: EventKind -> bool, i: int)
  {
    forall j :: 0 <= j < |events| && i < j ==> !clears(events[j].event)
  }

  /**
   * For a flag that `sets` raises, `clears` lowers and every other event
   * leaves alone: the flag holds after the log exactly when some event raised
   * it and nothing lowered it since, or it held before and nothing lowered it.
   */
  lemma {:induction false} FlagAfterFold(c: Cfd, events: seq<CfdEvent>, flag: Cfd -> bool, sets: EventKind -> bool, clears: EventKind -> bool)
    requires forall d, e :: flag(Apply(d, e)) == (sets(e.event) || (!clears(e.event) && flag(d)))
    ensures flag(Fold(c, events)) <==> SetLastly(events, sets, clears) || (flag(c) && NotClearedAfter(events, clears, -1))
  {
    if |events| > 0 {
      var n := |events| - 1;
      var init := events[..n];
      FlagAfterFold(c, init, flag, sets, clears);
      assert Fold(c, events) == Apply(Fold(c, init), events[n]);
      if sets(events[n].event) {
        assert NotClearedAfter(events, clears, n);
      } else if clears(events[n].event) {
        LastClears(events, sets, clears);
      } else {
        LastNeutral(events, sets, clears);
      }
    }
  }

  /** A lowering event at the end of the log that does not also raise the flag leaves nothing raised. */
  lemma LastClears(events: seq<CfdEvent>, sets: EventKind -> bool, clears: EventKind -> bool)
    requires |events| > 0
    requires !sets(events[|events| - 1].event) && clears(events[|events| - 1].event)
    ensures !SetLastly(events, sets, clears) && !NotClearedAfter(events, clears, -1)
  {
    var n := |events| - 1;
    assert !NotClearedAfter(events, clears, -1);
    forall i | 0 <= i < n ensures !NotClearedAfter(events, clears, i) {
      assert i < n;
    }
  }

  /** An event at the end of the log that neither raises nor lowers the flag leaves both conditions as they were. */
  lemma LastNeutral(events: seq<CfdEvent>, sets: EventKind -> bool, clears: EventKind -> bool)
    requires |events| > 0
    requires !sets(events[|events| - 1].event) && !clears(events[|events| - 1].event)
    ensures SetLastly(events, sets, clears) == SetLastly(events[..|events| - 1], sets, clears)
    ensures NotClearedAfter(events, clears, -1) == NotClearedAfter(events[..|events| - 1], clears, -1)
  {
    var n := |events| - 1;
    var init := events[..n];
    if SetLastly(init, sets, clears) {
      var i :| 0 <= i < |init| && sets(init[i].event) && NotClearedAfter(init, clears, i);
      assert events[i] == init[i];
      assert NotClearedAfter(events, clears, i);
    }
    if SetLastly(events, sets, clears) {
      var i :| 0 <= i < |events| && sets(events[i].event) && NotClearedAfter(events, clears, i);
      assert i < n;
      assert sets(init[i].event) && NotClearedAfter(init, clears, i);
    }
    if NotClearedAfter(init, clears, -1) {
      assert NotClearedAfter(events, clears, -1);
    }
  }

  predicate IsOpen(c: Cfd) { c.isOpen }
  predicate IsClosed(c: Cfd) { c.isClosed }
  predicate IsFailed(c: Cfd) { c.isFailed }
  predicate IsRefunded(c: Cfd) { c.isRefunded }

  predicate EndsOpen(k: EventKind) { Resets(k) || Closes(k) || Refunds(k) }

  /**
   * A rehydrated CFD is open exactly when an opening event has not been
   * followed by a setup restart, a closing event or a refund; closed, failed
   * and refunded exactly when such an event has not been followed by a setup
   * restart.
   */
  lemma RehydratedFlags(position: Position, quantityUsd: int, events: seq<CfdEvent>)
    ensures var c := Fold(New(position, quantityUsd), events);
            && (c.isOpen <==> SetLastly(events, Opens, EndsOpen))
            && (c.isClosed <==> SetLastly(events, Closes, Resets))
            && (c.isFailed <==> SetLastly(events, FailsSetup, Resets))
            && (c.isRefunded <==> SetLastly(events, Refunds, Resets))
  {
    var c0 := New(position, quantityUsd);
    forall d, e ensures IsOpen(Apply(d, e)) == (Opens(e.event) || (!EndsOpen(e.event) && IsOpen(d))) {
      CategoriesPartition(e.event);
      ApplyByCategory(d, e);
    }
    FlagAfterFold(c0, events, IsOpen, Opens, EndsOpen);
    forall d, e ensures IsClosed(Apply(d, e)) == (Closes(e.event) || (!Resets(e.event) && IsClosed(d))) {
      CategoriesPartition(e.event);
      ApplyByCategory(d, e);
    }
    FlagAfterFold(c0, events, IsClosed, Closes, Resets);
    forall d, e ensures IsFailed(Apply(d, e)) == (FailsSetup(e.event) || (!Resets(e.event) && IsFailed(d))) {
      CategoriesPartition(e.event);
      ApplyByCategory(d, e);
    }
    FlagAfterFold(c0, events, IsFailed, FailsSetup, Resets);
    forall d, e ensures IsRefunded(Apply(d, e)) == (Refunds(e.event) || (!Resets(e.event) && IsRefunded(d))) {
      CategoriesPartition(e.event);
      ApplyByCategory(d, e);
    }
    FlagAfterFold(c0, events, IsRefunded, Refunds, Resets);
  }

  // ---------------------------------------------------------------------------
  // Metrics

  datatype Status = Open | Closed | FailedStatus | Refunded

  predicate HasStatus(c: Cfd, s: Status)
  {
    match s
    case Open => c.isOpen
    case Closed => c.isClosed
    case FailedStatus => c.isFailed
    case Refunded => c.isRefunded
  }

  /** One pair of gauges: the total quantity and the number of positions. */
  datatype Gauge = Gauge(quantity: int, count: nat)

  /** `sum_amounts`: the total quantity of the CFDs. */
  function SumAmounts(cfds: seq<Cfd>): int
  {
    if |cfds| == 0 then 0 else cfds[|cfds| - 1].quantityUsd + SumAmounts(cfds[..|cfds| - 1])
  }

  lemma {:induction false} SumAmountsAppend(xs: seq<Cfd>, ys: seq<Cfd>)
    ensures SumAmounts(xs + ys) == SumAmounts(xs) + SumAmounts(ys)
    decreases |ys|
  {
    if |ys| == 0 {
      assert xs + ys == xs;
    } else {
      var n := |ys| - 1;
      assert (xs + ys)[..|xs + ys| - 1] == xs + ys[..n];
      SumAmountsAppend(xs, ys[..n]);
    }
  }

  /** The CFDs with a status and a position, in order. */
  function Select(cfds: seq<Cfd>, s: Status, p: Position): seq<Cfd>
  {
    if |cfds| == 0 then []
    else
      var init := Select(cfds[..|cfds| - 1], s, p);
      var c := cfds[|cfds| - 1];
      if HasStatus(c, s) && c.position == p then init + [c] else init
  }

  function WithStatus(cfds: seq<Cfd>, s: Status): seq<Cfd>
  {
    if |cfds| == 0 then []
    else
      var init := WithStatus(cfds[..|cfds| - 1], s);
      var c := cfds[|cfds| - 1];
      if HasStatus(c, s) then init + [c] else init
  }

  function GaugeOf(cfds: seq<Cfd>): Gauge
  {
    Gauge(SumAmounts(cfds), |cfds|)
  }

  /** The gauges of one status: long and short positions. */
  datatype PositionGauges = PositionGauges(long: Gauge, short: Gauge)

  /** The gauges of all four statuses. */
  datatype Metrics = Metrics(open: PositionGauges, closed: PositionGauges, failed: PositionGauges, refunded: PositionGauges)

  function ForStatus(m: Metrics, s: Status): PositionGauges
  {
    match s
    case Open => m.open
    case Closed => m.closed
    case FailedStatus => m.failed
    case Refunded => m.refunded
  }

  function ForPosition(g: PositionGauges, p: Position): Gauge
  {
    if p == Long then g.long else g.short
  }

  /** `set_position_metrics`: the CFDs of one status partitioned into long and short, each counted and summed. */
  function SetPositionMetrics(cfds: seq<Cfd>, s: Status): PositionGauges
  {
    PositionGauges(GaugeOf(Select(cfds, s, Long)), GaugeOf(Select(cfds, s, Short)))
  }

  /** `update_position_metrics`: the gauges for every status and position. */
  function UpdatePositionMetrics(cfds: seq<Cfd>): (r: Metrics)
    ensures forall s: Status, p: Position ::
              ForPosition(ForStatus(r, s), p) == Gauge(SumAmounts(Select(cfds, s, p)), |Select(cfds, s, p)|)
  {
    Metrics(SetPositionMetrics(cfds, Open), SetPositionMetrics(cfds, Closed),
            SetPositionMetrics(cfds, FailedStatus), SetPositionMetrics(cfds, Refunded))
  }

  /**
   * For every status, the long and the short gauges split the CFDs with that
   * status: the counts add up to their number and the quantities to their
   * total quantity.
   */
  lemma {:induction false} PartitionAddsUp(cfds: seq<Cfd>, s: Status)
    ensures |Select(cfds, s, Long)| + |Select(cfds, s, Short)| == |WithStatus(cfds, s)|
    ensures SumAmounts(Select(cfds, s, Long)) + SumAmounts(Select(cfds, s, Short)) == SumAmounts(WithStatus(cfds, s))
  {
    if |cfds| > 0 {
      var init := cfds[..|cfds| - 1];
      var c := cfds[|cfds| - 1];
      PartitionAddsUp(init, s);
      if HasStatus(c, s) {
        SumAmountsAppend(WithStatus(init, s), [c]);
        if c.position == Long {
          SumAmountsAppend(Select(init, s, Long), [c]);
        } else {
          SumAmountsAppend(Select(init, s, Short), [c]);
        }
      }
    }
  }

  /** The gauges of `UpdatePositionMetrics` count and sum exactly the CFDs with each status. */
  lemma MetricsAddUp(cfds: seq<Cfd>, s: Status)
    ensures var g := ForStatus(UpdatePositionMetrics(cfds), s);
            && g.long.count + g.short.count == |WithStatus(cfds, s)|
            && g.long.quantity + g.short.quantity == SumAmounts(WithStatus(cfds, s))
  {
    PartitionAddsUp(cfds, s);
  }

  /** `Select` is the filter by the status and the position: it keeps the CFDs it selects in their order. */
  lemma {:induction false} SelectIsFilter(cfds: seq<Cfd>, s: Status, p: Position)
    ensures Select(cfds, s, p) == Filter(cfds, (c: Cfd) => HasStatus(c, s) && c.position == p)
  {
    if |cfds| > 0 {
      var init := cfds[..|cfds| - 1];
      SplitLast(cfds);
      SelectIsFilter(init, s, p);
      FilterSnoc(init, cfds[|cfds| - 1], (c: Cfd) => HasStatus(c, s) && c.position == p);
    }
  }

  /** `Select` keeps every copy of a CFD with the status and the position, and no copy of any other. */
  lemma SelectCounts(cfds: seq<Cfd>, s: Status, p: Position)
    ensures forall c :: multiset(Select(cfds, s, p))[c] ==
              if HasStatus(c, s) && c.position == p then multiset(cfds)[c] else 0
  {
    var f := (c: Cfd) => HasStatus(c, s) && c.position == p;
    SelectIsFilter(cfds, s, p);
    forall c
      ensures multiset(Filter(cfds, f))[c] == if f(c) then multiset(cfds)[c] else 0
    {
      FilterCount(cfds, f, c);
    }
  }

  /** `WithStatus` is the filter by the status: it keeps the CFDs it selects in their order. */
  lemma {:induction false} WithStatusIsFilter(cfds: seq<Cfd>, s: Status)
    ensures WithStatus(cfds, s) == Filter(cfds, (c: Cfd) => HasStatus(c, s))
  {
    if |cfds| > 0 {
      var init := cfds[..|cfds| - 1];
      SplitLast(cfds);
      WithStatusIsFilter(init, s);
      FilterSnoc(init, cfds[|cfds| - 1], (c: Cfd) => HasStatus(c, s));
    }
  }

  /** `WithStatus` keeps every copy of a CFD with the status, and no copy of any other. */
  lemma WithStatusCounts(cfds: seq<Cfd>, s: Status)
    ensures forall c :: multiset(WithStatus(cfds, s))[c] == if HasStatus(c, s) then multiset(cfds)[c] else 0
  {
    var f := (c: Cfd) => HasStatus(c, s);
    WithStatusIsFilter(cfds, s);
    forall c
      ensures multiset(Filter(cfds, f))[c] == if f(c) then multiset(cfds)[c] else 0
    {
      FilterCount(cfds, f, c);
    }
  }

  // ---------------------------------------------------------------------------
  // The update cycle

  /** A row of the CFD stream: an open CFD with its event log, or a closed one. */
  datatype LoadedRow =
    | OpenRow(position: Position, quantityUsd: int, events: seq<CfdEvent>)
    | ClosedRow(position: Position, nContracts: nat)

  function Rehydrate(row: LoadedRow): Cfd
  {
    match row
    case OpenRow(position, quantityUsd, events) => Fold(New(position, quantityUsd), events)
    case ClosedRow(position, nContracts) => NewClosed(position, nContracts)
  }

  /** The number of rows that loaded. */
  function CountOk(rows: seq<Result<LoadedRow>>): nat
  {
    if |rows| == 0 then 0 else CountOk(rows[..|rows| - 1]) + (if rows[|rows| - 1].Ok? then 1 else 0)
  }

  /** The CFDs of the rows that loaded, in order; failed rows are skipped. */
  function Rehydrated(rows: seq<Result<LoadedRow>>): (cfds: seq<Cfd>)
    ensures |cfds| == CountOk(rows)
  {
    if |rows| == 0 then []
    else
      var init := Rehydrated(rows[..|rows| - 1]);
      match rows[|rows| - 1]
      case Ok(row) => init + [Rehydrate(row)]
      case Err(_) => init
  }

  /**
   * A failed row costs only itself: the CFD of every row that loads sits at
   * the position given by the number of loaded rows before it.
   */
  lemma {:induction false} RehydratedSkipsOnlyFailures(rows: seq<Result<LoadedRow>>)
    ensures forall i :: 0 <= i < |rows| && rows[i].Ok? ==>
              CountOk(rows[..i]) < |Rehydrated(rows)| && Rehydrated(rows)[CountOk(rows[..i])] == Rehydrate(rows[i].value)
  {
    if |rows| > 0 {
      var n := |rows| - 1;
      var init := rows[..n];
      RehydratedSkipsOnlyFailures(init);
      forall i | 0 <= i < |rows| && rows[i].Ok?
        ensures CountOk(rows[..i]) < |Rehydrated(rows)| && Rehydrated(rows)[CountOk(rows[..i])] == Rehydrate(rows[i].value)
      {
        if i < n {
          assert rows[i] == init[i] && rows[..i] == init[..i];
        }
      }
    }
  }

  /** The `k`-th CFD collected is the CFD of a row that loaded, with `k` loaded rows before it. */
  predicate CollectedFrom(rows: seq<Result<LoadedRow>>, k: nat)
    requires k < |Rehydrated(rows)|
  {
    exists i :: 0 <= i < |rows| && rows[i].Ok? && CountOk(rows[..i]) == k && Rehydrated(rows)[k] == Rehydrate(rows[i].value)
  }

  /** Every CFD collected is the CFD of a row that loaded, at the position that row's turn gives it. */
  lemma {:induction false} RehydratedOnlyLoaded(rows: seq<Result<LoadedRow>>)
    ensures forall k :: 0 <= k < |Rehydrated(rows)| ==> CollectedFrom(rows, k)
  {
    if |rows| > 0 {
      RehydratedOnlyLoaded(rows[..|rows| - 1]);
      forall k | 0 <= k < |Rehydrated(rows)|
        ensures CollectedFrom(rows, k)
      {
        var i := LoadedRowOf(rows, k);
      }
    }
  }

  /** The row that put the `k`-th collected CFD in place, given the claim for the rows before the last. */
  lemma LoadedRowOf(rows: seq<Result<LoadedRow>>, k: nat) returns (i: nat)
    requires 0 < |rows| && k < |Rehydrated(rows)|
    requires k < |Rehydrated(rows[..|rows| - 1])| ==> CollectedFrom(rows[..|rows| - 1], k)
    ensures i < |rows| && rows[i].Ok? && CountOk(rows[..i]) == k && Rehydrated(rows)[k] == Rehydrate(rows[i].value)
  {
    var n := |rows| - 1;
    var init := rows[..n];
    if k < |Rehydrated(init)| {
      i :| 0 <= i < |init| && init[i].Ok? && CountOk(init[..i]) == k && Rehydrated(init)[k] == Rehydrate(init[i].value);
      assert rows[i] == init[i] && rows[..i] == init[..i];
    } else {
      i := n;
    }
  }

  /**
   * `handle(UpdateMetrics)`: rehydrates every row of the stream, skipping the
   * ones that fail, and publishes the gauges of the CFDs it collected.
   */
  method UpdateCycle(rows: seq<Result<LoadedRow>>) returns (metrics: Metrics)
    ensures metrics == UpdatePositionMetrics(Rehydrated(rows))
  {
    var cfds: seq<Cfd> := [];
    var i := 0;
    while i < |rows|
      invariant 0 <= i <= |rows|
      invariant cfds == Rehydrated(rows[..i])
    {
      assert rows[..i + 1][..i] == rows[..i];
      if rows[i].Ok? {
        cfds := cfds + [Rehydrate(rows[i].value)];
      }
      i := i + 1;
    }
    assert rows[..i] == rows;
    metrics := UpdatePositionMetrics(cfds);
  }
}
