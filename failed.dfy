/**
 * The failed-CFD archive of the event-sourced store. A CFD whose event log
 * shows that it never reached a DLC on chain (its offer was rejected or its
 * contract setup failed) is moved, in one transaction per CFD, from the hot
 * tables (the cfd row and its events) into the archive tables (a failed row
 * and a copy of the event log).
 *
 * Tables are maps keyed by the CFD's order id. Each I/O step of the
 * transaction can fail; which ones do is a parameter (`TxFault`).
 */
module FailedArchive {
  import opened Common
  import CfdEvents

  type OrderId = CfdEvents.OrderId

  // ---------------------------------------------------------------------------
  // Kind

  /** Why a CFD failed. */
  datatype Kind = OfferRejected | ContractSetupFailed

  function KindToString(k: Kind): string
  {
    match k
    case OfferRejected => "OfferRejected"
    case ContractSetupFailed => "ContractSetupFailed"
  }

  /** Parses the text `KindToString` writes and nothing else. */
  function KindFromString(s: string): (r: Result<Kind>)
    ensures r.Ok? ==> KindToString(r.value) == s
    ensures r.Err? <==> forall k: Kind :: KindToString(k) != s
  {
    if s == "OfferRejected" then Ok(OfferRejected)
    else if s == "ContractSetupFailed" then Ok(ContractSetupFailed)
    else Err("Not a failed CFD Kind: " + s)
  }

  /** Every kind is read back as itself from the text it is stored as. */
  lemma KindRoundTrip(k: Kind)
    ensures KindFromString(KindToString(k)) == Ok(k)
  {
  }

  // ---------------------------------------------------------------------------
  // Event logs

  /** One entry of an event log: the event's name and when it was recorded. */
  datatype LogEntry = LogEntry(name: string, createdAt: int)

  /** The event log of a sequence of events: one entry per event, in order. */
  function EventLogOf(events: seq<CfdEvents.CfdEvent>): (log: seq<LogEntry>)
    ensures |log| == |events|
    ensures forall i :: 0 <= i < |events| ==>
              log[i] == LogEntry(CfdEvents.Name(events[i].event), events[i].timestamp)
  {
    if |events| == 0 then []
    else [LogEntry(CfdEvents.Name(events[0].event), events[0].timestamp)] + EventLogOf(events[1..])
  }

  const OFFER_REJECTED: string := CfdEvents.Name(CfdEvents.OfferRejected)
  const CONTRACT_SETUP_FAILED: string := CfdEvents.Name(CfdEvents.ContractSetupFailed)

  predicate Mentions(log: seq<LogEntry>, name: string)
  {
    exists i :: 0 <= i < |log| && log[i].name == name
  }

  /** The failure kind of a log: a rejected offer takes precedence over a failed setup. */
  function Classify(log: seq<LogEntry>): (r: Result<Kind>)
    ensures r == Ok(OfferRejected) <==> Mentions(log, OFFER_REJECTED)
    ensures r == Ok(ContractSetupFailed) <==> !Mentions(log, OFFER_REJECTED) && Mentions(log, CONTRACT_SETUP_FAILED)
    ensures r.Err? <==> !Mentions(log, OFFER_REJECTED) && !Mentions(log, CONTRACT_SETUP_FAILED)
  {
    if Mentions(log, OFFER_REJECTED) then Ok(OfferRejected)
    else if Mentions(log, CONTRACT_SETUP_FAILED) then Ok(ContractSetupFailed)
    else Err("Failed CFD does not have expected event")
  }

  // ---------------------------------------------------------------------------
  // Tables

  /** The fields of a hot cfd row that the archive keeps. */
  datatype CfdRow = CfdRow(
    id: OrderId,
    position: CfdEvents.Position,
    initialPrice: int,
    takerLeverage: nat,
    quantityUsd: int,
    counterparty: nat,
    role: CfdEvents.Role)

  /** A row of the archive table. */
  datatype FailedRow = FailedRow(
    id: OrderId,
    position: CfdEvents.Position,
    initialPrice: int,
    takerLeverage: nat,
    nContracts: nat,
    counterparty: nat,
    role: CfdEvents.Role,
    kind: Kind)

  /** A failed CFD as loaded from the archive. */
  datatype FailedCfd = FailedCfd(
    id: OrderId,
    position: CfdEvents.Position,
    initialPrice: int,
    takerLeverage: nat,
    nContracts: nat,
    counterparty: nat,
    role: CfdEvents.Role,
    kind: Kind,
    creationTimestamp: int)

  /** The hot tables and the archive tables. */
  datatype Archive = Archive(
    cfds: map<OrderId, CfdRow>,
    events: map<OrderId, seq<CfdEvents.CfdEvent>>,
    failedCfds: map<OrderId, FailedRow>,
    failedLog: map<OrderId, seq<LogEntry>>)

  /** Every archived event log belongs to an archived row. */
  predicate ArchiveValid(s: Archive)
  {
    s.failedLog.Keys <= s.failedCfds.Keys
  }

  /** The events of a CFD in the hot table (`load_cfd_events` from offset 0). */
  function HotEvents(s: Archive, id: OrderId): seq<CfdEvents.CfdEvent>
  {
    if id in s.events then s.events[id] else []
  }

  function ArchivedLog(s: Archive, id: OrderId): seq<LogEntry>
  {
    if id in s.failedLog then s.failedLog[id] else []
  }

  /** Loading a CFD as open needs its hot cfd row. */
  function LoadOpenCfd(s: Archive, id: OrderId): (r: Result<(CfdRow, seq<CfdEvents.CfdEvent>)>)
    ensures r.Ok? <==> id in s.cfds
  {
    if id in s.cfds then Ok((s.cfds[id], HotEvents(s, id))) else Err("no rows returned by a query that expected to return at least one row")
  }

  /**
   * `load_creation_timestamp`: the time of the first archived log entry of
   * this CFD that records a rejected offer or a failed setup.
   */
  function LoadCreationTimestamp(s: Archive, id: OrderId): (r: Result<int>)
    ensures r.Ok? <==> id in s.failedCfds && exists i :: 0 <= i < |ArchivedLog(s, id)| && IsFailureEntry(ArchivedLog(s, id)[i])
    ensures r.Ok? ==> exists i :: 0 <= i < |ArchivedLog(s, id)| && IsFailureEntry(ArchivedLog(s, id)[i])
                                  && ArchivedLog(s, id)[i].createdAt == r.value
  {
    if id !in s.failedCfds then Err("no rows returned by a query that expected to return at least one row")
    else match FirstIndex(ArchivedLog(s, id), IsFailureEntry)
      case None => Err("no rows returned by a query that expected to return at least one row")
      case Some(i) => Ok(ArchivedLog(s, id)[i].createdAt)
  }

  predicate IsFailureEntry(e: LogEntry)
  {
    e.name == OFFER_REJECTED || e.name == CONTRACT_SETUP_FAILED
  }

  /** `load_failed_cfd`: the archived row together with its creation timestamp. */
  function LoadFailedCfd(s: Archive, id: OrderId): (r: Result<FailedCfd>)
    ensures r.Ok? <==> LoadCreationTimestamp(s, id).Ok?
    ensures r.Ok? ==> r.value.id == id && r.value.kind == s.failedCfds[id].kind
                      && r.value.nContracts == s.failedCfds[id].nContracts
                      && r.value.position == s.failedCfds[id].position
                      && r.value.initialPrice == s.failedCfds[id].initialPrice
                      && r.value.takerLeverage == s.failedCfds[id].takerLeverage
                      && r.value.counterparty == s.failedCfds[id].counterparty
                      && r.value.role == s.failedCfds[id].role
                      && r.value.creationTimestamp == LoadCreationTimestamp(s, id).value
  {
    if id !in s.failedCfds then Err("no rows returned by a query that expected to return at least one row")
    else
      var row := s.failedCfds[id];
      match LoadCreationTimestamp(s, id)
      case Err(e) => Err(e)
      case Ok(ts) =>
        Ok(FailedCfd(id, row.position, row.initialPrice, row.takerLeverage, row.nContracts,
                     row.counterparty, row.role, row.kind, ts))
  }

  // ---------------------------------------------------------------------------
  // Moving one CFD

  const U64_LIMIT: int := 0x1_0000_0000_0000_0000

  /** The steps of the per-CFD transaction that can fail on I/O. */
  datatype TxFault =
    | Acquire | Begin | LoadRow | LoadEvents | InsertFailed
    | InsertLogEntry(index: nat)
    | DeleteEvents | DeleteCfd | Commit

  /** Moved, failed and rolled back, or panicked (the quantity does not fit into a u64). */
  datatype MoveResult = Moved | Failed(error: string) | Panicked

  function FailedRowOf(cfd: CfdRow, kind: Kind, nContracts: nat): FailedRow
  {
    FailedRow(cfd.id, cfd.position, cfd.initialPrice, cfd.takerLeverage, nContracts, cfd.counterparty, cfd.role, kind)
  }

  /** Every entry of the log is inserted. */
  predicate LogInsertsSucceed(log: seq<LogEntry>, faults: set<TxFault>)
  {
    forall i :: 0 <= i < |log| ==> InsertLogEntry(i) !in faults
  }

  /**
   * The transaction for one CFD: load its row and events, classify the
   * failure, insert the archive row and the copied log, delete the hot rows,
   * commit. Any failing step rolls the whole transaction back.
   */
  function MoveOne(s: Archive, id: OrderId, faults: set<TxFault>): (Archive, MoveResult)
  {
    if Acquire in faults || Begin in faults then (s, Failed("could not begin transaction"))
    else if LoadRow in faults || id !in s.cfds then (s, Failed("no cfd row"))
    else if LoadEvents in faults then (s, Failed("could not load events"))
    else
      var cfd := s.cfds[id];
      var log := EventLogOf(HotEvents(s, id));
      match Classify(log)
      case Err(e) => (s, Failed(e))
      case Ok(kind) =>
        if !(0 <= cfd.quantityUsd < U64_LIMIT) then (s, Panicked)
        else if InsertFailed in faults || id in s.failedCfds then (s, Failed("failed to insert into failed_cfds"))
        else if !LogInsertsSucceed(log, faults) then (s, Failed("failed to insert into event_log_failed"))
        else if DeleteEvents in faults || DeleteCfd in faults || Commit in faults then (s, Failed("could not delete or commit"))
        else
          (Archive(s.cfds - {id}, s.events - {id},
                   s.failedCfds[id := FailedRowOf(cfd, kind, cfd.quantityUsd)],
                   s.failedLog[id := ArchivedLog(s, id) + log]),
           Moved)
  }

  /** A move that does not succeed changes nothing. */
  lemma MoveOneAllOrNothing(s: Archive, id: OrderId, faults: set<TxFault>)
    ensures MoveOne(s, id, faults).1 != Moved ==> MoveOne(s, id, faults).0 == s
    ensures MoveOne(s, id, faults).1 == Moved <==>
            && id in s.cfds && id !in s.failedCfds
            && Classify(EventLogOf(HotEvents(s, id))).Ok?
            && 0 <= s.cfds[id].quantityUsd < U64_LIMIT
            && LogInsertsSucceed(EventLogOf(HotEvents(s, id)), faults)
            && Acquire !in faults && Begin !in faults && LoadRow !in faults && LoadEvents !in faults
            && InsertFailed !in faults && DeleteEvents !in faults && DeleteCfd !in faults && Commit !in faults
  {
  }

  /**
   * After a successful move the CFD no longer loads as open, its hot event log
   * is empty, and it loads as failed with the classified kind, its quantity as
   * the number of contracts, the terms of its row (position, initial price,
   * taker leverage, counterparty, role), and the time of its first failure
   * event as its creation timestamp. The archived log is the hot log, entry by entry.
   */
  lemma MovedThenLoadsAsFailed(s: Archive, id: OrderId, faults: set<TxFault>)
    requires ArchiveValid(s)
    requires MoveOne(s, id, faults).1 == Moved
    ensures var s' := MoveOne(s, id, faults).0;
            var log := EventLogOf(HotEvents(s, id));
            && ArchiveValid(s')
            && LoadOpenCfd(s', id).Err?
            && HotEvents(s', id) == []
            && ArchivedLog(s', id) == log
            && LoadFailedCfd(s', id).Ok?
            && LoadFailedCfd(s', id).value.kind == Classify(log).value
            && LoadFailedCfd(s', id).value.nContracts == s.cfds[id].quantityUsd
            && LoadFailedCfd(s', id).value.position == s.cfds[id].position
            && LoadFailedCfd(s', id).value.initialPrice == s.cfds[id].initialPrice
            && LoadFailedCfd(s', id).value.takerLeverage == s.cfds[id].takerLeverage
            && LoadFailedCfd(s', id).value.counterparty == s.cfds[id].counterparty
            && LoadFailedCfd(s', id).value.role == s.cfds[id].role
            && LoadFailedCfd(s', id).value.creationTimestamp == log[FirstIndex(log, IsFailureEntry).value].createdAt
  {
    var log := EventLogOf(HotEvents(s, id));
    var s' := MovedArchive(s, id, faults);
    ClassifiedHasFailureEntry(log);
    ArchivedRowLoads(s', id, log);
  }

  /** The tables after a successful move: the hot rows are gone and the row and log are archived. */
  lemma MovedArchive(s: Archive, id: OrderId, faults: set<TxFault>) returns (s': Archive)
    requires ArchiveValid(s)
    requires MoveOne(s, id, faults).1 == Moved
    ensures s' == MoveOne(s, id, faults).0
    ensures s' == Archive(s.cfds - {id}, s.events - {id},
                          s.failedCfds[id := FailedRowOf(s.cfds[id], Classify(EventLogOf(HotEvents(s, id))).value, s.cfds[id].quantityUsd)],
                          s.failedLog[id := EventLogOf(HotEvents(s, id))])
    ensures ArchiveValid(s')
  {
    assert id !in s.failedLog;
    assert ArchivedLog(s, id) + EventLogOf(HotEvents(s, id)) == EventLogOf(HotEvents(s, id));
    s' := MoveOne(s, id, faults).0;
  }

  /** A log that classifies records a rejected offer or a failed setup, so it has a first failure entry. */
  lemma ClassifiedHasFailureEntry(log: seq<LogEntry>)
    requires Classify(log).Ok?
    ensures FirstIndex(log, IsFailureEntry).Some?
  {
    if Classify(log).value == OfferRejected {
      var i :| 0 <= i < |log| && log[i].name == OFFER_REJECTED;
      assert IsFailureEntry(log[i]);
    } else {
      var i :| 0 <= i < |log| && log[i].name == CONTRACT_SETUP_FAILED;
      assert IsFailureEntry(log[i]);
    }
  }

  /** An archived row whose log has a failure entry loads as failed, stamped with the first such entry. */
  lemma ArchivedRowLoads(s: Archive, id: OrderId, log: seq<LogEntry>)
    requires id in s.failedCfds && id in s.failedLog && s.failedLog[id] == log
    requires FirstIndex(log, IsFailureEntry).Some?
    ensures LoadFailedCfd(s, id).Ok?
    ensures LoadFailedCfd(s, id).value.creationTimestamp == log[FirstIndex(log, IsFailureEntry).value].createdAt
  {
    assert ArchivedLog(s, id) == log;
  }

  /**
   * A CFD whose log records neither a rejected offer nor a failed setup is
   * left untouched: it still loads as open with all its events, and whether
   * it loads as failed does not change.
   */
  lemma NoFailureEventLeftOpen(s: Archive, id: OrderId, faults: set<TxFault>)
    requires id in s.cfds
    requires forall e :: e in HotEvents(s, id) ==> e.event != CfdEvents.OfferRejected && e.event != CfdEvents.ContractSetupFailed
    ensures MoveOne(s, id, faults).1.Failed?
    ensures MoveOne(s, id, faults).0 == s
    ensures LoadOpenCfd(MoveOne(s, id, faults).0, id) == Ok((s.cfds[id], HotEvents(s, id)))
    ensures LoadFailedCfd(MoveOne(s, id, faults).0, id) == LoadFailedCfd(s, id)
  {
    var events := HotEvents(s, id);
    var log := EventLogOf(events);
    forall i | 0 <= i < |log|
      ensures log[i].name != OFFER_REJECTED && log[i].name != CONTRACT_SETUP_FAILED
    {
      assert events[i] in events;
      OfferRejectedNameUnique(events[i].event);
      SetupFailedNameUnique(events[i].event);
    }
  }

  /** Only a rejected offer is stored under the name of a rejected offer. */
  lemma OfferRejectedNameUnique(k: CfdEvents.EventKind)
    ensures CfdEvents.Name(k) == OFFER_REJECTED ==> k == CfdEvents.OfferRejected
  {
  }

  /** Only a failed setup is stored under the name of a failed setup. */
  lemma SetupFailedNameUnique(k: CfdEvents.EventKind)
    ensures CfdEvents.Name(k) == CONTRACT_SETUP_FAILED ==> k == CfdEvents.ContractSetupFailed
  {
  }

  // ---------------------------------------------------------------------------
  // What a move touches

  /** Everything the four tables hold for one order id. */
  datatype Slot = Slot(
    cfd: Option<CfdRow>,
    events: Option<seq<CfdEvents.CfdEvent>>,
    failed: Option<FailedRow>,
    log: Option<seq<LogEntry>>)

  function Get<V>(m: map<OrderId, V>, k: OrderId): Option<V>
  {
    if k in m then Some(m[k]) else None
  }

  function At(s: Archive, k: OrderId): Slot
  {
    Slot(Get(s.cfds, k), Get(s.events, k), Get(s.failedCfds, k), Get(s.failedLog, k))
  }

  /** Moving one CFD leaves every other order id as it was. */
  lemma MoveOneFrame(s: Archive, id: OrderId, faults: set<TxFault>, k: OrderId)
    requires k != id
    ensures At(MoveOne(s, id, faults).0, k) == At(s, k)
  {
  }

  /** What moving a CFD does depends only on what the tables hold for it. */
  lemma MoveOneLocal(s: Archive, t: Archive, id: OrderId, faults: set<TxFault>)
    requires At(s, id) == At(t, id)
    ensures MoveOne(s, id, faults).1 == MoveOne(t, id, faults).1
    ensures At(MoveOne(s, id, faults).0, id) == At(MoveOne(t, id, faults).0, id)
  {
    MoveOneSameOutcome(s, t, id, faults);
    MoveOneSameSlot(s, t, id, faults);
  }

  lemma MoveOneSameOutcome(s: Archive, t: Archive, id: OrderId, faults: set<TxFault>)
    requires At(s, id) == At(t, id)
    ensures MoveOne(s, id, faults).1 == MoveOne(t, id, faults).1
  {
    assert (id in s.cfds) == (id in t.cfds);
    assert (id in s.failedCfds) == (id in t.failedCfds);
    assert HotEvents(s, id) == HotEvents(t, id);
  }

  lemma MoveOneSameSlot(s: Archive, t: Archive, id: OrderId, faults: set<TxFault>)
    requires At(s, id) == At(t, id)
    ensures At(MoveOne(s, id, faults).0, id) == At(MoveOne(t, id, faults).0, id)
  {
    MoveOneSameOutcome(s, t, id, faults);
    if MoveOne(s, id, faults).1 == Moved {
      assert s.cfds[id] == t.cfds[id];
      assert HotEvents(s, id) == HotEvents(t, id);
      assert ArchivedLog(s, id) == ArchivedLog(t, id);
    } else {
      MoveOneAllOrNothing(s, id, faults);
      MoveOneAllOrNothing(t, id, faults);
    }
  }

  lemma MoveOneKeepsValid(s: Archive, id: OrderId, faults: set<TxFault>)
    requires ArchiveValid(s)
    ensures ArchiveValid(MoveOne(s, id, faults).0)
  {
  }

  // ---------------------------------------------------------------------------
  // The sweep

  datatype SweepOutcome = Completed | QueryFailed(error: string) | PanickedAt(id: OrderId)

  /**
   * The sweep over the candidate ids: each id gets its own transaction and a
   * failed one is only logged; a panic ends the sweep. `faults(k)` are the
   * failing steps of the `k`-th transaction.
   */
  function Sweep(s: Archive, ids: seq<OrderId>, faults: nat -> set<TxFault>, k: nat): (Archive, SweepOutcome)
    decreases |ids|
  {
    if |ids| == 0 then (s, Completed)
    else
      var (s1, res) := MoveOne(s, ids[0], faults(k));
      if res == Panicked then (s1, PanickedAt(ids[0]))
      else Sweep(s1, ids[1..], faults, k + 1)
  }

  /** The sweep ends in a panic or completes; it never reports an error of its own. */
  lemma {:induction false} SweepOutcomes(s: Archive, ids: seq<OrderId>, faults: nat -> set<TxFault>, k: nat)
    ensures Sweep(s, ids, faults, k).1.Completed? || Sweep(s, ids, faults, k).1.PanickedAt?
    ensures Sweep(s, ids, faults, k).1.PanickedAt? ==> Sweep(s, ids, faults, k).1.id in ids
    ensures ArchiveValid(s) ==> ArchiveValid(Sweep(s, ids, faults, k).0)
    decreases |ids|
  {
    if |ids| > 0 {
      var (s1, res) := MoveOne(s, ids[0], faults(k));
      if ArchiveValid(s) {
        MoveOneKeepsValid(s, ids[0], faults(k));
      }
      if res != Panicked {
        SweepOutcomes(s1, ids[1..], faults, k + 1);
      }
    }
  }

  /** Order ids that are not candidates are left as they were. */
  lemma {:induction false} SweepFrame(s: Archive, ids: seq<OrderId>, faults: nat -> set<TxFault>, k: nat, key: OrderId)
    requires key !in ids
    ensures At(Sweep(s, ids, faults, k).0, key) == At(s, key)
    decreases |ids|
  {
    if |ids| > 0 {
      MoveOneFrame(s, ids[0], faults(k), key);
      var (s1, res) := MoveOne(s, ids[0], faults(k));
      if res != Panicked {
        assert key !in ids[1..];
        SweepFrame(s1, ids[1..], faults, k + 1, key);
      }
    }
  }

  /** A completed sweep did not panic on its first id and went on from the state that move left. */
  lemma SweepCompletedUnfold(s: Archive, ids: seq<OrderId>, faults: nat -> set<TxFault>, k: nat)
    requires |ids| > 0
    requires Sweep(s, ids, faults, k).1 == Completed
    ensures MoveOne(s, ids[0], faults(k)).1 != Panicked
    ensures Sweep(s, ids, faults, k) == Sweep(MoveOne(s, ids[0], faults(k)).0, ids[1..], faults, k + 1)
  {
  }

  /** The first candidate of a completed sweep over distinct ids ends as its own move left it. */
  lemma SweepFirstIndependent(s: Archive, ids: seq<OrderId>, faults: nat -> set<TxFault>, k: nat)
    requires forall a, b :: 0 <= a < b < |ids| ==> ids[a] != ids[b]
    requires |ids| > 0
    requires Sweep(s, ids, faults, k).1 == Completed
    ensures At(Sweep(s, ids, faults, k).0, ids[0]) == At(MoveOne(s, ids[0], faults(k)).0, ids[0])
  {
    SweepCompletedUnfold(s, ids, faults, k);
    var rest := ids[1..];
    assert ids[0] !in rest by {
      forall b | 0 <= b < |rest| ensures rest[b] != ids[0] {
        assert rest[b] == ids[b + 1];
      }
    }
    SweepFrame(MoveOne(s, ids[0], faults(k)).0, rest, faults, k + 1, ids[0]);
  }

  /**
   * In a sweep that completes over distinct ids, each candidate ends up as its
   * own transaction left it, as if it had been moved alone: a failure on one
   * id neither stops nor affects the others.
   */
  lemma SweepMovesEachIndependently(s: Archive, ids: seq<OrderId>, faults: nat -> set<TxFault>, k: nat, j: nat)
    requires forall a, b :: 0 <= a < b < |ids| ==> ids[a] != ids[b]
    requires Sweep(s, ids, faults, k).1 == Completed
    requires j < |ids|
    ensures MoveOne(s, ids[j], faults(k + j)).1 != Panicked
    ensures At(Sweep(s, ids, faults, k).0, ids[j]) == At(MoveOne(s, ids[j], faults(k + j)).0, ids[j])
  {
    SweepMovesAt(s, ids, faults, k, j, ids[j], faults(k + j));
  }

  /** `SweepMovesEachIndependently` for candidate `id` at position `j`, moved under faults `f`. */
  lemma {:induction false} SweepMovesAt(s: Archive, ids: seq<OrderId>, faults: nat -> set<TxFault>, k: nat, j: nat, id: OrderId, f: set<TxFault>)
    requires forall a, b :: 0 <= a < b < |ids| ==> ids[a] != ids[b]
    requires Sweep(s, ids, faults, k).1 == Completed
    requires j < |ids| && ids[j] == id && faults(k + j) == f
    ensures MoveOne(s, id, f).1 != Panicked
    ensures At(Sweep(s, ids, faults, k).0, id) == At(MoveOne(s, id, f).0, id)
    decreases j
  {
    SweepCompletedUnfold(s, ids, faults, k);
    if j == 0 {
      SweepFirstIndependent(s, ids, faults, k);
    } else {
      var s1 := MoveOne(s, ids[0], faults(k)).0;
      var rest := ids[1..];
      assert rest[j - 1] == id;
      assert faults(k + 1 + (j - 1)) == f by {
        assert k + 1 + (j - 1) == k + j;
      }
      SweepMovesAt(s1, rest, faults, k + 1, j - 1, id, f);
      MoveOneFrame(s, ids[0], faults(k), id);
      MoveOneLocal(s1, s, id, f);
    }
  }

  // ---------------------------------------------------------------------------
  // The store

  /**
   * `insert_event_log`: inserts the log entries one by one under the archived
   * row of `id`; an insert that does not affect exactly one row fails the whole
   * call. `faults` names the entries whose insert fails.
   */
  method InsertEventLog(table: map<OrderId, seq<LogEntry>>, id: OrderId, log: seq<LogEntry>, faults: set<TxFault>)
    returns (r: Result<map<OrderId, seq<LogEntry>>>)
    ensures r.Ok? <==> LogInsertsSucceed(log, faults)
    ensures r.Err? ==> r.error == "failed to insert into event_log_failed"
    ensures r.Ok? ==> r.value == table[id := (if id in table then table[id] else []) + log]
  {
    var entries := if id in table then table[id] else [];
    ghost var before := entries;
    var i := 0;
    while i < |log|
      invariant 0 <= i <= |log|
      invariant entries == before + log[..i]
      invariant forall j :: 0 <= j < i ==> InsertLogEntry(j) !in faults
    {
      if InsertLogEntry(i) in faults {
        return Err("failed to insert into event_log_failed");
      }
      entries := entries + [log[i]];
      assert log[..i + 1] == log[..i] + [log[i]];
      i := i + 1;
    }
    assert log[..i] == log;
    r := Ok(table[id := entries]);
  }

  class ArchiveDb {
    var cfds: map<OrderId, CfdRow>
    var events: map<OrderId, seq<CfdEvents.CfdEvent>>
    var failedCfds: map<OrderId, FailedRow>
    var failedLog: map<OrderId, seq<LogEntry>>

    function Snapshot(): Archive
      reads this
    {
      Archive(cfds, events, failedCfds, failedLog)
    }

    constructor (init: Archive)
      ensures Snapshot() == init
    {
      cfds := init.cfds;
      events := init.events;
      failedCfds := init.failedCfds;
      failedLog := init.failedLog;
    }

    /**
     * The transaction of `move_to_failed_cfds` for one id. It works on copies
     * of the tables, which become the tables only on commit.
     */
    method MoveOneTx(id: OrderId, faults: set<TxFault>) returns (res: MoveResult)
      modifies this
      ensures (Snapshot(), res) == MoveOne(old(Snapshot()), id, faults)
    {
      if Acquire in faults || Begin in faults {
        return Failed("could not begin transaction");
      }
      var txCfds, txEvents, txFailed, txLog := cfds, events, failedCfds, failedLog;
      if LoadRow in faults || id !in txCfds {
        return Failed("no cfd row");
      }
      var cfd := txCfds[id];
      if LoadEvents in faults {
        return Failed("could not load events");
      }
      var log := EventLogOf(if id in txEvents then txEvents[id] else []);

      var kind := Classify(log);
      if kind.Err? {
        return Failed(kind.error);
      }
      if !(0 <= cfd.quantityUsd < U64_LIMIT) {
        return Panicked;
      }
      if InsertFailed in faults || id in txFailed {
        return Failed("failed to insert into failed_cfds");
      }
      txFailed := txFailed[id := FailedRowOf(cfd, kind.value, cfd.quantityUsd)];

      var logged := InsertEventLog(txLog, id, log, faults);
      if logged.Err? {
        return Failed(logged.error);
      }
      txLog := logged.value;

      if DeleteEvents in faults {
        return Failed("could not delete or commit");
      }
      txEvents := txEvents - {id};
      if DeleteCfd in faults {
        return Failed("could not delete or commit");
      }
      txCfds := txCfds - {id};
      if Commit in faults {
        return Failed("could not delete or commit");
      }
      cfds, events, failedCfds, failedLog := txCfds, txEvents, txFailed, txLog;
      res := Moved;
    }

    /**
     * `move_to_failed_cfds`: moves every candidate in its own transaction. A
     * failed move is logged and the sweep goes on; the only errors are the
     * candidate query's and a panic on a quantity that does not fit a u64.
     */
    method MoveToFailedCfds(candidates: Result<seq<OrderId>>, faults: nat -> set<TxFault>) returns (r: SweepOutcome)
      modifies this
      ensures candidates.Err? ==> r == QueryFailed(candidates.error) && Snapshot() == old(Snapshot())
      ensures candidates.Ok? ==> (Snapshot(), r) == Sweep(old(Snapshot()), candidates.value, faults, 0)
    {
      if candidates.Err? {
        return QueryFailed(candidates.error);
      }
      var ids := candidates.value;
      ghost var goal := Sweep(Snapshot(), ids, faults, 0);
      var i := 0;
      while i < |ids|
        invariant 0 <= i <= |ids|
        invariant goal == Sweep(Snapshot(), ids[i..], faults, i)
      {
        assert ids[i..][1..] == ids[i + 1..];
        var res := MoveOneTx(ids[i], faults(i));
        if res == Panicked {
          return PanickedAt(ids[i]);
        }
        i := i + 1;
      }
      r := Completed;
    }
  }
}
