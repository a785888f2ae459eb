/**
 * The older state-row store of the daemon: three tables `orders`, `cfds` and
 * `cfd_states`. Every CFD owns an append-only list of state rows, and its
 * current state is the state row with the highest id. A row's id is its
 * position in its table (rows are only ever appended).
 */
module StateStore {
  import opened Common

  type OrderId = nat
  type OracleEventId = nat

  datatype Position = Long | Short
  datatype Origin = Ours | Theirs

  datatype Order = Order(
    id: OrderId,
    tradingPair: nat,
    position: Position,
    price: int,
    minQuantity: int,
    maxQuantity: int,
    leverage: nat,
    liquidationPrice: int,
    creationTimestamp: int,
    term: int,
    origin: Origin,
    oracleEventId: OracleEventId)

  /**
   * A CFD state. `SetupFailed` carries its info message; every other variant
   * is told apart by its tag.
   */
  datatype CfdState =
    | Other(tag: nat, transitionTimestamp: int)
    | SetupFailed(transitionTimestamp: int, info: string)

  datatype Cfd = Cfd(order: Order, quantityUsd: int, state: CfdState)

  /** A row of `cfds`: the id of its order row, the order's uuid and the quantity. */
  datatype CfdRow = CfdRow(orderRow: nat, orderUuid: OrderId, quantityUsd: int)

  /** A row of `cfd_states`. */
  datatype StateRow = StateRow(cfdId: nat, state: CfdState)

  datatype Tables = Tables(orders: seq<Order>, cfds: seq<CfdRow>, states: seq<StateRow>)

  /** The statements of the `insert_cfd` transaction that can fail at the storage level (`fault` names the one that does). */
  datatype CfdTxStep = InsertCfdRow | InsertStateRow | Commit

  // ---------------------------------------------------------------------------
  // Queries

  /** `select * from orders where uuid = ?` with `fetch_one`. */
  function FindOrder(orders: seq<Order>, id: OrderId): Option<nat>
  {
    FirstIndex(orders, (o: Order) => o.id == id)
  }

  /** `select id from cfds where order_uuid = ?` with `fetch_one`. */
  function FindCfd(cfds: seq<CfdRow>, id: OrderId): Option<nat>
  {
    FirstIndex(cfds, (c: CfdRow) => c.orderUuid == id)
  }

  function LoadOrderById(t: Tables, id: OrderId): (r: Result<Order>)
    ensures r.Ok? ==> r.value.id == id && r.value in t.orders
    ensures r.Err? <==> forall j :: 0 <= j < |t.orders| ==> t.orders[j].id != id
  {
    match FindOrder(t.orders, id)
    case None => Err("no rows returned by a query that expected to return at least one row")
    case Some(k) => Ok(t.orders[k])
  }

  function LoadCfdIdByOrderUuid(t: Tables, id: OrderId): (r: Result<nat>)
    ensures r.Ok? ==> r.value < |t.cfds| && t.cfds[r.value].orderUuid == id
    ensures r.Ok? ==> forall j :: 0 <= j < r.value ==> t.cfds[j].orderUuid != id
    ensures r.Err? <==> forall j :: 0 <= j < |t.cfds| ==> t.cfds[j].orderUuid != id
  {
    match FindCfd(t.cfds, id)
    case None => Err("No cfd found")
    case Some(k) => Ok(k)
  }

  /**
   * `select state from cfd_states where cfd_id = ? order by id desc limit 1`:
   * the state of the last row that belongs to `cfdId`.
   */
  function LatestState(states: seq<StateRow>, cfdId: nat): (r: Option<CfdState>)
    ensures r.None? <==> forall j :: 0 <= j < |states| ==> states[j].cfdId != cfdId
    ensures r.Some? ==> exists j :: 0 <= j < |states| && states[j] == StateRow(cfdId, r.value)
                                    && forall k :: j < k < |states| ==> states[k].cfdId != cfdId
  {
    if |states| == 0 then None
    else if states[|states| - 1].cfdId == cfdId then Some(states[|states| - 1].state)
    else LatestState(states[..|states| - 1], cfdId)
  }

  function LoadLatestCfdState(t: Tables, cfdId: nat): (r: Result<CfdState>)
    ensures r.Ok? <==> LatestState(t.states, cfdId).Some?
    ensures r.Ok? ==> r.value == LatestState(t.states, cfdId).value
  {
    match LatestState(t.states, cfdId)
    case None => Err("no rows returned by a query that expected to return at least one row")
    case Some(s) => Ok(s)
  }

  // ---------------------------------------------------------------------------
  // The latest-state join of load_cfd_by_order_id, load_all_cfds and
  // load_cfds_by_oracle_event_id.

  function Repeat<T>(x: T, n: nat): (r: seq<T>)
    ensures |r| == n && forall i :: 0 <= i < n ==> r[i] == x
  {
    if n == 0 then [] else [x] + Repeat(x, n - 1)
  }

  /**
   * The joined rows of CFD `i` as the query is written: every state row of
   * that CFD whose state text equals the text of the latest state.
   */
  function JoinedRowsAsWritten(t: Tables, i: nat): seq<Cfd>
    requires i < |t.cfds|
  {
    var c := t.cfds[i];
    if c.orderRow < |t.orders| then
      match LatestState(t.states, i)
      case None => []
      case Some(latest) =>
        Repeat(Cfd(t.orders[c.orderRow], c.quantityUsd, latest), multiset(t.states)[StateRow(i, latest)])
    else []
  }

  /** The joined rows of the first `n` CFDs, as the query is written. */
  function JoinAsWritten(t: Tables, n: nat): seq<Cfd>
    requires n <= |t.cfds|
  {
    if n == 0 then [] else JoinAsWritten(t, n - 1) + JoinedRowsAsWritten(t, n - 1)
  }

  /** The one row the join is meant to give for CFD `i`: its order, quantity and latest state. */
  function LatestRow(t: Tables, i: nat): seq<Cfd>
    requires i < |t.cfds|
  {
    var c := t.cfds[i];
    if c.orderRow < |t.orders| then
      match LatestState(t.states, i)
      case None => []
      case Some(latest) => [Cfd(t.orders[c.orderRow], c.quantityUsd, latest)]
    else []
  }

  /** The latest-state rows of the first `n` CFDs, one per CFD. */
  function LatestRows(t: Tables, n: nat): seq<Cfd>
    requires n <= |t.cfds|
  {
    if n == 0 then [] else LatestRows(t, n - 1) + LatestRow(t, n - 1)
  }

  /** Every CFD with its latest state, in cfd-row order. */
  function LoadAllCfds(t: Tables): seq<Cfd>
  {
    LatestRows(t, |t.cfds|)
  }

  function LoadCfdByOrderId(t: Tables, id: OrderId): (r: Result<Cfd>)
    ensures r.Ok? ==> r.value in LoadAllCfds(t) && r.value.order.id == id
    ensures r.Err? <==> forall x :: x in LoadAllCfds(t) ==> x.order.id != id
  {
    var all := LoadAllCfds(t);
    match FirstIndex(all, (c: Cfd) => c.order.id == id)
    case None => Err("no rows returned by a query that expected to return at least one row")
    case Some(k) => Ok(all[k])
  }

  function LoadCfdsByOracleEventId(t: Tables, oracleEventId: OracleEventId): seq<Cfd>
  {
    Filter(LoadAllCfds(t), (c: Cfd) => c.order.oracleEventId == oracleEventId)
  }

  // ---------------------------------------------------------------------------
  // The store invariant kept by the inserts

  /** CFD row `i` points at the order row of its uuid and has at least one state row. */
  predicate RowLinked(t: Tables, i: nat)
    requires i < |t.cfds|
  {
    && t.cfds[i].orderRow < |t.orders|
    && t.orders[t.cfds[i].orderRow].id == t.cfds[i].orderUuid
    && LatestState(t.states, i).Some?
  }

  predicate Valid(t: Tables)
  {
    && (forall i :: 0 <= i < |t.cfds| ==> RowLinked(t, i))
    && (forall j :: 0 <= j < |t.states| ==> t.states[j].cfdId < |t.cfds|)
  }

  /** The value `load_all_cfds` gives for CFD row `i` of a valid store. */
  function CfdAt(t: Tables, i: nat): Cfd
    requires Valid(t) && i < |t.cfds|
  {
    assert RowLinked(t, i);
    Cfd(t.orders[t.cfds[i].orderRow], t.cfds[i].quantityUsd, LatestState(t.states, i).value)
  }

  /** In a valid store the latest-state join holds exactly one row per CFD row, in order. */
  lemma LatestRowsExact(t: Tables, n: nat)
    requires Valid(t) && n <= |t.cfds|
    ensures |LatestRows(t, n)| == n
    ensures forall i :: 0 <= i < n ==> LatestRows(t, n)[i] == CfdAt(t, i)
  {
    LatestRowsLength(t, n);
    forall i | 0 <= i < n ensures LatestRows(t, n)[i] == CfdAt(t, i) {
      LatestRowAt(t, n, i);
    }
  }

  /** In a valid store each cfd row adds exactly its own CFD to the join. */
  lemma LatestRowIs(t: Tables, i: nat)
    requires Valid(t) && i < |t.cfds|
    ensures LatestRow(t, i) == [CfdAt(t, i)]
  {
    assert RowLinked(t, i);
  }

  lemma LatestRowLength(t: Tables, i: nat)
    requires Valid(t) && i < |t.cfds|
    ensures |LatestRow(t, i)| == 1
  {
    assert RowLinked(t, i);
  }

  lemma {:induction false} LatestRowsLength(t: Tables, n: nat)
    requires Valid(t) && n <= |t.cfds|
    ensures |LatestRows(t, n)| == n
  {
    if n > 0 {
      LatestRowsLength(t, n - 1);
      LatestRowLength(t, n - 1);
    }
  }

  lemma {:induction false} LatestRowAt(t: Tables, n: nat, i: nat)
    requires Valid(t) && i < n <= |t.cfds|
    ensures |LatestRows(t, n)| == n && LatestRows(t, n)[i] == CfdAt(t, i)
  {
    LatestRowsLength(t, n);
    if i < n - 1 {
      LatestRowsLength(t, n - 1);
      LatestRowAt(t, n - 1, i);
      LatestRowsPrefix(t, n, i);
    } else {
      LatestRowLast(t, n);
    }
  }

  /** Joining one more cfd row leaves the rows already joined in place. */
  lemma LatestRowsPrefix(t: Tables, n: nat, i: nat)
    requires 0 < n <= |t.cfds| && i < |LatestRows(t, n - 1)|
    ensures LatestRows(t, n)[i] == LatestRows(t, n - 1)[i]
  {
  }

  lemma LatestRowLast(t: Tables, n: nat)
    requires Valid(t) && 0 < n <= |t.cfds|
    ensures |LatestRows(t, n)| == n && LatestRows(t, n)[n - 1] == CfdAt(t, n - 1)
  {
    LatestRowsLength(t, n - 1);
    LatestRowIs(t, n - 1);
    var prev := LatestRows(t, n - 1);
    assert LatestRows(t, n) == prev + [CfdAt(t, n - 1)];
  }

  /** `load_all_cfds` returns exactly one entry per CFD row, carrying that CFD's latest state. */
  lemma LoadAllCfdsExact(t: Tables)
    requires Valid(t)
    ensures |LoadAllCfds(t)| == |t.cfds|
    ensures forall i :: 0 <= i < |t.cfds| ==> LoadAllCfds(t)[i] == CfdAt(t, i)
  {
    LatestRowsExact(t, |t.cfds|);
  }

  // ---------------------------------------------------------------------------
  // The store

  class Db {
    var orders: seq<Order>
    var cfds: seq<CfdRow>
    var states: seq<StateRow>

    function Snapshot(): Tables
      reads this
    {
      Tables(orders, cfds, states)
    }

    constructor ()
      ensures Snapshot() == Tables([], [], []) && Valid(Snapshot())
    {
      orders, cfds, states := [], [], [];
    }

    /** `insert_order`: appends the order row; `writeOk` is the outcome of the insert statement. */
    method InsertOrder(order: Order, writeOk: bool) returns (r: Result<()>)
      modifies this
      ensures r.Ok? == writeOk
      ensures orders == if writeOk then old(orders) + [order] else old(orders)
      ensures cfds == old(cfds) && states == old(states)
      ensures Valid(old(Snapshot())) ==> Valid(Snapshot())
    {
      if !writeOk {
        return Err("insert into orders failed");
      }
      ghost var before := Snapshot();
      orders := orders + [order];
      r := Ok(());
      if Valid(before) {
        InsertOrderKeepsValid(before, order);
      }
    }

    /**
     * `insert_cfd`: in one transaction, looks up the order row by uuid, inserts
     * the cfd row and its first state row, and commits. Any failing step rolls
     * the whole transaction back.
     */
    method InsertCfd(cfd: Cfd, fault: Option<CfdTxStep>) returns (r: Result<()>)
      modifies this
      ensures r.Ok? <==> FindOrder(old(orders), cfd.order.id).Some? && fault.None?
      ensures r.Ok? ==>
        && orders == old(orders)
        && cfds == old(cfds) + [CfdRow(FindOrder(old(orders), cfd.order.id).value, cfd.order.id, cfd.quantityUsd)]
        && states == old(states) + [StateRow(|old(cfds)|, cfd.state)]
      ensures r.Err? ==> Snapshot() == old(Snapshot())
      ensures Valid(old(Snapshot())) ==> Valid(Snapshot())
    {
      var orderRow := FindOrder(orders, cfd.order.id);
      if orderRow.None? {
        return Err("no rows returned by a query that expected to return at least one row");
      }
      // the transaction works on its own copy of the tables until it commits
      if fault == Some(InsertCfdRow) {
        return Err("insert into cfds failed");
      }
      var txCfds := cfds + [CfdRow(orderRow.value, cfd.order.id, cfd.quantityUsd)];
      var cfdId := |cfds|;
      if fault == Some(InsertStateRow) {
        return Err("insert into cfd_states failed");
      }
      var txStates := states + [StateRow(cfdId, cfd.state)];
      if fault.Some? {
        // the commit is the only statement left that can fail
        return Err("commit failed");
      }
      ghost var before := Snapshot();
      cfds, states := txCfds, txStates;
      r := Ok(());
      if Valid(before) {
        InsertCfdKeepsValid(before, orderRow.value, cfd);
      }
    }

    /**
     * `insert_new_cfd_state_by_order_id`: finds the CFD by its order uuid,
     * loads its latest state (whose variant is only compared for tracing) and
     * appends the new state row unconditionally.
     */
    method InsertNewCfdStateByOrderId(orderId: OrderId, newState: CfdState, writeOk: bool) returns (r: Result<()>)
      modifies this
      ensures r.Ok? <==>
        && LoadCfdIdByOrderUuid(old(Snapshot()), orderId).Ok?
        && LoadLatestCfdState(old(Snapshot()), LoadCfdIdByOrderUuid(old(Snapshot()), orderId).value).Ok?
        && writeOk
      ensures orders == old(orders) && cfds == old(cfds)
      ensures states == if r.Ok? then old(states) + [StateRow(LoadCfdIdByOrderUuid(old(Snapshot()), orderId).value, newState)]
                        else old(states)
      ensures Valid(old(Snapshot())) ==> Valid(Snapshot())
    {
      var cfdId := LoadCfdIdByOrderUuid(Snapshot(), orderId);
      if cfdId.Err? {
        return Err(cfdId.error);
      }
      var latest := LoadLatestCfdState(Snapshot(), cfdId.value);
      if latest.Err? {
        return Err("loading latest state failed");
      }
      if !writeOk {
        return Err("insert into cfd_states failed");
      }
      ghost var before := Snapshot();
      states := states + [StateRow(cfdId.value, newState)];
      r := Ok(());
      if Valid(before) {
        AppendStateKeepsValid(before, cfdId.value, newState);
      }
    }
  }

  // ---------------------------------------------------------------------------
  // What the inserts do to the loaders

  /** A state row for one CFD does not move the latest state of any other CFD. */
  lemma LatestStateOther(states: seq<StateRow>, k: nat, s: CfdState, i: nat)
    requires i != k
    ensures LatestState(states + [StateRow(k, s)], i) == LatestState(states, i)
  {
    assert (states + [StateRow(k, s)])[..|states|] == states;
  }

  lemma InsertOrderKeepsValid(t: Tables, order: Order)
    requires Valid(t)
    ensures Valid(t.(orders := t.orders + [order]))
  {
    var t' := t.(orders := t.orders + [order]);
    forall i | 0 <= i < |t'.cfds|
      ensures RowLinked(t', i)
    {
      assert RowLinked(t, i);
      assert t'.orders[t.cfds[i].orderRow] == t.orders[t.cfds[i].orderRow];
    }
  }

  lemma AppendStateKeepsValid(t: Tables, k: nat, s: CfdState)
    requires Valid(t) && k < |t.cfds|
    ensures Valid(t.(states := t.states + [StateRow(k, s)]))
  {
    var t' := t.(states := t.states + [StateRow(k, s)]);
    forall i | 0 <= i < |t'.cfds|
      ensures RowLinked(t', i)
    {
      assert RowLinked(t, i);
      if i != k {
        LatestStateOther(t.states, k, s, i);
      }
    }
  }

  lemma InsertCfdKeepsValid(t: Tables, orderRow: nat, cfd: Cfd)
    requires Valid(t)
    requires orderRow < |t.orders| && t.orders[orderRow].id == cfd.order.id
    ensures Valid(Tables(t.orders, t.cfds + [CfdRow(orderRow, cfd.order.id, cfd.quantityUsd)],
                         t.states + [StateRow(|t.cfds|, cfd.state)]))
  {
    var t' := Tables(t.orders, t.cfds + [CfdRow(orderRow, cfd.order.id, cfd.quantityUsd)],
                     t.states + [StateRow(|t.cfds|, cfd.state)]);
    forall i | 0 <= i < |t'.cfds|
      ensures RowLinked(t', i)
    {
      if i < |t.cfds| {
        assert RowLinked(t, i);
        LatestStateOther(t.states, |t.cfds|, cfd.state, i);
      }
    }
  }

  /**
   * Inserting an order and then loading it by id gives back that order, when
   * no earlier order row carries the same id.
   */
  lemma InsertThenLoadOrder(t: Tables, order: Order)
    requires forall j :: 0 <= j < |t.orders| ==> t.orders[j].id != order.id
    ensures LoadOrderById(t.(orders := t.orders + [order]), order.id) == Ok(order)
  {
    var orders' := t.orders + [order];
    assert orders'[|t.orders|].id == order.id;
    assert forall j :: 0 <= j < |t.orders| ==> orders'[j] == t.orders[j];
  }

  /**
   * After `insert_cfd`, `load_all_cfds` gives the earlier CFDs unchanged,
   * followed by the new CFD with its initial state.
   */
  lemma InsertCfdThenLoadAll(t: Tables, orderRow: nat, cfd: Cfd)
    requires Valid(t)
    requires orderRow < |t.orders| && t.orders[orderRow] == cfd.order
    ensures LoadAllCfds(Tables(t.orders, t.cfds + [CfdRow(orderRow, cfd.order.id, cfd.quantityUsd)],
                               t.states + [StateRow(|t.cfds|, cfd.state)]))
            == LoadAllCfds(t) + [cfd]
  {
    var t' := Tables(t.orders, t.cfds + [CfdRow(orderRow, cfd.order.id, cfd.quantityUsd)],
                     t.states + [StateRow(|t.cfds|, cfd.state)]);
    InsertCfdKeepsValid(t, orderRow, cfd);
    LoadAllCfdsExact(t);
    LoadAllCfdsExact(t');
    forall i | 0 <= i < |t.cfds|
      ensures LoadAllCfds(t')[i] == LoadAllCfds(t)[i]
    {
      LatestStateOther(t.states, |t.cfds|, cfd.state, i);
    }
    assert LatestState(t'.states, |t.cfds|) == Some(cfd.state);
  }

  /**
   * After a state row is appended for CFD `k`, `load_all_cfds` shows `k`
   * with the new state and every other CFD exactly as before.
   */
  lemma AppendStateThenLoadAll(t: Tables, k: nat, s: CfdState)
    requires Valid(t) && k < |t.cfds|
    ensures var all' := LoadAllCfds(t.(states := t.states + [StateRow(k, s)]));
      && |LoadAllCfds(t)| == |t.cfds|
      && |all'| == |LoadAllCfds(t)|
      && all'[k] == LoadAllCfds(t)[k].(state := s)
      && forall i :: 0 <= i < |t.cfds| && i != k ==> all'[i] == LoadAllCfds(t)[i]
  {
    var t' := t.(states := t.states + [StateRow(k, s)]);
    AppendStateKeepsValid(t, k, s);
    LoadAllCfdsExact(t);
    LoadAllCfdsExact(t');
    forall i | 0 <= i < |t.cfds| && i != k
      ensures LoadAllCfds(t')[i] == LoadAllCfds(t)[i]
    {
      LatestStateOther(t.states, k, s, i);
    }
  }

  /**
   * `load_cfds_by_oracle_event_id` gives exactly the loaded CFDs whose order
   * carries the event id, in load order.
   */
  lemma LoadByOracleEventIdExact(t: Tables, oracleEventId: OracleEventId)
    ensures forall i :: 0 <= i < |LoadCfdsByOracleEventId(t, oracleEventId)| ==>
              LoadCfdsByOracleEventId(t, oracleEventId)[i] in LoadAllCfds(t) &&
              LoadCfdsByOracleEventId(t, oracleEventId)[i].order.oracleEventId == oracleEventId
    ensures forall i :: 0 <= i < |LoadAllCfds(t)| && LoadAllCfds(t)[i].order.oracleEventId == oracleEventId ==>
              LoadAllCfds(t)[i] in LoadCfdsByOracleEventId(t, oracleEventId)
    ensures |LoadCfdsByOracleEventId(t, oracleEventId)| <= |LoadAllCfds(t)|
    ensures forall c :: multiset(LoadCfdsByOracleEventId(t, oracleEventId))[c] ==
              if c.order.oracleEventId == oracleEventId then multiset(LoadAllCfds(t))[c] else 0
  {
    forall c
      ensures multiset(LoadCfdsByOracleEventId(t, oracleEventId))[c] ==
              if c.order.oracleEventId == oracleEventId then multiset(LoadAllCfds(t))[c] else 0
    {
      FilterCount(LoadAllCfds(t), (c: Cfd) => c.order.oracleEventId == oracleEventId, c);
    }
  }

  /**
   * After `insert_cfd`, loading by an oracle event id gives the earlier
   * matches in their order, followed by the new CFD when its order carries
   * that event id.
   */
  lemma InsertCfdThenLoadByOracleEventId(t: Tables, orderRow: nat, cfd: Cfd, oracleEventId: OracleEventId)
    requires Valid(t)
    requires orderRow < |t.orders| && t.orders[orderRow] == cfd.order
    ensures LoadCfdsByOracleEventId(Tables(t.orders, t.cfds + [CfdRow(orderRow, cfd.order.id, cfd.quantityUsd)],
                                           t.states + [StateRow(|t.cfds|, cfd.state)]), oracleEventId)
            == LoadCfdsByOracleEventId(t, oracleEventId) +
               (if cfd.order.oracleEventId == oracleEventId then [cfd] else [])
  {
    var p := (c: Cfd) => c.order.oracleEventId == oracleEventId;
    InsertCfdThenLoadAll(t, orderRow, cfd);
    FilterAppend(LoadAllCfds(t), [cfd], p);
    assert [cfd][1..] == [];
  }

  // ---------------------------------------------------------------------------
  // The join as written and the join as intended

  /** When no CFD has two state rows equal to its latest one, the join as written is the intended one. */
  lemma {:induction false} JoinAsWrittenWhenLatestUnique(t: Tables, n: nat)
    requires n <= |t.cfds|
    requires forall i :: 0 <= i < n && LatestState(t.states, i).Some? ==>
               multiset(t.states)[StateRow(i, LatestState(t.states, i).value)] == 1
    ensures JoinAsWritten(t, n) == LatestRows(t, n)
  {
    if n > 0 {
      JoinAsWrittenWhenLatestUnique(t, n - 1);
      var i := n - 1;
      if t.cfds[i].orderRow < |t.orders| && LatestState(t.states, i).Some? {
        var latest := LatestState(t.states, i).value;
        assert multiset(t.states)[StateRow(i, latest)] == 1;
        assert JoinedRowsAsWritten(t, i) == LatestRow(t, i);
      }
    }
  }

  /**
   * The discrepancy: one CFD whose same state value was appended twice is
   * returned twice by the join as written, once by the intended join.
   */
  lemma DuplicateStateRowsDuplicateCfd()
    ensures var o := Order(7, 0, Long, 1000, 100, 1000, 2, 500, 0, 1, Theirs, 3);
            var s := Other(1, 42);
            var t := Tables([o], [CfdRow(0, 7, 1000)], [StateRow(0, s), StateRow(0, s)]);
            && |JoinAsWritten(t, 1)| == 2
            && |LatestRows(t, 1)| == 1
            && Valid(t)
  {
    var o := Order(7, 0, Long, 1000, 100, 1000, 2, 500, 0, 1, Theirs, 3);
    var s := Other(1, 42);
    var t := Tables([o], [CfdRow(0, 7, 1000)], [StateRow(0, s), StateRow(0, s)]);
    assert LatestState(t.states, 0) == Some(s);
    assert multiset(t.states)[StateRow(0, s)] == 2;
    assert RowLinked(t, 0);
  }
}
