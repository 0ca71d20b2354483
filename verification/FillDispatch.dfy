/** Dispatch of matching-engine events to managed orders through the reverse index from engine id to order. */
module FillDispatch {
  import opened Common
  import opened Seqs

  datatype OrderId = OrderId(text: string)
  datatype UserId = UserId(text: string)

  datatype OrderStatus = PendingRisk | PendingRoute | Submitted | PartiallyFilled | Filled | Cancelled | Rejected

  datatype Order = Order(userId: UserId, instrumentId: string, direction: string, offset: string,
                         limitPrice: real, volume: real)

  datatype RouteInfo = RouteInfo(
    order: Order,
    status: OrderStatus,
    submitTime: int,
    updateTime: int,
    filledVolume: real,
    qaOrderId: string,
    engineId: Option<nat>)

  /** Events returned by the matching engine for one request. */
  datatype Event =
    | AcceptedEvent(id: nat, ts: int)
    | FilledEvent(orderId: nat, price: real, volume: real, ts: int, opposite: nat)
    | PartialEvent(orderId: nat, price: real, volume: real, ts: int, opposite: nat)
    | CancelledEvent(id: nat, ts: int)
    | AmendedEvent(id: nat)
    | FailedEvent(ts: int)

  predicate IsFill(e: Event) {
    e.FilledEvent? || e.PartialEvent?
  }

  /** One trade report handed to the trade gateway. */
  datatype Trade = Trade(
    orderId: OrderId,
    userId: UserId,
    engineId: nat,
    price: real,
    volume: real,
    opposite: nat,
    oppositeUser: Option<UserId>,
    oppositeOrder: Option<OrderId>,
    qaOrderId: string,
    isTaker: bool)

  datatype Stats = Stats(count: nat, volume: real, amount: real)

  datatype State = State(
    orders: map<OrderId, RouteInfo>,
    engineToOrder: map<nat, OrderId>,
    engineToUser: map<nat, UserId>,
    trades: seq<Trade>,
    stats: Stats)

  const EMPTY: State := State(map[], map[], map[], [], Stats(0, 0.0, 0.0))

  function Find<K, V>(m: map<K, V>, k: K): Option<V> {
    if k in m then Some(m[k]) else None
  }

  // ----- one event -----

  function SetStatus(s: State, oid: OrderId, status: OrderStatus, ts: int): State {
    if oid in s.orders then s.(orders := s.orders[oid := s.orders[oid].(status := status, updateTime := ts)]) else s
  }

  function SetAccepted(s: State, oid: OrderId, id: nat, ts: int): State {
    if oid in s.orders
    then s.(orders := s.orders[oid := s.orders[oid].(status := Submitted, updateTime := ts, engineId := Some(id))])
    else s
  }

  function SetFilled(s: State, oid: OrderId, e: Event): State
    requires IsFill(e)
  {
    if oid in s.orders then s.(orders := s.orders[oid := ApplyFill(s.orders[oid], e)]) else s
  }

  /** `Filled` assigns the filled volume; `PartiallyFilled` adds to it. */
  function ApplyFill(info: RouteInfo, e: Event): RouteInfo
    requires IsFill(e)
  {
    if e.FilledEvent?
    then info.(status := Filled, updateTime := e.ts, filledVolume := e.volume)
    else info.(status := PartiallyFilled, updateTime := e.ts, filledVolume := info.filledVolume + e.volume)
  }

  function AddStats(t: Stats, price: real, volume: real): Stats {
    Stats(t.count + 1, t.volume + volume, t.amount + price * volume)
  }

  function MakeTrade(s: State, oid: OrderId, order: Order, e: Event, isTaker: bool): Trade
    requires IsFill(e)
  {
    Trade(oid, order.userId, e.orderId, e.price, e.volume, e.opposite,
          Find(s.engineToUser, e.opposite), Find(s.engineToOrder, e.opposite),
          if oid in s.orders then s.orders[oid].qaOrderId else "", isTaker)
  }

  /** The state after `handle_success_result`. `gateway` says whether the trade gateway accepts the report;
      a refusal comes after the order and the indexes have been updated and aborts the remaining events. */
  function Handled(s: State, oid: OrderId, order: Order, e: Event, isTaker: bool, gateway: bool): State {
    if IsFill(e) then
      var s' := SetFilled(s, oid, e);
      s'.(stats := AddStats(s.stats, e.price, e.volume),
          trades := if gateway then s.trades + [MakeTrade(s', oid, order, e, isTaker)] else s.trades)
    else match e
      case AcceptedEvent(id, ts) =>
        SetAccepted(s, oid, id, ts)
          .(engineToOrder := s.engineToOrder[id := oid], engineToUser := s.engineToUser[id := order.userId])
      case CancelledEvent(_, ts) => SetStatus(s, oid, Cancelled, ts)
      case _ => s
  }

  // ----- one batch of events -----

  datatype Progress = Progress(s: State, acceptedSeen: bool, tradeSeen: bool, ok: bool)

  /** The order a fill is applied to: the submitted order for the first fill of the batch, and the order
      filed under the event's engine id for every later one. */
  function Target(p: Progress, oid: OrderId, order: Order, e: Event): Option<(OrderId, Order)>
    requires IsFill(e)
  {
    if !p.tradeSeen then Some((oid, order))
    else if e.orderId in p.s.engineToOrder && p.s.engineToOrder[e.orderId] in p.s.orders then
      var m := p.s.engineToOrder[e.orderId];
      Some((m, p.s.orders[m].order))
    else None
  }

  function ProcessOne(p: Progress, oid: OrderId, order: Order, e: Event, gateway: bool): Progress {
    if !p.ok then p
    else if IsFill(e) then
      match Target(p, oid, order, e)
      case None => p
      case Some((to, data)) =>
        Progress(Handled(p.s, to, data, e, !p.tradeSeen, gateway), p.acceptedSeen, p.tradeSeen || gateway, gateway)
    else match e
      case AcceptedEvent(_, _) =>
        if p.acceptedSeen then p
        else Progress(Handled(p.s, oid, order, e, true, gateway), gateway, p.tradeSeen, gateway)
      case FailedEvent(ts) => p.(s := SetStatus(p.s, oid, Rejected, ts))
      case CancelledEvent(_, _) =>
        Progress(Handled(p.s, oid, order, e, true, gateway), p.acceptedSeen, p.tradeSeen, gateway)
      case _ => p
  }

  function Process(s: State, oid: OrderId, order: Order, events: seq<Event>, gateway: nat -> bool): Progress {
    if events == [] then Progress(s, false, false, true) else
      ProcessOne(Process(s, oid, order, events[..|events| - 1], gateway), oid, order,
                 events[|events| - 1], gateway(|events| - 1))
  }

  // ----- the reverse index -----

  /** The index and the engine ids stored on the orders name each other. */
  ghost predicate IndexInv(s: State) {
    && s.engineToUser.Keys == s.engineToOrder.Keys
    && (forall e | e in s.engineToOrder ::
          && s.engineToOrder[e] in s.orders
          && s.orders[s.engineToOrder[e]].engineId == Some(e)
          && s.engineToUser[e] == s.orders[s.engineToOrder[e]].order.userId)
    && (forall o | o in s.orders && s.orders[o].engineId.Some? ::
          s.orders[o].engineId.value in s.engineToOrder && s.engineToOrder[s.orders[o].engineId.value] == o)
  }

  /** Accepting a not yet accepted order keeps the index exact precisely when the engine id is new. An id
      reused by another instrument's book would take over the other order's fills. */
  lemma AcceptKeepsIndexIff(s: State, oid: OrderId, id: nat, ts: int, isTaker: bool, gateway: bool)
    requires IndexInv(s) && oid in s.orders && s.orders[oid].engineId == None
    ensures IndexInv(Handled(s, oid, s.orders[oid].order, AcceptedEvent(id, ts), isTaker, gateway)) <==>
            id !in s.engineToOrder
  {
    var s' := Handled(s, oid, s.orders[oid].order, AcceptedEvent(id, ts), isTaker, gateway);
    if id in s.engineToOrder {
      var other := s.engineToOrder[id];
      assert other != oid;
      assert s'.orders[other].engineId == Some(id) && s'.engineToOrder[id] == oid;
    }
  }

  /** No event other than an acceptance touches the index, the engine ids or the order data. */
  ghost predicate SameIndex(s: State, s': State) {
    && s'.engineToOrder == s.engineToOrder && s'.engineToUser == s.engineToUser
    && s'.orders.Keys == s.orders.Keys
    && (forall o | o in s.orders :: s'.orders[o].engineId == s.orders[o].engineId
                                 && s'.orders[o].order == s.orders[o].order
                                 && s'.orders[o].qaOrderId == s.orders[o].qaOrderId)
  }

  lemma HandledSameIndex(s: State, oid: OrderId, order: Order, e: Event, isTaker: bool, gateway: bool)
    requires !e.AcceptedEvent?
    ensures SameIndex(s, Handled(s, oid, order, e, isTaker, gateway))
  {
  }

  lemma ProcessOneSameIndex(p: Progress, oid: OrderId, order: Order, e: Event, gateway: bool)
    requires e.AcceptedEvent? ==> p.acceptedSeen
    ensures SameIndex(p.s, ProcessOne(p, oid, order, e, gateway).s)
  {
    if IsFill(e) && p.ok {
      var t := Target(p, oid, order, e);
      if t.Some? {
        HandledSameIndex(p.s, t.value.0, t.value.1, e, !p.tradeSeen, gateway);
      }
    } else if e.CancelledEvent? {
      HandledSameIndex(p.s, oid, order, e, true, gateway);
    }
  }

  /** A batch for a fresh order: the engine accepts at most one id, first and unused so far. */
  ghost predicate FreshBatch(s: State, events: seq<Event>) {
    forall i | 0 <= i < |events| && events[i].AcceptedEvent? :: i == 0 && events[i].id !in s.engineToOrder
  }

  ghost predicate Pending(s: State, oid: OrderId, order: Order) {
    oid in s.orders && s.orders[oid].order == order && s.orders[oid].engineId == None
  }

  lemma FirstKeepsIndex(s: State, oid: OrderId, order: Order, e: Event, gateway: bool)
    requires IndexInv(s) && Pending(s, oid, order) && (e.AcceptedEvent? ==> e.id !in s.engineToOrder)
    ensures var s' := ProcessOne(Progress(s, false, false, true), oid, order, e, gateway).s;
            IndexInv(s') && (!e.AcceptedEvent? ==> SameIndex(s, s'))
  {
    var p := Progress(s, false, false, true);
    if e.AcceptedEvent? {
      AcceptKeepsIndexIff(s, oid, e.id, e.ts, true, gateway);
    } else {
      ProcessOneSameIndex(p, oid, order, e, gateway);
      SameIndexKeeps(s, ProcessOne(p, oid, order, e, gateway).s);
    }
  }

  lemma SameIndexKeeps(s: State, s': State)
    requires IndexInv(s) && SameIndex(s, s')
    ensures IndexInv(s')
  {
  }

  lemma SameIndexOn(s: State, mid: State, s': State)
    requires SameIndex(s, mid) && SameIndex(mid, s')
    ensures SameIndex(s, s')
  {
  }

  lemma {:induction false} ProcessKeepsIndex(s: State, oid: OrderId, order: Order, events: seq<Event>, gateway: nat -> bool)
    requires IndexInv(s) && Pending(s, oid, order) && FreshBatch(s, events)
    ensures IndexInv(Process(s, oid, order, events, gateway).s)
    ensures |events| == 0 || !events[0].AcceptedEvent? ==> SameIndex(s, Process(s, oid, order, events, gateway).s)
  {
    if |events| == 0 {
    } else if |events| == 1 {
      assert Process(s, oid, order, events[..0], gateway) == Progress(s, false, false, true);
      FirstKeepsIndex(s, oid, order, events[0], gateway(0));
    } else {
      var n := |events| - 1;
      assert FreshBatch(s, events[..n]) && !events[n].AcceptedEvent?;
      ProcessKeepsIndex(s, oid, order, events[..n], gateway);
      var p := Process(s, oid, order, events[..n], gateway);
      var p' := ProcessOne(p, oid, order, events[n], gateway(n));
      ProcessOneSameIndex(p, oid, order, events[n], gateway(n));
      SameIndexKeeps(p.s, p'.s);
      if !events[0].AcceptedEvent? {
        SameIndexOn(s, p.s, p'.s);
      }
    }
  }

  // ----- whole runs -----

  datatype Op =
    | SubmitOp(oid: OrderId, order: Order, qaOrderId: string, time: int, events: seq<Event>, gateway: nat -> bool)
    | CancelOp(oid: OrderId, account: UserId, events: seq<Event>)
    | RestoreOp(oid: OrderId, info: RouteInfo, answer: seq<Event>)

  /** The engine id of the first acceptance in an answer. */
  function FirstAccepted(answer: seq<Event>): Option<nat> {
    if answer == [] then None
    else if answer[0].AcceptedEvent? then Some(answer[0].id)
    else FirstAccepted(answer[1..])
  }

  function Inserted(s: State, oid: OrderId, order: Order, qaOrderId: string, time: int): State {
    s.(orders := s.orders[oid := RouteInfo(order, PendingRoute, time, time, 0.0, qaOrderId, None)])
  }

  function Submit(s: State, oid: OrderId, order: Order, qaOrderId: string, time: int,
                  events: seq<Event>, gateway: nat -> bool): State {
    var p := Process(Inserted(s, oid, order, qaOrderId, time), oid, order, events, gateway);
    if p.ok || oid !in p.s.orders then p.s
    else p.s.(orders := p.s.orders[oid := p.s.orders[oid].(status := Rejected)])
  }

  predicate Cancellable(s: State, oid: OrderId, account: UserId) {
    && oid in s.orders
    && s.orders[oid].order.userId == account
    && (s.orders[oid].status == Submitted || s.orders[oid].status == PartiallyFilled)
    && s.orders[oid].engineId.Some?
  }

  /** A cancel request is answered by cancellation, amendment or failure events; the first failure stops. */
  function CancelAll(s: State, oid: OrderId, order: Order, events: seq<Event>): State
    decreases |events|
  {
    if events == [] || events[0].FailedEvent? then s
    else CancelAll(Handled(s, oid, order, events[0], true, true), oid, order, events[1..])
  }

  function Perform(s: State, op: Op): State {
    match op
    case SubmitOp(oid, order, qa, time, events, gateway) => Submit(s, oid, order, qa, time, events, gateway)
    case CancelOp(oid, account, events) =>
      if Cancellable(s, oid, account) then CancelAll(s, oid, s.orders[oid].order, events) else s
    case RestoreOp(oid, info, answer) => if oid in s.orders then s else Restored(s, oid, info, FirstAccepted(answer))
  }

  /** A pending order is read back from its account and submitted again. Of the engine's answer only the first
      acceptance is used; fills in it are dropped. */
  function Restored(s: State, oid: OrderId, info: RouteInfo, id: Option<nat>): State {
    var s' := s.(orders := s.orders[oid := info.(engineId := id)]);
    if id.None? then s' else
      s'.(engineToOrder := s.engineToOrder[id.value := oid], engineToUser := s.engineToUser[id.value := info.order.userId])
  }

  /** What the engine and the id generator promise: new order ids, engine ids unique across instruments,
      and no acceptance in answer to a cancellation. */
  ghost predicate Promised(s: State, op: Op) {
    match op
    case SubmitOp(oid, _, _, _, events, _) => oid !in s.orders && FreshBatch(s, events)
    case CancelOp(_, _, events) => forall i | 0 <= i < |events| :: !events[i].AcceptedEvent?
    case RestoreOp(_, _, answer) => FirstAccepted(answer).Some? ==> FirstAccepted(answer).value !in s.engineToOrder
  }

  lemma {:induction false} CancelAllSameIndex(s: State, oid: OrderId, order: Order, events: seq<Event>)
    requires forall i | 0 <= i < |events| :: !events[i].AcceptedEvent?
    ensures SameIndex(s, CancelAll(s, oid, order, events))
    decreases |events|
  {
    if events == [] || events[0].FailedEvent? {
    } else {
      HandledSameIndex(s, oid, order, events[0], true, true);
      CancelAllSameIndex(Handled(s, oid, order, events[0], true, true), oid, order, events[1..]);
    }
  }

  lemma SubmitKeepsIndex(s: State, oid: OrderId, order: Order, qa: string, time: int, events: seq<Event>, gateway: nat -> bool)
    requires IndexInv(s) && oid !in s.orders && FreshBatch(s, events)
    ensures IndexInv(Submit(s, oid, order, qa, time, events, gateway))
  {
    var t := Inserted(s, oid, order, qa, time);
    InsertedKeepsIndex(s, oid, order, qa, time);
    assert FreshBatch(t, events);
    ProcessKeepsIndex(t, oid, order, events, gateway);
    var u := Process(t, oid, order, events, gateway).s;
    var v := Submit(s, oid, order, qa, time, events, gateway);
    assert SameIndex(u, v);
    SameIndexKeeps(u, v);
  }

  lemma InsertedKeepsIndex(s: State, oid: OrderId, order: Order, qa: string, time: int)
    requires IndexInv(s) && oid !in s.orders
    ensures IndexInv(Inserted(s, oid, order, qa, time)) && Pending(Inserted(s, oid, order, qa, time), oid, order)
  {
  }

  lemma RestoreKeepsIndex(s: State, oid: OrderId, info: RouteInfo, id: Option<nat>)
    requires IndexInv(s) && oid !in s.orders && (id.Some? ==> id.value !in s.engineToOrder)
    ensures IndexInv(Restored(s, oid, info, id))
  {
    if id.Some? {
      var s' := Restored(s, oid, info, id);
      assert forall e | e in s.engineToOrder :: e != id.value && s'.engineToOrder[e] == s.engineToOrder[e];
    }
  }

  lemma PerformKeepsIndex(s: State, op: Op)
    requires IndexInv(s) && Promised(s, op)
    ensures IndexInv(Perform(s, op))
  {
    match op
    case SubmitOp(oid, order, qa, time, events, gateway) =>
      SubmitKeepsIndex(s, oid, order, qa, time, events, gateway);
    case CancelOp(oid, account, events) =>
      if Cancellable(s, oid, account) {
        CancelAllSameIndex(s, oid, s.orders[oid].order, events);
        SameIndexKeeps(s, Perform(s, op));
      }
    case RestoreOp(oid, info, answer) =>
      if oid !in s.orders {
        RestoreKeepsIndex(s, oid, info, FirstAccepted(answer));
      }
  }

  ghost predicate Run(states: seq<State>, ops: seq<Op>) {
    && |states| == |ops| + 1
    && states[0] == EMPTY
    && forall i | 0 <= i < |ops| :: Promised(states[i], ops[i]) && states[i + 1] == Perform(states[i], ops[i])
  }

  /** In every reachable state the reverse index agrees with the engine ids stored on the orders. */
  lemma {:induction false} RunIndexExact(states: seq<State>, ops: seq<Op>, i: nat)
    requires Run(states, ops) && i < |states|
    ensures IndexInv(states[i])
  {
    if i == 0 {
    } else {
      RunIndexExact(states, ops, i - 1);
      assert Promised(states[i - 1], ops[i - 1]) && states[i] == Perform(states[i - 1], ops[i - 1]);
      PerformKeepsIndex(states[i - 1], ops[i - 1]);
    }
  }

  // ----- exactly-once delivery -----

  /** A sweep: the acceptance of a new id, then fills, the first of which is the taker's. */
  ghost predicate Sweep(s: State, events: seq<Event>) {
    && events != [] && events[0].AcceptedEvent? && events[0].id !in s.engineToOrder
    && (forall i | 0 < i < |events| :: IsFill(events[i]))
    && (|events| > 1 ==> events[1].orderId == events[0].id)
  }

  /** The fills that belong to managed orders. */
  function Managed(index: map<nat, OrderId>, fills: seq<Event>): seq<Event> {
    if fills == [] then [] else
      var init, last := fills[..|fills| - 1], fills[|fills| - 1];
      if IsFill(last) && last.orderId in index then Managed(index, init) + [last] else Managed(index, init)
  }

  /** `t` reports fill `e` to the order filed under the fill's engine id, with the counterparty looked up
      in the same index. */
  ghost predicate Reports(s: State, t: Trade, e: Event) {
    && IsFill(e) && e.orderId in s.engineToOrder && s.engineToOrder[e.orderId] in s.orders
    && t.orderId == s.engineToOrder[e.orderId]
    && s.orders[t.orderId].engineId == Some(e.orderId)
    && t.userId == s.orders[t.orderId].order.userId
    && t.engineId == e.orderId && t.price == e.price && t.volume == e.volume && t.opposite == e.opposite
    && t.oppositeOrder == Find(s.engineToOrder, e.opposite)
    && t.oppositeUser == Find(s.engineToUser, e.opposite)
    && t.qaOrderId == s.orders[t.orderId].qaOrderId
  }

  ghost predicate ReportsAll(s: State, ts: seq<Trade>, due: seq<Event>) {
    |ts| == |due| && forall i | 0 <= i < |due| :: Reports(s, ts[i], due[i])
  }

  /** Only the first trade of a sweep is flagged as the taker's. */
  ghost predicate FirstIsTaker(ts: seq<Trade>) {
    forall i | 0 <= i < |ts| :: ts[i].isTaker == (i == 0)
  }

  /** The trades of `s'` are those of `s` followed by one per managed fill, each to the right order. */
  ghost predicate Delivered(s: State, s': State, fills: seq<Event>) {
    var due := Managed(s'.engineToOrder, fills);
    && s.trades <= s'.trades
    && ReportsAll(s', s'.trades[|s.trades|..], due)
    && FirstIsTaker(s'.trades[|s.trades|..])
    && s'.stats.count == s.stats.count + |due|
  }

  lemma ManagedSnoc(index: map<nat, OrderId>, fills: seq<Event>, e: Event)
    ensures Managed(index, fills + [e]) ==
            if IsFill(e) && e.orderId in index then Managed(index, fills) + [e] else Managed(index, fills)
  {
    assert (fills + [e])[..|fills|] == fills;
  }

  lemma HandledReports(s: State, to: OrderId, e: Event, isTaker: bool)
    requires IndexInv(s) && IsFill(e) && e.orderId in s.engineToOrder && s.engineToOrder[e.orderId] == to
    ensures var s' := Handled(s, to, s.orders[to].order, e, isTaker, true);
      && SameIndex(s, s') && s'.stats.count == s.stats.count + 1
      && |s'.trades| == |s.trades| + 1 && s.trades <= s'.trades
      && Reports(s', s'.trades[|s.trades|], e) && s'.trades[|s.trades|].isTaker == isTaker
  {
  }

  lemma ReportsStable(s: State, s': State, ts: seq<Trade>, due: seq<Event>)
    requires SameIndex(s, s') && ReportsAll(s, ts, due)
    ensures ReportsAll(s', ts, due)
  {
    forall i | 0 <= i < |due|
      ensures Reports(s', ts[i], due[i])
    {
      assert Reports(s, ts[i], due[i]);
    }
  }

  lemma DeliverMore(s: State, p: State, p': State, fills: seq<Event>, e: Event, isTaker: bool)
    requires Delivered(s, p, fills) && SameIndex(p, p') && IsFill(e) && e.orderId in p.engineToOrder
    requires p'.stats.count == p.stats.count + 1 && |p'.trades| == |p.trades| + 1 && p.trades <= p'.trades
    requires Reports(p', p'.trades[|p.trades|], e) && p'.trades[|p.trades|].isTaker == isTaker
    requires isTaker <==> Managed(p.engineToOrder, fills) == []
    ensures Delivered(s, p', fills + [e])
  {
    var n, t := |s.trades|, p'.trades[|p.trades|];
    var due := Managed(p.engineToOrder, fills);
    ManagedSnoc(p.engineToOrder, fills, e);
    ReportsStable(p, p', p.trades[n..], due);
    TradesSnoc(s.trades, p.trades, p'.trades);
    ReportsSnoc(p', p.trades[n..], due, t, e);
  }

  lemma TradesSnoc(a: seq<Trade>, b: seq<Trade>, c: seq<Trade>)
    requires a <= b <= c && |c| == |b| + 1
    ensures a <= c && c[|a|..] == b[|a|..] + [c[|b|]]
  {
  }

  lemma ReportsSnoc(s: State, ts: seq<Trade>, due: seq<Event>, t: Trade, e: Event)
    requires ReportsAll(s, ts, due) && FirstIsTaker(ts) && Reports(s, t, e) && (t.isTaker <==> ts == [])
    ensures ReportsAll(s, ts + [t], due + [e]) && FirstIsTaker(ts + [t])
  {
  }

  lemma DeliverOne(s: State, p: Progress, oid: OrderId, order: Order, fills: seq<Event>, e: Event)
    requires p.ok && p.acceptedSeen && IndexInv(p.s) && IsFill(e)
    requires Delivered(s, p.s, fills)
    requires p.tradeSeen <==> fills != []
    requires fills != [] ==> Managed(p.s.engineToOrder, fills) != []
    requires fills == [] ==> e.orderId in p.s.engineToOrder && p.s.engineToOrder[e.orderId] == oid
                             && p.s.orders[oid].order == order
    ensures var p' := ProcessOne(p, oid, order, e, true);
      && p'.ok && p'.acceptedSeen && p'.tradeSeen && SameIndex(p.s, p'.s)
      && Delivered(s, p'.s, fills + [e]) && Managed(p'.s.engineToOrder, fills + [e]) != []
  {
    ManagedSnoc(p.s.engineToOrder, fills, e);
    if e.orderId in p.s.engineToOrder {
      var to := p.s.engineToOrder[e.orderId];
      FiledTarget(p, oid, order, e);
      HandledReports(p.s, to, e, !p.tradeSeen);
      DeliverMore(s, p.s, Handled(p.s, to, p.s.orders[to].order, e, !p.tradeSeen, true), fills, e, !p.tradeSeen);
    } else {
      assert ProcessOne(p, oid, order, e, true) == p;
    }
  }

  /** A fill filed under a managed order is handled for that order. */
  lemma FiledTarget(p: Progress, oid: OrderId, order: Order, e: Event)
    requires p.ok && IndexInv(p.s) && IsFill(e) && e.orderId in p.s.engineToOrder
    requires !p.tradeSeen ==> p.s.engineToOrder[e.orderId] == oid && p.s.orders[oid].order == order
    ensures var to := p.s.engineToOrder[e.orderId];
      && to in p.s.orders
      && ProcessOne(p, oid, order, e, true) ==
         Progress(Handled(p.s, to, p.s.orders[to].order, e, !p.tradeSeen, true), p.acceptedSeen, true, true)
  {
  }

  /** The index, the engine ids and the order data only grow. */
  ghost predicate Grows(s: State, s': State) {
    && (forall e | e in s.engineToOrder :: e in s'.engineToOrder && s'.engineToOrder[e] == s.engineToOrder[e])
    && (forall o | o in s.orders :: o in s'.orders
          && s'.orders[o].order == s.orders[o].order && s'.orders[o].qaOrderId == s.orders[o].qaOrderId
          && (s.orders[o].engineId.Some? ==> s'.orders[o].engineId == s.orders[o].engineId))
  }

  lemma GrowsOn(s: State, mid: State, s': State)
    requires Grows(s, mid) && Grows(mid, s')
    ensures Grows(s, s')
  {
  }

  ghost predicate SweepDone(s: State, p: Progress, oid: OrderId, order: Order, id: nat, fills: seq<Event>) {
    && p.ok && p.acceptedSeen && (p.tradeSeen <==> fills != [])
    && IndexInv(p.s) && oid in p.s.orders && p.s.orders[oid].order == order
    && p.s.engineToOrder == s.engineToOrder[id := oid] && p.s.orders.Keys == s.orders.Keys && Grows(s, p.s)
    && Delivered(s, p.s, fills)
    && (fills != [] ==> Managed(p.s.engineToOrder, fills) != [])
  }

  lemma {:induction false} ProcessSweep(s: State, oid: OrderId, order: Order, events: seq<Event>, gateway: nat -> bool)
    requires IndexInv(s) && Pending(s, oid, order) && Sweep(s, events)
    requires forall i | 0 <= i < |events| :: gateway(i)
    ensures SweepDone(s, Process(s, oid, order, events, gateway), oid, order, events[0].id, events[1..])
  {
    var n := |events| - 1;
    var init, last := events[..n], events[n];
    if n == 0 {
      assert init == [] && events[1..] == [];
      SweepStart(s, oid, order, last);
    } else {
      ProcessSweep(s, oid, order, init, gateway);
      assert events[1..] == init[1..] + [last];
      SweepMore(s, Process(s, oid, order, init, gateway), oid, order, events[0].id, init[1..], last);
    }
  }

  lemma SweepMore(s: State, p: Progress, oid: OrderId, order: Order, id: nat, fills: seq<Event>, e: Event)
    requires SweepDone(s, p, oid, order, id, fills) && IsFill(e)
    requires fills == [] ==> e.orderId == id
    ensures SweepDone(s, ProcessOne(p, oid, order, e, true), oid, order, id, fills + [e])
  {
    var p' := ProcessOne(p, oid, order, e, true);
    DeliverOne(s, p, oid, order, fills, e);
    SameIndexKeeps(p.s, p'.s);
    GrowsOn(s, p.s, p'.s);
  }

  lemma SweepStart(s: State, oid: OrderId, order: Order, e: Event)
    requires IndexInv(s) && Pending(s, oid, order) && e.AcceptedEvent? && e.id !in s.engineToOrder
    ensures var p := ProcessOne(Progress(s, false, false, true), oid, order, e, true);
      && p.ok && p.acceptedSeen && !p.tradeSeen
      && IndexInv(p.s) && oid in p.s.orders && p.s.orders[oid].order == order
      && p.s.engineToOrder == s.engineToOrder[e.id := oid] && p.s.orders.Keys == s.orders.Keys && Grows(s, p.s)
      && Delivered(s, p.s, [])
  {
    AcceptKeepsIndexIff(s, oid, e.id, e.ts, true, true);
    AcceptGrows(s, oid, order, e);
    SweepStartDelivers(s, Handled(s, oid, order, e, true, true));
  }

  lemma AcceptGrows(s: State, oid: OrderId, order: Order, e: Event)
    requires Pending(s, oid, order) && e.AcceptedEvent? && e.id !in s.engineToOrder
    ensures Grows(s, Handled(s, oid, order, e, true, true))
  {
  }

  lemma SweepStartDelivers(s: State, s': State)
    requires s'.trades == s.trades && s'.stats == s.stats
    ensures Delivered(s, s', [])
  {
    assert s'.trades[|s.trades|..] == [];
  }

  /** Under the engine's contract every fill event of a managed order is applied exactly once, to the order
      whose stored engine id it names, over multi-maker sweeps, in any reachable state. */
  lemma SubmitDelivers(states: seq<State>, ops: seq<Op>, i: nat, oid: OrderId, order: Order, qa: string, time: int,
                       events: seq<Event>, gateway: nat -> bool)
    requires Run(states, ops) && i < |states| && oid !in states[i].orders
    requires Sweep(states[i], events) && forall k | 0 <= k < |events| :: gateway(k)
    ensures var s' := Submit(states[i], oid, order, qa, time, events, gateway);
            IndexInv(s') && Delivered(states[i], s', events[1..])
  {
    RunIndexExact(states, ops, i);
    InsertedKeepsIndex(states[i], oid, order, qa, time);
    ProcessSweep(Inserted(states[i], oid, order, qa, time), oid, order, events, gateway);
  }

  /** The first fill of a batch is reported to the submitted order whatever engine id it carries, so it
      reaches the right order exactly when the engine does emit the taker's fill first. */
  lemma FirstFillIff(p: Progress, oid: OrderId, order: Order, e: Event)
    requires p.ok && !p.tradeSeen && IsFill(e) && IndexInv(p.s)
    requires e.orderId in p.s.engineToOrder && oid in p.s.orders && p.s.orders[oid].order == order
    ensures var p' := ProcessOne(p, oid, order, e, true);
      && |p'.s.trades| == |p.s.trades| + 1
      && (Reports(p'.s, p'.s.trades[|p.s.trades|], e) <==> p.s.engineToOrder[e.orderId] == oid)
  {
  }

  // ----- the fills of one order -----

  /** The fills filed under one order. */
  function FillsFor(index: map<nat, OrderId>, fills: seq<Event>, o: OrderId): seq<Event> {
    if fills == [] then [] else
      var init, last := fills[..|fills| - 1], fills[|fills| - 1];
      if IsFill(last) && last.orderId in index && index[last.orderId] == o then FillsFor(index, init, o) + [last]
      else FillsFor(index, init, o)
  }

  lemma FillsForSnoc(index: map<nat, OrderId>, fills: seq<Event>, e: Event, o: OrderId)
    ensures FillsFor(index, fills + [e], o) ==
            if IsFill(e) && e.orderId in index && index[e.orderId] == o then FillsFor(index, fills, o) + [e]
            else FillsFor(index, fills, o)
  {
    assert (fills + [e])[..|fills|] == fills;
  }

  lemma {:induction false} FillsForConcat(index: map<nat, OrderId>, a: seq<Event>, b: seq<Event>, o: OrderId)
    ensures FillsFor(index, a + b, o) == FillsFor(index, a, o) + FillsFor(index, b, o)
  {
    if b == [] {
      assert a + b == a;
    } else {
      FillsForConcat(index, a, b[..|b| - 1], o);
      assert (a + b)[..|a + b| - 1] == a + b[..|b| - 1];
    }
  }

  /** Dropping the fills of unmanaged orders drops none of a managed one. */
  lemma {:induction false} FillsForManaged(index: map<nat, OrderId>, fills: seq<Event>, o: OrderId)
    ensures FillsFor(index, Managed(index, fills), o) == FillsFor(index, fills, o)
  {
    if fills == [] {
    } else {
      var init, last := fills[..|fills| - 1], fills[|fills| - 1];
      FillsForManaged(index, init, o);
      FillsForSnoc(index, Managed(index, init), last, o);
    }
  }

  ghost predicate AllFiled(index: map<nat, OrderId>, fills: seq<Event>) {
    forall i | 0 <= i < |fills| :: IsFill(fills[i]) && fills[i].orderId in index
  }

  lemma {:induction false} FillsForGrows(index: map<nat, OrderId>, index': map<nat, OrderId>, fills: seq<Event>, o: OrderId)
    requires AllFiled(index, fills)
    requires forall e | e in index :: e in index' && index'[e] == index[e]
    ensures FillsFor(index', fills, o) == FillsFor(index, fills, o)
  {
    if fills == [] {
    } else {
      FillsForGrows(index, index', fills[..|fills| - 1], o);
    }
  }

  lemma {:induction false} NoFillsFor(index: map<nat, OrderId>, fills: seq<Event>, o: OrderId)
    requires forall e | e in index :: index[e] != o
    ensures FillsFor(index, fills, o) == []
  {
    if fills == [] {
    } else {
      NoFillsFor(index, fills[..|fills| - 1], o);
    }
  }

  // ----- what a sweep leaves in the trade recorder -----

  /** Trades flagged as the taker's: only these are recorded. */
  function Recorded(trades: seq<Trade>): nat {
    if trades == [] then 0 else
      Recorded(trades[..|trades| - 1]) + if trades[|trades| - 1].isTaker then 1 else 0
  }

  /** Trades of one order. */
  function TradesOf(trades: seq<Trade>, oid: OrderId): nat {
    if trades == [] then 0 else
      TradesOf(trades[..|trades| - 1], oid) + if trades[|trades| - 1].orderId == oid then 1 else 0
  }

  /** The fills among some events that carry an engine id. */
  function FillsWith(events: seq<Event>, id: nat): seq<Event> {
    if events == [] then [] else
      var init, last := events[..|events| - 1], events[|events| - 1];
      if IsFill(last) && last.orderId == id then FillsWith(init, id) + [last] else FillsWith(init, id)
  }

  lemma {:induction false} OnlyFirstRecorded(trades: seq<Trade>)
    requires FirstIsTaker(trades)
    ensures Recorded(trades) == if trades == [] then 0 else 1
  {
    if trades == [] {
    } else {
      OnlyFirstRecorded(trades[..|trades| - 1]);
    }
  }

  lemma {:induction false} FillsForIsWith(index: map<nat, OrderId>, fills: seq<Event>, o: OrderId, id: nat)
    requires forall e :: e in index && index[e] == o <==> e == id
    ensures FillsFor(index, fills, o) == FillsWith(fills, id)
  {
    if fills == [] {
    } else {
      FillsForIsWith(index, fills[..|fills| - 1], o, id);
    }
  }

  lemma {:induction false} FirstCounts(events: seq<Event>, id: nat)
    requires events != [] && IsFill(events[0]) && events[0].orderId == id
    ensures |FillsWith(events, id)| >= 1
  {
    if |events| == 1 {
      assert events[..0] == [];
    } else {
      FirstCounts(events[..|events| - 1], id);
    }
  }

  lemma {:induction false} ReportsCount(s: State, ts: seq<Trade>, due: seq<Event>, o: OrderId)
    requires AppliedAll(s, ts, due)
    ensures TradesOf(ts, o) == |FillsFor(s.engineToOrder, due, o)|
  {
    if ts == [] {
    } else {
      var n := |ts| - 1;
      ReportsCount(s, ts[..n], due[..n], o);
      assert Applied(s, ts[n], due[n]);
    }
  }

  /** A submitted sweep reports every fill event that carries the accepted engine id to the submitted order,
      but records only the first: the recorder is complete exactly when there is at most one such event. */
  lemma RecorderCompleteIff(states: seq<State>, ops: seq<Op>, i: nat, oid: OrderId, order: Order, qa: string, time: int,
                            events: seq<Event>, gateway: nat -> bool)
    requires Run(states, ops) && i < |states| && oid !in states[i].orders
    requires Sweep(states[i], events) && forall k | 0 <= k < |events| :: gateway(k)
    ensures var s' := Submit(states[i], oid, order, qa, time, events, gateway);
            var own := |FillsWith(events[1..], events[0].id)|;
      && states[i].trades <= s'.trades
      && TradesOf(s'.trades[|states[i].trades|..], oid) == own
      && (Recorded(s'.trades[|states[i].trades|..]) == own <==> own <= 1)
  {
    var s, t := states[i], Inserted(states[i], oid, order, qa, time);
    RunIndexExact(states, ops, i);
    InsertedKeepsIndex(s, oid, order, qa, time);
    ProcessSweep(t, oid, order, events, gateway);
    var p := Process(t, oid, order, events, gateway);
    SweepRecorded(t, p, oid, order, events);
  }

  lemma SweepRecorded(s: State, p: Progress, oid: OrderId, order: Order, events: seq<Event>)
    requires Pending(s, oid, order) && IndexInv(s)
    requires Sweep(s, events) && SweepDone(s, p, oid, order, events[0].id, events[1..])
    ensures var own, added := |FillsWith(events[1..], events[0].id)|, p.s.trades[|s.trades|..];
      && TradesOf(added, oid) == own && Recorded(added) == (if own == 0 then 0 else 1)
      && (own == 0 <==> |events| == 1)
  {
    var index, id, fills := p.s.engineToOrder, events[0].id, events[1..];
    var due, added := Managed(index, fills), p.s.trades[|s.trades|..];
    AppliedReports(p.s, added, due);
    ReportsCount(p.s, added, due, oid);
    FillsForManaged(index, fills, oid);
    assert forall e | e in s.engineToOrder :: s.engineToOrder[e] != oid;
    FillsForIsWith(index, fills, oid, id);
    OnlyFirstRecorded(added);
    if fills == [] {
      assert due == [];
    } else {
      assert fills[0] == events[1];
      FirstCounts(fills, id);
    }
  }

  // ----- delivery over a whole run -----

  /** What stays true of a report while the index grows: it went to the order filed under the fill's engine id. */
  ghost predicate Applied(s: State, t: Trade, e: Event) {
    && IsFill(e) && e.orderId in s.engineToOrder && s.engineToOrder[e.orderId] in s.orders
    && t.orderId == s.engineToOrder[e.orderId]
    && s.orders[t.orderId].engineId == Some(e.orderId)
    && t.userId == s.orders[t.orderId].order.userId && t.qaOrderId == s.orders[t.orderId].qaOrderId
    && t.engineId == e.orderId && t.price == e.price && t.volume == e.volume && t.opposite == e.opposite
  }

  ghost predicate AppliedAll(s: State, ts: seq<Trade>, due: seq<Event>) {
    |ts| == |due| && forall i | 0 <= i < |due| :: Applied(s, ts[i], due[i])
  }

  lemma AppliedReports(s: State, ts: seq<Trade>, due: seq<Event>)
    requires ReportsAll(s, ts, due)
    ensures AppliedAll(s, ts, due)
  {
    forall i | 0 <= i < |due|
      ensures Applied(s, ts[i], due[i])
    {
      assert Reports(s, ts[i], due[i]);
    }
  }

  lemma AppliedStable(s: State, s': State, ts: seq<Trade>, due: seq<Event>)
    requires Grows(s, s') && AppliedAll(s, ts, due)
    ensures AppliedAll(s', ts, due)
  {
    forall i | 0 <= i < |due|
      ensures Applied(s', ts[i], due[i])
    {
      assert Applied(s, ts[i], due[i]);
    }
  }

  lemma AppliedConcat(s: State, ts: seq<Trade>, us: seq<Trade>, due: seq<Event>, more: seq<Event>)
    requires AppliedAll(s, ts, due) && AppliedAll(s, us, more)
    ensures AppliedAll(s, ts + us, due + more)
  {
  }

  lemma AppliedAreFiled(s: State, ts: seq<Trade>, due: seq<Event>)
    requires AppliedAll(s, ts, due)
    ensures AllFiled(s.engineToOrder, due)
  {
    forall i | 0 <= i < |due|
      ensures IsFill(due[i]) && due[i].orderId in s.engineToOrder
    {
      assert Applied(s, ts[i], due[i]);
    }
  }

  /** The engine's contract and working gateways: submissions are answered by sweeps, cancellations by neither
      acceptances nor fills. */
  ghost predicate Contract(s: State, op: Op) {
    match op
    case SubmitOp(_, _, _, _, events, gateway) => Sweep(s, events) && forall k | 0 <= k < |events| :: gateway(k)
    case CancelOp(_, _, events) => forall k | 0 <= k < |events| :: !events[k].AcceptedEvent? && !IsFill(events[k])
    case RestoreOp(_, _, _) => true
  }

  ghost predicate ContractRun(states: seq<State>, ops: seq<Op>) {
    Run(states, ops) && forall i | 0 <= i < |ops| :: Contract(states[i], ops[i])
  }

  /** The fill events of a submission. */
  function Fills(op: Op): seq<Event> {
    if op.SubmitOp? && op.events != [] then op.events[1..] else []
  }

  /** The managed fills of the submissions of a run, in order. */
  function RunDue(states: seq<State>, ops: seq<Op>, n: nat): seq<Event>
    requires n <= |ops| && |states| == |ops| + 1
  {
    if n == 0 then [] else RunDue(states, ops, n - 1) + Managed(states[n].engineToOrder, Fills(ops[n - 1]))
  }

  lemma RunStep(states: seq<State>, ops: seq<Op>, n: nat)
    requires ContractRun(states, ops) && n < |ops|
    ensures Contract(states[n], ops[n]) && Promised(states[n], ops[n]) && states[n + 1] == Perform(states[n], ops[n])
    ensures IndexInv(states[n]) && IndexInv(states[n + 1])
  {
    RunIndexExact(states, ops, n);
    RunIndexExact(states, ops, n + 1);
  }

  /** One step of a run: the books only grow, and the trades grow by one per managed fill of a submission. */
  ghost predicate StepDelivers(s: State, op: Op, s': State) {
    && Grows(s, s') && s.trades <= s'.trades
    && AppliedAll(s', s'.trades[|s.trades|..], Managed(s'.engineToOrder, Fills(op)))
  }

  lemma SubmitStep(s: State, op: Op)
    requires op.SubmitOp? && IndexInv(s) && Promised(s, op) && Contract(s, op)
    ensures StepDelivers(s, op, Perform(s, op))
    ensures Perform(s, op).engineToOrder == s.engineToOrder[op.events[0].id := op.oid]
    ensures Perform(s, op).orders.Keys == s.orders.Keys + {op.oid}
  {
    var t := Inserted(s, op.oid, op.order, op.qaOrderId, op.time);
    InsertedKeepsIndex(s, op.oid, op.order, op.qaOrderId, op.time);
    ProcessSweep(t, op.oid, op.order, op.events, op.gateway);
    InsertedGrows(s, t, op);
    SweepStep(t, Process(t, op.oid, op.order, op.events, op.gateway), op);
    GrowsOn(s, t, Perform(s, op));
  }

  lemma InsertedGrows(s: State, t: State, op: Op)
    requires op.SubmitOp? && Promised(s, op) && t == Inserted(s, op.oid, op.order, op.qaOrderId, op.time)
    ensures Grows(s, t) && t.trades == s.trades && t.engineToOrder == s.engineToOrder && t.orders.Keys == s.orders.Keys + {op.oid}
  {
  }

  lemma SweepStep(t: State, p: Progress, op: Op)
    requires op.SubmitOp? && op.events != [] && op.events[0].AcceptedEvent?
    requires SweepDone(t, p, op.oid, op.order, op.events[0].id, op.events[1..])
    ensures StepDelivers(t, op, p.s)
  {
    AppliedReports(p.s, p.s.trades[|t.trades|..], Managed(p.s.engineToOrder, op.events[1..]));
  }

  lemma {:induction false} CancelAllNoTrades(s: State, oid: OrderId, order: Order, events: seq<Event>)
    requires forall k | 0 <= k < |events| :: !events[k].AcceptedEvent? && !IsFill(events[k])
    ensures var s' := CancelAll(s, oid, order, events);
      && s'.trades == s.trades && s'.stats == s.stats && s'.orders.Keys == s.orders.Keys
      && forall o | o in s.orders :: s'.orders[o].filledVolume == s.orders[o].filledVolume
    decreases |events|
  {
    if events == [] || events[0].FailedEvent? {
    } else {
      CancelAllNoTrades(Handled(s, oid, order, events[0], true, true), oid, order, events[1..]);
    }
  }

  lemma CancelStep(s: State, op: Op)
    requires op.CancelOp? && Contract(s, op)
    ensures SameIndex(s, Perform(s, op)) && Perform(s, op).trades == s.trades && Perform(s, op).stats == s.stats
    ensures forall o | o in s.orders :: Perform(s, op).orders[o].filledVolume == s.orders[o].filledVolume
  {
    if Cancellable(s, op.oid, op.account) {
      CancelAllSameIndex(s, op.oid, s.orders[op.oid].order, op.events);
      CancelAllNoTrades(s, op.oid, s.orders[op.oid].order, op.events);
    }
  }

  /** Restoring touches no other order and reports nothing, whatever fills the engine answers with. */
  lemma RestoreStep(s: State, op: Op)
    requires op.RestoreOp? && Promised(s, op)
    ensures var s' := Perform(s, op);
      && Grows(s, s') && s'.trades == s.trades && s'.stats == s.stats
      && forall o | o in s.orders :: s'.orders[o] == s.orders[o]
  {
  }

  lemma StepKeepsDelivery(s: State, op: Op)
    requires IndexInv(s) && Promised(s, op) && Contract(s, op)
    ensures StepDelivers(s, op, Perform(s, op))
  {
    if op.SubmitOp? {
      SubmitStep(s, op);
    } else {
      assert Fills(op) == [];
      if op.CancelOp? {
        CancelStep(s, op);
      } else {
        RestoreStep(s, op);
      }
    }
  }

  /** Over whole runs every managed fill of every submission is reported exactly once, in order, to the order
      filed under its engine id, and nothing else is reported. */
  lemma {:induction false} RunDelivers(states: seq<State>, ops: seq<Op>, n: nat)
    requires ContractRun(states, ops) && n <= |ops|
    ensures AppliedAll(states[n], states[n].trades, RunDue(states, ops, n))
  {
    if n == 0 {
    } else {
      var s, s' := states[n - 1], states[n];
      RunDelivers(states, ops, n - 1);
      RunStep(states, ops, n - 1);
      StepKeepsDelivery(s, ops[n - 1]);
      AppliedStable(s, s', s.trades, RunDue(states, ops, n - 1));
      assert s'.trades == s.trades + s'.trades[|s.trades|..];
      AppliedConcat(s', s.trades, s'.trades[|s.trades|..], RunDue(states, ops, n - 1),
                    Managed(s'.engineToOrder, Fills(ops[n - 1])));
    }
  }

  /** All fills of one order over a run. */
  function RunFills(states: seq<State>, ops: seq<Op>, n: nat, o: OrderId): seq<Event>
    requires n <= |ops| && |states| == |ops| + 1
  {
    FillsFor(states[n].engineToOrder, RunDue(states, ops, n), o)
  }

  /** Each order has exactly as many trades as fills. */
  lemma RunTradesOf(states: seq<State>, ops: seq<Op>, n: nat, o: OrderId)
    requires ContractRun(states, ops) && n <= |ops|
    ensures TradesOf(states[n].trades, o) == |RunFills(states, ops, n, o)|
  {
    RunDelivers(states, ops, n);
    ReportsCount(states[n], states[n].trades, RunDue(states, ops, n), o);
  }

  /** The managed fills in the answer to a restored order. */
  function Dropped(s': State, op: Op): seq<Event> {
    if op.RestoreOp? then Managed(s'.engineToOrder, op.answer) else []
  }

  function DroppedCount(states: seq<State>, ops: seq<Op>, n: nat): nat
    requires n <= |ops| && |states| == |ops| + 1
  {
    if n == 0 then 0 else DroppedCount(states, ops, n - 1) + |Dropped(states[n], ops[n - 1])|
  }

  /** The number of fills the engine emitted for managed orders, those in answers to restored orders included. */
  function Emitted(states: seq<State>, ops: seq<Op>, n: nat): nat
    requires n <= |ops| && |states| == |ops| + 1
  {
    |RunDue(states, ops, n)| + DroppedCount(states, ops, n)
  }

  ghost predicate DropsNothing(states: seq<State>, ops: seq<Op>, k: nat)
    requires k < |ops| && |states| == |ops| + 1
  {
    |Dropped(states[k + 1], ops[k])| == 0
  }

  ghost predicate NothingDropped(states: seq<State>, ops: seq<Op>, n: nat)
    requires n <= |ops| && |states| == |ops| + 1
  {
    forall k | 0 <= k < n :: DropsNothing(states, ops, k)
  }

  lemma {:induction false} DroppedCountZero(states: seq<State>, ops: seq<Op>, n: nat)
    requires n <= |ops| && |states| == |ops| + 1
    ensures DroppedCount(states, ops, n) == 0 <==> NothingDropped(states, ops, n)
  {
    if n == 0 {
    } else {
      DroppedCountZero(states, ops, n - 1);
      assert DropsNothing(states, ops, n - 1) <==> |Dropped(states[n], ops[n - 1])| == 0;
    }
  }

  /** Every managed fill that the engine emits is reported exactly when no answer to a restored order holds one:
      restoring resubmits the order but looks only for its acceptance. */
  lemma AllReportedIff(states: seq<State>, ops: seq<Op>, n: nat)
    requires ContractRun(states, ops) && n <= |ops|
    ensures |states[n].trades| == Emitted(states, ops, n) <==> NothingDropped(states, ops, n)
  {
    RunDelivers(states, ops, n);
    DroppedCountZero(states, ops, n);
  }

  // ----- the filled volume -----

  /** The volume that a list of fills leaves behind: `Filled` assigns, `PartiallyFilled` adds. */
  function VolumeAfter(start: real, fills: seq<Event>): real {
    if fills == [] then start else
      var last := fills[|fills| - 1];
      if last.FilledEvent? then last.volume
      else if last.PartialEvent? then VolumeAfter(start, fills[..|fills| - 1]) + last.volume
      else VolumeAfter(start, fills[..|fills| - 1])
  }

  function TotalVolume(fills: seq<Event>): real {
    if fills == [] then 0.0 else
      TotalVolume(fills[..|fills| - 1]) + if IsFill(fills[|fills| - 1]) then fills[|fills| - 1].volume else 0.0
  }

  lemma VolumeSnoc(start: real, fills: seq<Event>, e: Event)
    requires IsFill(e)
    ensures VolumeAfter(start, fills + [e]) == if e.FilledEvent? then e.volume else VolumeAfter(start, fills) + e.volume
  {
    assert (fills + [e])[..|fills|] == fills;
  }

  lemma {:induction false} VolumeConcat(start: real, a: seq<Event>, b: seq<Event>)
    ensures VolumeAfter(start, a + b) == VolumeAfter(VolumeAfter(start, a), b)
  {
    if b == [] {
      assert a + b == a;
    } else {
      VolumeConcat(start, a, b[..|b| - 1]);
      assert (a + b)[..|a + b| - 1] == a + b[..|b| - 1];
    }
  }

  ghost predicate VolumesFollow(s: State, s': State, fills: seq<Event>) {
    s'.orders.Keys == s.orders.Keys &&
    forall o | o in s'.orders ::
      s'.orders[o].filledVolume == VolumeAfter(s.orders[o].filledVolume, FillsFor(s'.engineToOrder, fills, o))
  }

  lemma VolumeOne(s: State, p: Progress, oid: OrderId, order: Order, fills: seq<Event>, e: Event)
    requires p.ok && IndexInv(p.s) && IsFill(e) && VolumesFollow(s, p.s, fills)
    requires !p.tradeSeen ==> e.orderId in p.s.engineToOrder && p.s.engineToOrder[e.orderId] == oid
    ensures VolumesFollow(s, ProcessOne(p, oid, order, e, true).s, fills + [e])
  {
    var s' := ProcessOne(p, oid, order, e, true).s;
    OnlyTargetMoves(p, oid, order, e);
    forall o | o in s'.orders
      ensures s'.orders[o].filledVolume == VolumeAfter(s.orders[o].filledVolume, FillsFor(s'.engineToOrder, fills + [e], o))
    {
      FillsForSnoc(p.s.engineToOrder, fills, e, o);
      VolumeSnoc(s.orders[o].filledVolume, FillsFor(p.s.engineToOrder, fills, o), e);
    }
  }

  /** A fill moves the filled volume of the order filed under its engine id and of no other. */
  lemma OnlyTargetMoves(p: Progress, oid: OrderId, order: Order, e: Event)
    requires p.ok && IndexInv(p.s) && IsFill(e)
    requires !p.tradeSeen ==> e.orderId in p.s.engineToOrder && p.s.engineToOrder[e.orderId] == oid
    ensures var s' := ProcessOne(p, oid, order, e, true).s;
      && s'.orders.Keys == p.s.orders.Keys && s'.engineToOrder == p.s.engineToOrder
      && forall o | o in s'.orders ::
           s'.orders[o].filledVolume ==
           if e.orderId in p.s.engineToOrder && p.s.engineToOrder[e.orderId] == o
           then (if e.FilledEvent? then e.volume else p.s.orders[o].filledVolume + e.volume)
           else p.s.orders[o].filledVolume
  {
    var t := Target(p, oid, order, e);
    if t.Some? {
      HandledMoves(p.s, t.value.0, t.value.1, e, !p.tradeSeen);
    }
  }

  lemma HandledMoves(s: State, to: OrderId, order: Order, e: Event, isTaker: bool)
    requires IsFill(e)
    ensures var s' := Handled(s, to, order, e, isTaker, true);
      && s'.orders.Keys == s.orders.Keys && s'.engineToOrder == s.engineToOrder
      && forall o | o in s'.orders ::
           s'.orders[o].filledVolume ==
           if o == to then (if e.FilledEvent? then e.volume else s.orders[o].filledVolume + e.volume)
           else s.orders[o].filledVolume
  {
  }

  lemma ProcessLast(s: State, oid: OrderId, order: Order, events: seq<Event>, gateway: nat -> bool)
    requires events != [] && gateway(|events| - 1)
    ensures Process(s, oid, order, events, gateway) ==
            ProcessOne(Process(s, oid, order, events[..|events| - 1], gateway), oid, order, events[|events| - 1], true)
  {
  }

  /** After a sweep each order's filled volume is what its own fills, and no others, make it. */
  lemma {:induction false} SweepVolumes(s: State, oid: OrderId, order: Order, events: seq<Event>, gateway: nat -> bool)
    requires IndexInv(s) && Pending(s, oid, order) && Sweep(s, events)
    requires forall i | 0 <= i < |events| :: gateway(i)
    ensures VolumesFollow(s, Process(s, oid, order, events, gateway).s, events[1..])
  {
    var n := |events| - 1;
    var init, last := events[..n], events[n];
    ProcessLast(s, oid, order, events, gateway);
    if n == 0 {
      assert init == [] && events[1..] == [];
      VolumesStart(s, oid, order, last);
    } else {
      SweepVolumes(s, oid, order, init, gateway);
      ProcessSweep(s, oid, order, init, gateway);
      VolumesNext(s, Process(s, oid, order, init, gateway), oid, order, events);
    }
  }

  lemma VolumesNext(s: State, p: Progress, oid: OrderId, order: Order, events: seq<Event>)
    requires Sweep(s, events) && |events| > 1
    requires SweepDone(s, p, oid, order, events[0].id, events[..|events| - 1][1..])
    requires VolumesFollow(s, p.s, events[..|events| - 1][1..])
    ensures VolumesFollow(s, ProcessOne(p, oid, order, events[|events| - 1], true).s, events[1..])
  {
    var init, last := events[..|events| - 1], events[|events| - 1];
    assert events[1..] == init[1..] + [last];
    VolumesMore(s, p, oid, order, events[0].id, init[1..], last);
  }

  lemma VolumesMore(s: State, p: Progress, oid: OrderId, order: Order, id: nat, fills: seq<Event>, e: Event)
    requires SweepDone(s, p, oid, order, id, fills) && IsFill(e) && VolumesFollow(s, p.s, fills)
    requires fills == [] ==> e.orderId == id
    ensures VolumesFollow(s, ProcessOne(p, oid, order, e, true).s, fills + [e])
  {
    VolumeOne(s, p, oid, order, fills, e);
  }

  lemma VolumesStart(s: State, oid: OrderId, order: Order, e: Event)
    requires e.AcceptedEvent?
    ensures VolumesFollow(s, ProcessOne(Progress(s, false, false, true), oid, order, e, true).s, [])
  {
  }

  /** The filled volume an order has when it enters the books: none when submitted, what its account says when
      restored. */
  function StartVolume(states: seq<State>, ops: seq<Op>, n: nat, o: OrderId): real
    requires n <= |ops| && |states| == |ops| + 1
  {
    if n == 0 then 0.0
    else if o in states[n - 1].orders then StartVolume(states, ops, n - 1, o)
    else if ops[n - 1].RestoreOp? && ops[n - 1].oid == o then ops[n - 1].info.filledVolume
    else 0.0
  }

  /** The filled volume of one order follows from its own fills over the run. */
  ghost predicate VolumeFollows(states: seq<State>, ops: seq<Op>, n: nat, o: OrderId)
    requires n <= |ops| && |states| == |ops| + 1
  {
    o in states[n].orders ==>
      states[n].orders[o].filledVolume == VolumeAfter(StartVolume(states, ops, n, o), RunFills(states, ops, n, o))
  }

  lemma RunFillsStep(states: seq<State>, ops: seq<Op>, n: nat, o: OrderId)
    requires ContractRun(states, ops) && n < |ops|
    ensures RunFills(states, ops, n + 1, o) ==
            RunFills(states, ops, n, o) + FillsFor(states[n + 1].engineToOrder, Fills(ops[n]), o)
  {
    var index, index' := states[n].engineToOrder, states[n + 1].engineToOrder;
    var due := RunDue(states, ops, n);
    RunStep(states, ops, n);
    StepKeepsDelivery(states[n], ops[n]);
    RunDelivers(states, ops, n);
    AppliedAreFiled(states[n], states[n].trades, due);
    FillsForConcat(index', due, Managed(index', Fills(ops[n])), o);
    FillsForGrows(index, index', due, o);
    FillsForManaged(index', Fills(ops[n]), o);
  }

  /** The volumes after one operation, in terms of those before it and of the operation's own fills. */
  lemma StepVolumes(s: State, op: Op, o: OrderId)
    requires IndexInv(s) && Promised(s, op) && Contract(s, op) && o in Perform(s, op).orders
    ensures var start := if o in s.orders then s.orders[o].filledVolume
                         else if op.RestoreOp? && op.oid == o then op.info.filledVolume else 0.0;
            Perform(s, op).orders[o].filledVolume == VolumeAfter(start, FillsFor(Perform(s, op).engineToOrder, Fills(op), o))
  {
    if op.SubmitOp? {
      var t := Inserted(s, op.oid, op.order, op.qaOrderId, op.time);
      InsertedKeepsIndex(s, op.oid, op.order, op.qaOrderId, op.time);
      ProcessSweep(t, op.oid, op.order, op.events, op.gateway);
      SweepVolumes(t, op.oid, op.order, op.events, op.gateway);
    } else {
      assert Fills(op) == [];
      if op.CancelOp? {
        CancelStep(s, op);
      } else {
        RestoreStep(s, op);
      }
    }
  }

  /** Over whole runs each order's filled volume is what its start and its own fills make it, also when it is
      filled in several submissions. */
  lemma {:induction false} RunVolumes(states: seq<State>, ops: seq<Op>, n: nat, o: OrderId)
    requires ContractRun(states, ops) && n <= |ops|
    ensures VolumeFollows(states, ops, n, o)
  {
    if n == 0 {
    } else {
      RunVolumes(states, ops, n - 1, o);
      RunStep(states, ops, n - 1);
      RunFillsStep(states, ops, n - 1, o);
      var before, more := RunFills(states, ops, n - 1, o), FillsFor(states[n].engineToOrder, Fills(ops[n - 1]), o);
      if o in states[n].orders {
        StepVolumes(states[n - 1], ops[n - 1], o);
        VolumeConcat(StartVolume(states, ops, n, o), before, more);
        if o !in states[n - 1].orders {
          NoFillsFor(states[n - 1].engineToOrder, RunDue(states, ops, n - 1), o);
        }
      }
    }
  }

  /** What had been filled before the last `Filled` event, which overwrites it. */
  function Overwritten(start: real, fills: seq<Event>): real {
    if fills == [] then 0.0
    else
      var init, last := fills[..|fills| - 1], fills[|fills| - 1];
      if last.FilledEvent? then start + TotalVolume(init) else Overwritten(start, init)
  }

  lemma {:induction false} OverwrittenIs(start: real, fills: seq<Event>)
    ensures VolumeAfter(start, fills) + Overwritten(start, fills) == start + TotalVolume(fills)
  {
    if fills == [] {
    } else {
      OverwrittenIs(start, fills[..|fills| - 1]);
    }
  }

  /** Read off the events: the last `Filled` event, if any, overwrites everything before it. */
  lemma {:induction false} OverwrittenMeaning(start: real, fills: seq<Event>, k: nat)
    requires k < |fills| ==> fills[k].FilledEvent?
    requires forall j | k < j < |fills| :: !fills[j].FilledEvent?
    requires k >= |fills| ==> forall j | 0 <= j < |fills| :: !fills[j].FilledEvent?
    ensures Overwritten(start, fills) == if k < |fills| then start + TotalVolume(fills[..k]) else 0.0
  {
    if fills == [] {
    } else {
      var n := |fills| - 1;
      if k != n {
        OverwrittenMeaning(start, fills[..n], k);
        assert k < n ==> fills[..n][..k] == fills[..k];
      }
    }
  }

  /** In every run an order's filled volume is its start plus the sum of its fills exactly when nothing had been
      filled before its last `Filled` event. */
  lemma FilledVolumeIff(states: seq<State>, ops: seq<Op>, n: nat, o: OrderId)
    requires ContractRun(states, ops) && n <= |ops| && o in states[n].orders
    ensures var start, fills := StartVolume(states, ops, n, o), RunFills(states, ops, n, o);
            states[n].orders[o].filledVolume == start + TotalVolume(fills) <==> Overwritten(start, fills) == 0.0
  {
    RunVolumes(states, ops, n, o);
    OverwrittenIs(StartVolume(states, ops, n, o), RunFills(states, ops, n, o));
  }

  // ----- the status of an order -----

  /** `after` is `before` with the fills applied: the last of them, if any, has set the status by its kind, and the
      time. */
  ghost predicate ShowsLast(before: RouteInfo, after: RouteInfo, fills: seq<Event>) {
    if fills == [] then after.status == before.status && after.updateTime == before.updateTime
    else
      var last := fills[|fills| - 1];
      || (last.FilledEvent? && after.status == Filled && after.updateTime == last.ts)
      || (last.PartialEvent? && after.status == PartiallyFilled && after.updateTime == last.ts)
  }

  lemma ShowsOn(a: RouteInfo, b: RouteInfo, c: RouteInfo, fills: seq<Event>, more: seq<Event>)
    requires ShowsLast(a, b, fills) && ShowsLast(b, c, more)
    ensures ShowsLast(a, c, fills + more)
  {
    if more == [] {
      assert fills + more == fills;
    }
  }

  lemma HandledShows(s: State, to: OrderId, order: Order, e: Event, isTaker: bool)
    requires IsFill(e)
    ensures var s' := Handled(s, to, order, e, isTaker, true);
      && s'.orders.Keys == s.orders.Keys && s'.engineToOrder == s.engineToOrder
      && (forall o | o in s.orders :: ShowsLast(s.orders[o], s'.orders[o], if o == to then [e] else []))
      && s'.stats.count == s.stats.count + 1 && s'.stats.volume == s.stats.volume + e.volume
      && s'.stats.amount == s.stats.amount + e.price * e.volume
  {
  }

  /** One more fill shows on the order filed under its engine id and on no other, and counts in the statistics if
      there is such an order. */
  lemma OneFillShows(p: Progress, oid: OrderId, order: Order, e: Event)
    requires p.ok && IndexInv(p.s) && IsFill(e)
    requires !p.tradeSeen ==> e.orderId in p.s.engineToOrder && p.s.engineToOrder[e.orderId] == oid
    ensures var s', filed := ProcessOne(p, oid, order, e, true).s, e.orderId in p.s.engineToOrder;
      && s'.orders.Keys == p.s.orders.Keys && s'.engineToOrder == p.s.engineToOrder
      && (forall o | o in p.s.orders ::
            ShowsLast(p.s.orders[o], s'.orders[o], if filed && p.s.engineToOrder[e.orderId] == o then [e] else []))
      && (filed ==> s'.stats.count == p.s.stats.count + 1 && s'.stats.volume == p.s.stats.volume + e.volume
                    && s'.stats.amount == p.s.stats.amount + e.price * e.volume)
      && (!filed ==> s'.stats == p.s.stats)
  {
    var t := Target(p, oid, order, e);
    if t.Some? {
      HandledShows(p.s, t.value.0, t.value.1, e, !p.tradeSeen);
    }
  }

  /** What a submitted order shows once accepted and before any fill. */
  function AcceptedInfo(info: RouteInfo, ts: int): RouteInfo {
    info.(status := Submitted, updateTime := ts)
  }

  ghost predicate StatusesFollow(s: State, s': State, oid: OrderId, ts: int, fills: seq<Event>) {
    s'.orders.Keys == s.orders.Keys && forall o | o in s.orders :: StatusFollows(s, s', oid, ts, fills, o)
  }

  ghost predicate StatusFollows(s: State, s': State, oid: OrderId, ts: int, fills: seq<Event>, o: OrderId)
    requires o in s.orders && o in s'.orders
  {
    ShowsLast(if o == oid then AcceptedInfo(s.orders[o], ts) else s.orders[o], s'.orders[o],
              FillsFor(s'.engineToOrder, fills, o))
  }

  lemma StatusesMore(s: State, p: Progress, oid: OrderId, order: Order, id: nat, ts: int, fills: seq<Event>, e: Event)
    requires SweepDone(s, p, oid, order, id, fills) && IsFill(e) && StatusesFollow(s, p.s, oid, ts, fills)
    requires fills == [] ==> e.orderId == id
    ensures StatusesFollow(s, ProcessOne(p, oid, order, e, true).s, oid, ts, fills + [e])
  {
    var s' := ProcessOne(p, oid, order, e, true).s;
    OneFillShows(p, oid, order, e);
    forall o | o in s.orders
      ensures StatusFollows(s, s', oid, ts, fills + [e], o)
    {
      assert StatusFollows(s, p.s, oid, ts, fills, o);
      StatusMore(s, p.s, s', oid, ts, fills, e, o);
    }
  }

  lemma StatusMore(s: State, mid: State, s': State, oid: OrderId, ts: int, fills: seq<Event>, e: Event, o: OrderId)
    requires o in s.orders && o in mid.orders && o in s'.orders && s'.engineToOrder == mid.engineToOrder && IsFill(e)
    requires StatusFollows(s, mid, oid, ts, fills, o)
    requires ShowsLast(mid.orders[o], s'.orders[o],
                       if e.orderId in mid.engineToOrder && mid.engineToOrder[e.orderId] == o then [e] else [])
    ensures StatusFollows(s, s', oid, ts, fills + [e], o)
  {
    var index := mid.engineToOrder;
    var base := if o == oid then AcceptedInfo(s.orders[o], ts) else s.orders[o];
    var more := if e.orderId in index && index[e.orderId] == o then [e] else [];
    FillsForSnoc(index, fills, e, o);
    ShowsOn(base, mid.orders[o], s'.orders[o], FillsFor(index, fills, o), more);
    assert FillsFor(index, fills + [e], o) == FillsFor(index, fills, o) + more;
  }

  lemma StatusesStart(s: State, oid: OrderId, order: Order, e: Event)
    requires e.AcceptedEvent?
    ensures StatusesFollow(s, ProcessOne(Progress(s, false, false, true), oid, order, e, true).s, oid, e.ts, [])
  {
  }

  lemma StatusesNext(s: State, p: Progress, oid: OrderId, order: Order, events: seq<Event>)
    requires Sweep(s, events) && |events| > 1
    requires SweepDone(s, p, oid, order, events[0].id, events[..|events| - 1][1..])
    requires StatusesFollow(s, p.s, oid, events[0].ts, events[..|events| - 1][1..])
    ensures StatusesFollow(s, ProcessOne(p, oid, order, events[|events| - 1], true).s, oid, events[0].ts, events[1..])
  {
    var init, last := events[..|events| - 1], events[|events| - 1];
    assert events[1..] == init[1..] + [last];
    StatusesMore(s, p, oid, order, events[0].id, events[0].ts, init[1..], last);
  }

  lemma {:induction false} SweepStatuses(s: State, oid: OrderId, order: Order, events: seq<Event>, gateway: nat -> bool)
    requires IndexInv(s) && Pending(s, oid, order) && Sweep(s, events)
    requires forall i | 0 <= i < |events| :: gateway(i)
    ensures StatusesFollow(s, Process(s, oid, order, events, gateway).s, oid, events[0].ts, events[1..])
  {
    var n := |events| - 1;
    ProcessLast(s, oid, order, events, gateway);
    if n == 0 {
      assert events[..n] == [] && events[1..] == [];
      StatusesStart(s, oid, order, events[0]);
    } else {
      SweepStatuses(s, oid, order, events[..n], gateway);
      ProcessSweep(s, oid, order, events[..n], gateway);
      StatusesNext(s, Process(s, oid, order, events[..n], gateway), oid, order, events);
    }
  }

  /** One operation that does not cancel the order: its fills show on it. */
  lemma StepStatus(s: State, op: Op, o: OrderId)
    requires IndexInv(s) && Promised(s, op) && Contract(s, op) && o in s.orders
    requires op.CancelOp? ==> op.oid != o
    ensures var s' := Perform(s, op);
            var fills := FillsFor(s'.engineToOrder, Fills(op), o);
            o in s'.orders && ShowsLast(s.orders[o], s'.orders[o], fills)
  {
    if op.SubmitOp? {
      var t := Inserted(s, op.oid, op.order, op.qaOrderId, op.time);
      InsertedKeepsIndex(s, op.oid, op.order, op.qaOrderId, op.time);
      ProcessSweep(t, op.oid, op.order, op.events, op.gateway);
      SweepStatuses(t, op.oid, op.order, op.events, op.gateway);
      assert StatusFollows(t, Perform(s, op), op.oid, op.events[0].ts, op.events[1..], o);
    } else {
      assert Fills(op) == [];
      if op.CancelOp? {
        CancelSparesOthers(s, op, o);
      } else {
        RestoreStep(s, op);
      }
    }
  }

  lemma {:induction false} CancelAllSparesOthers(s: State, oid: OrderId, order: Order, events: seq<Event>, o: OrderId)
    requires forall k | 0 <= k < |events| :: !events[k].AcceptedEvent? && !IsFill(events[k])
    requires o in s.orders && o != oid
    ensures var s' := CancelAll(s, oid, order, events); o in s'.orders && s'.orders[o] == s.orders[o]
    decreases |events|
  {
    if events == [] || events[0].FailedEvent? {
    } else {
      CancelAllSparesOthers(Handled(s, oid, order, events[0], true, true), oid, order, events[1..], o);
    }
  }

  lemma CancelSparesOthers(s: State, op: Op, o: OrderId)
    requires op.CancelOp? && Contract(s, op) && o in s.orders && op.oid != o
    ensures o in Perform(s, op).orders && Perform(s, op).orders[o] == s.orders[o]
  {
    if Cancellable(s, op.oid, op.account) {
      CancelAllSparesOthers(s, op.oid, s.orders[op.oid].order, op.events, o);
    }
  }

  ghost predicate NotCancelled(ops: seq<Op>, k: nat, n: nat, o: OrderId) {
    forall j | k <= j < n && j < |ops| && ops[j].CancelOp? :: ops[j].oid != o
  }

  /** What the order shows at `n`: `start` with the fills since then applied. */
  ghost predicate Shown(states: seq<State>, ops: seq<Op>, n: nat, start: RouteInfo, before: seq<Event>, o: OrderId)
    requires n <= |ops| && |states| == |ops| + 1
  {
    && o in states[n].orders
    && before <= RunFills(states, ops, n, o)
    && ShowsLast(start, states[n].orders[o], RunFills(states, ops, n, o)[|before|..])
  }

  /** What one operation of a run shows on the order. */
  lemma StepStatusAt(states: seq<State>, ops: seq<Op>, n: nat, o: OrderId)
    requires ContractRun(states, ops) && n < |ops| && o in states[n].orders && (ops[n].CancelOp? ==> ops[n].oid != o)
    ensures o in states[n + 1].orders
    ensures ShowsLast(states[n].orders[o], states[n + 1].orders[o],
                      FillsFor(states[n + 1].engineToOrder, Fills(ops[n]), o))
  {
    RunStep(states, ops, n);
    StepStatus(states[n], ops[n], o);
  }

  ghost predicate StepShown(states: seq<State>, ops: seq<Op>, n: nat, o: OrderId)
    requires n < |ops| && |states| == |ops| + 1
  {
    o in states[n].orders ==>
      && o in states[n + 1].orders
      && RunFills(states, ops, n, o) <= RunFills(states, ops, n + 1, o)
      && ShowsLast(states[n].orders[o], states[n + 1].orders[o],
                   RunFills(states, ops, n + 1, o)[|RunFills(states, ops, n, o)|..])
  }

  lemma StepIsShown(states: seq<State>, ops: seq<Op>, n: nat, o: OrderId)
    requires ContractRun(states, ops) && n < |ops| && (ops[n].CancelOp? ==> ops[n].oid != o)
    ensures StepShown(states, ops, n, o)
  {
    if o in states[n].orders {
      var before, more := RunFills(states, ops, n, o), FillsFor(states[n + 1].engineToOrder, Fills(ops[n]), o);
      StepStatusAt(states, ops, n, o);
      RunFillsStep(states, ops, n, o);
      assert (before + more)[|before|..] == more;
    }
  }

  lemma {:induction false} ShownSince(states: seq<State>, ops: seq<Op>, k: nat, n: nat, o: OrderId)
    requires |states| == |ops| + 1 && k <= n <= |ops| && o in states[k].orders
    requires forall i | k <= i < n :: StepShown(states, ops, i, o)
    ensures Shown(states, ops, n, states[k].orders[o], RunFills(states, ops, k, o), o)
    decreases n - k
  {
    if n == k {
    } else {
      ShownSince(states, ops, k, n - 1, o);
      assert StepShown(states, ops, n - 1, o);
      ShownOn(states[k].orders[o], states[n - 1].orders[o], states[n].orders[o], RunFills(states, ops, k, o),
              RunFills(states, ops, n - 1, o), RunFills(states, ops, n, o));
    }
  }

  lemma ShownOn(a: RouteInfo, b: RouteInfo, c: RouteInfo, x: seq<Event>, y: seq<Event>, z: seq<Event>)
    requires x <= y <= z && ShowsLast(a, b, y[|x|..]) && ShowsLast(b, c, z[|y|..])
    ensures x <= z && ShowsLast(a, c, z[|x|..])
  {
    ShowsOn(a, b, c, y[|x|..], z[|y|..]);
    assert z[|x|..] == y[|x|..] + z[|y|..];
  }

  /** Between two moments of a run without a cancellation of the order, the fills filed under its engine id since
      then, and nothing else, set its status: the last one does, by its kind. */
  lemma StatusSince(states: seq<State>, ops: seq<Op>, k: nat, n: nat, o: OrderId)
    requires ContractRun(states, ops) && k <= n <= |ops| && o in states[k].orders && NotCancelled(ops, k, n, o)
    ensures Shown(states, ops, n, states[k].orders[o], RunFills(states, ops, k, o), o)
  {
    forall i | k <= i < n
      ensures StepShown(states, ops, i, o)
    {
      StepIsShown(states, ops, i, o);
    }
    ShownSince(states, ops, k, n, o);
  }

  /** An order submitted in a run and not cancelled since is Submitted while it has no fill, and Filled or
      PartiallyFilled by the kind of its last fill. */
  lemma SubmittedStatus(states: seq<State>, ops: seq<Op>, k: nat, n: nat, o: OrderId)
    requires ContractRun(states, ops) && k < n <= |ops| && ops[k].SubmitOp? && ops[k].oid == o
    requires NotCancelled(ops, k + 1, n, o)
    ensures var fills := RunFills(states, ops, n, o);
      && o in states[n].orders
      && (fills == [] ==> states[n].orders[o].status == Submitted)
      && (fills != [] && fills[|fills| - 1].FilledEvent? ==> states[n].orders[o].status == Filled)
      && (fills != [] && fills[|fills| - 1].PartialEvent? ==> states[n].orders[o].status == PartiallyFilled)
  {
    FirstStatus(states, ops, k);
    StatusSince(states, ops, k + 1, n, o);
    Composed(states, ops, k + 1, n, o);
  }

  lemma Composed(states: seq<State>, ops: seq<Op>, k: nat, n: nat, o: OrderId)
    requires |states| == |ops| + 1 && k <= n <= |ops| && o in states[k].orders
    requires Shown(states, ops, n, states[k].orders[o], RunFills(states, ops, k, o), o)
    requires ShowsLast(AcceptedInfo(states[k].orders[o], states[k].orders[o].updateTime), states[k].orders[o],
                       RunFills(states, ops, k, o))
    ensures ShowsLast(AcceptedInfo(states[k].orders[o], states[k].orders[o].updateTime), states[n].orders[o],
                      RunFills(states, ops, n, o))
  {
    var first, all := RunFills(states, ops, k, o), RunFills(states, ops, n, o);
    var base := AcceptedInfo(states[k].orders[o], states[k].orders[o].updateTime);
    ShowsOn(base, states[k].orders[o], states[n].orders[o], first, all[|first|..]);
    assert all == first + all[|first|..];
  }

  lemma FirstStatus(states: seq<State>, ops: seq<Op>, k: nat)
    requires ContractRun(states, ops) && k < |ops| && ops[k].SubmitOp?
    ensures var o, fills := ops[k].oid, RunFills(states, ops, k + 1, ops[k].oid);
      && o in states[k + 1].orders
      && ShowsLast(AcceptedInfo(states[k + 1].orders[o], states[k + 1].orders[o].updateTime), states[k + 1].orders[o], fills)
  {
    var s, op := states[k], ops[k];
    var t := Inserted(s, op.oid, op.order, op.qaOrderId, op.time);
    RunStep(states, ops, k);
    RunFillsStep(states, ops, k, op.oid);
    NoFillsFor(s.engineToOrder, RunDue(states, ops, k), op.oid);
    InsertedKeepsIndex(s, op.oid, op.order, op.qaOrderId, op.time);
    ProcessSweep(t, op.oid, op.order, op.events, op.gateway);
    SweepStatuses(t, op.oid, op.order, op.events, op.gateway);
    assert StatusFollows(t, states[k + 1], op.oid, op.events[0].ts, op.events[1..], op.oid);
  }

  /** The engine confirms a cancellation: a cancelled event before any failure. */
  ghost predicate Confirmed(events: seq<Event>) {
    exists i :: 0 <= i < |events| && events[i].CancelledEvent? && forall j | 0 <= j < i :: !events[j].FailedEvent?
  }

  lemma ConfirmedTail(events: seq<Event>)
    requires events != []
    ensures Confirmed(events) <==> events[0].CancelledEvent? || (!events[0].FailedEvent? && Confirmed(events[1..]))
  {
    var tail := events[1..];
    if i :| 0 <= i < |events| && events[i].CancelledEvent? && forall j | 0 <= j < i :: !events[j].FailedEvent? {
      if i > 0 {
        assert tail[i - 1].CancelledEvent? && forall j | 0 <= j < i - 1 :: !tail[j].FailedEvent?;
      }
    }
    if i :| !events[0].FailedEvent? && 0 <= i < |tail| && tail[i].CancelledEvent? && forall j | 0 <= j < i :: !tail[j].FailedEvent? {
      assert events[i + 1].CancelledEvent? && forall j | 0 <= j < i + 1 :: !events[j].FailedEvent?;
    }
  }

  lemma {:induction false} CancelAllStatus(s: State, oid: OrderId, order: Order, events: seq<Event>)
    requires forall k | 0 <= k < |events| :: !events[k].AcceptedEvent? && !IsFill(events[k])
    requires oid in s.orders
    ensures var s' := CancelAll(s, oid, order, events);
            oid in s'.orders && s'.orders[oid].status == if Confirmed(events) then Cancelled else s.orders[oid].status
    decreases |events|
  {
    if events == [] {
    } else {
      ConfirmedTail(events);
      if !events[0].FailedEvent? {
        CancelAllStatus(Handled(s, oid, order, events[0], true, true), oid, order, events[1..]);
      }
    }
  }

  /** A cancel request ends in Cancelled exactly when the account owns the order, the order is Submitted or
      PartiallyFilled and known to the engine, and the engine confirms; otherwise the order keeps its status. */
  lemma CancelStatus(s: State, oid: OrderId, account: UserId, events: seq<Event>)
    requires forall k | 0 <= k < |events| :: !events[k].AcceptedEvent? && !IsFill(events[k])
    requires oid in s.orders
    ensures var s', info := Perform(s, CancelOp(oid, account, events)), s.orders[oid];
            var granted := info.order.userId == account && info.status in {Submitted, PartiallyFilled} && info.engineId.Some?;
      && oid in s'.orders
      && s'.orders[oid].status == (if granted && Confirmed(events) then Cancelled else info.status)
      && (!granted ==> s' == s)
  {
    if Cancellable(s, oid, account) {
      CancelAllStatus(s, oid, s.orders[oid].order, events);
    }
  }

  // ----- refused submissions -----

  lemma {:induction false} ProcessKeepsOrder(s: State, oid: OrderId, order: Order, events: seq<Event>, gateway: nat -> bool)
    requires oid in s.orders
    ensures oid in Process(s, oid, order, events, gateway).s.orders
    ensures (forall k | 0 <= k < |events| :: gateway(k)) ==> Process(s, oid, order, events, gateway).ok
  {
    if events == [] {
    } else {
      ProcessKeepsOrder(s, oid, order, events[..|events| - 1], gateway);
    }
  }

  /** A failure in the engine's answer leaves the order Rejected, unless something other than failures and
      amendments follows. */
  lemma {:induction false} FailureRejects(s: State, oid: OrderId, order: Order, qa: string, time: int,
                                          events: seq<Event>, gateway: nat -> bool, j: nat)
    requires j < |events| && events[j].FailedEvent? && forall k | 0 <= k < |events| :: gateway(k)
    requires forall k | j < k < |events| :: events[k].FailedEvent? || events[k].AmendedEvent?
    ensures var s' := Submit(s, oid, order, qa, time, events, gateway);
            oid in s'.orders && s'.orders[oid].status == Rejected
    decreases |events|
  {
    var t, n := Inserted(s, oid, order, qa, time), |events| - 1;
    ProcessKeepsOrder(t, oid, order, events, gateway);
    ProcessKeepsOrder(t, oid, order, events[..n], gateway);
    ProcessLast(t, oid, order, events, gateway);
    if j == n {
    } else {
      FailureRejects(s, oid, order, qa, time, events[..n], gateway, j);
    }
  }

  /** A gateway that refuses the acceptance leaves the order Rejected and reports nothing, yet the order is filed
      under its engine id. */
  lemma RefusalRejects(s: State, oid: OrderId, order: Order, qa: string, time: int, events: seq<Event>, gateway: nat -> bool)
    requires events != [] && events[0].AcceptedEvent? && !gateway(0)
    ensures var s' := Submit(s, oid, order, qa, time, events, gateway);
      && oid in s'.orders && s'.orders[oid].status == Rejected && s'.trades == s.trades
      && s'.engineToOrder == s.engineToOrder[events[0].id := oid]
  {
    var t := Inserted(s, oid, order, qa, time);
    assert events[..1][..0] == [] && events[..1][0] == events[0];
    assert Process(t, oid, order, events[..1][..0], gateway) == Progress(t, false, false, true);
    ProcessStops(t, oid, order, events, 1, gateway);
  }

  /** So does a cancellation leave it Cancelled. */
  lemma {:induction false} CancellationInAnswer(s: State, oid: OrderId, order: Order, qa: string, time: int,
                                                events: seq<Event>, gateway: nat -> bool, j: nat)
    requires j < |events| && events[j].CancelledEvent? && forall k | 0 <= k < |events| :: gateway(k)
    requires forall k | j < k < |events| :: events[k].AmendedEvent?
    ensures var s' := Submit(s, oid, order, qa, time, events, gateway);
            oid in s'.orders && s'.orders[oid].status == Cancelled
    decreases |events|
  {
    var t, n := Inserted(s, oid, order, qa, time), |events| - 1;
    ProcessKeepsOrder(t, oid, order, events, gateway);
    ProcessKeepsOrder(t, oid, order, events[..n], gateway);
    ProcessLast(t, oid, order, events, gateway);
    if j == n {
    } else {
      CancellationInAnswer(s, oid, order, qa, time, events[..n], gateway, j);
    }
  }

  lemma {:induction false} FirstAcceptedSnoc(events: seq<Event>, e: Event)
    ensures FirstAccepted(events + [e]) ==
            if FirstAccepted(events).Some? then FirstAccepted(events) else if e.AcceptedEvent? then Some(e.id) else None
  {
    if events == [] {
      assert [] + [e] == [e] && [e][1..] == [];
    } else {
      assert (events + [e])[1..] == events[1..] + [e];
      FirstAcceptedSnoc(events[1..], e);
    }
  }

  /** Whatever the answer to a submission, only its first acceptance files the order. */
  lemma {:induction false} OnlyFirstAcceptanceFiles(s: State, oid: OrderId, order: Order, events: seq<Event>, gateway: nat -> bool)
    requires forall k | 0 <= k < |events| :: gateway(k)
    ensures var p, first := Process(s, oid, order, events, gateway), FirstAccepted(events);
      && p.ok && (p.acceptedSeen <==> first.Some?)
      && p.s.engineToOrder == if first.Some? then s.engineToOrder[first.value := oid] else s.engineToOrder
  {
    if events == [] {
    } else {
      var n := |events| - 1;
      OnlyFirstAcceptanceFiles(s, oid, order, events[..n], gateway);
      ProcessLast(s, oid, order, events, gateway);
      FirstAcceptedSnoc(events[..n], events[n]);
      assert events == events[..n] + [events[n]];
      FilesOnce(Process(s, oid, order, events[..n], gateway), oid, order, events[n]);
    }
  }

  lemma FilesOnce(p: Progress, oid: OrderId, order: Order, e: Event)
    requires p.ok
    ensures var p' := ProcessOne(p, oid, order, e, true);
      && p'.ok && (p'.acceptedSeen <==> p.acceptedSeen || e.AcceptedEvent?)
      && p'.s.engineToOrder ==
         if e.AcceptedEvent? && !p.acceptedSeen then p.s.engineToOrder[e.id := oid] else p.s.engineToOrder
  {
  }

  /** A restored order keeps what its account says of it, and is filed under the first acceptance of the answer. */
  lemma RestoredIsFiled(s: State, oid: OrderId, info: RouteInfo, answer: seq<Event>)
    requires oid !in s.orders
    ensures var s', first := Perform(s, RestoreOp(oid, info, answer)), FirstAccepted(answer);
      && oid in s'.orders && s'.orders[oid] == info.(engineId := first)
      && (first.Some? ==> first.value in s'.engineToOrder && s'.engineToOrder[first.value] == oid)
      && (first.None? ==> s'.engineToOrder == s.engineToOrder)
  {
  }

  // ----- the trade statistics -----

  function TotalAmount(fills: seq<Event>): real {
    if fills == [] then 0.0 else
      TotalAmount(fills[..|fills| - 1]) +
      if IsFill(fills[|fills| - 1]) then fills[|fills| - 1].price * fills[|fills| - 1].volume else 0.0
  }

  ghost predicate StatsAre(from: Stats, to: Stats, fills: seq<Event>) {
    && to.count == from.count + |fills|
    && to.volume == from.volume + TotalVolume(fills)
    && to.amount == from.amount + TotalAmount(fills)
  }

  lemma StatsSnoc(from: Stats, mid: Stats, to: Stats, fills: seq<Event>, e: Event)
    requires StatsAre(from, mid, fills) && IsFill(e)
    requires to.count == mid.count + 1 && to.volume == mid.volume + e.volume && to.amount == mid.amount + e.price * e.volume
    ensures StatsAre(from, to, fills + [e])
  {
    assert (fills + [e])[..|fills|] == fills;
  }

  lemma {:induction false} TotalsConcat(a: seq<Event>, b: seq<Event>)
    ensures TotalVolume(a + b) == TotalVolume(a) + TotalVolume(b)
    ensures TotalAmount(a + b) == TotalAmount(a) + TotalAmount(b)
  {
    if b == [] {
      assert a + b == a;
    } else {
      TotalsConcat(a, b[..|b| - 1]);
      assert (a + b)[..|a + b| - 1] == a + b[..|b| - 1];
    }
  }

  lemma StatsConcat(a: Stats, b: Stats, c: Stats, fills: seq<Event>, more: seq<Event>)
    requires StatsAre(a, b, fills) && StatsAre(b, c, more)
    ensures StatsAre(a, c, fills + more)
  {
    TotalsConcat(fills, more);
  }

  lemma StatsMore(s: State, p: Progress, oid: OrderId, order: Order, id: nat, fills: seq<Event>, e: Event)
    requires SweepDone(s, p, oid, order, id, fills) && IsFill(e)
    requires fills == [] ==> e.orderId == id
    requires StatsAre(s.stats, p.s.stats, Managed(p.s.engineToOrder, fills))
    ensures var s' := ProcessOne(p, oid, order, e, true).s;
            StatsAre(s.stats, s'.stats, Managed(s'.engineToOrder, fills + [e]))
  {
    OneFillShows(p, oid, order, e);
    ManagedSnoc(p.s.engineToOrder, fills, e);
    if e.orderId in p.s.engineToOrder {
      StatsSnoc(s.stats, p.s.stats, ProcessOne(p, oid, order, e, true).s.stats, Managed(p.s.engineToOrder, fills), e);
    }
  }

  lemma StatsNext(s: State, p: Progress, oid: OrderId, order: Order, events: seq<Event>)
    requires Sweep(s, events) && |events| > 1
    requires SweepDone(s, p, oid, order, events[0].id, events[..|events| - 1][1..])
    requires StatsAre(s.stats, p.s.stats, Managed(p.s.engineToOrder, events[..|events| - 1][1..]))
    ensures var s' := ProcessOne(p, oid, order, events[|events| - 1], true).s;
            StatsAre(s.stats, s'.stats, Managed(s'.engineToOrder, events[1..]))
  {
    var init, last := events[..|events| - 1], events[|events| - 1];
    assert events[1..] == init[1..] + [last];
    StatsMore(s, p, oid, order, events[0].id, init[1..], last);
  }

  lemma {:induction false} SweepStats(s: State, oid: OrderId, order: Order, events: seq<Event>, gateway: nat -> bool)
    requires IndexInv(s) && Pending(s, oid, order) && Sweep(s, events)
    requires forall i | 0 <= i < |events| :: gateway(i)
    ensures var s' := Process(s, oid, order, events, gateway).s;
            StatsAre(s.stats, s'.stats, Managed(s'.engineToOrder, events[1..]))
  {
    var n := |events| - 1;
    ProcessLast(s, oid, order, events, gateway);
    if n == 0 {
      assert events[..n] == [] && events[1..] == [];
    } else {
      SweepStats(s, oid, order, events[..n], gateway);
      ProcessSweep(s, oid, order, events[..n], gateway);
      StatsNext(s, Process(s, oid, order, events[..n], gateway), oid, order, events);
    }
  }

  lemma StepStats(s: State, op: Op)
    requires IndexInv(s) && Promised(s, op) && Contract(s, op)
    ensures StatsAre(s.stats, Perform(s, op).stats, Managed(Perform(s, op).engineToOrder, Fills(op)))
  {
    if op.SubmitOp? {
      var t := Inserted(s, op.oid, op.order, op.qaOrderId, op.time);
      InsertedKeepsIndex(s, op.oid, op.order, op.qaOrderId, op.time);
      ProcessSweep(t, op.oid, op.order, op.events, op.gateway);
      SweepStats(t, op.oid, op.order, op.events, op.gateway);
    } else {
      assert Fills(op) == [] && Managed(Perform(s, op).engineToOrder, []) == [];
      if op.CancelOp? {
        CancelStep(s, op);
      } else {
        RestoreStep(s, op);
      }
    }
  }

  /** Over whole runs the trade statistics are the number, the volume and the turnover of all managed fills. */
  lemma {:induction false} RunStats(states: seq<State>, ops: seq<Op>, n: nat)
    requires ContractRun(states, ops) && n <= |ops|
    ensures StatsAre(Stats(0, 0.0, 0.0), states[n].stats, RunDue(states, ops, n))
  {
    if n == 0 {
    } else {
      RunStats(states, ops, n - 1);
      RunStep(states, ops, n - 1);
      StepStats(states[n - 1], ops[n - 1]);
      StatsConcat(Stats(0, 0.0, 0.0), states[n - 1].stats, states[n].stats, RunDue(states, ops, n - 1),
                  Managed(states[n].engineToOrder, Fills(ops[n - 1])));
    }
  }

  // ----- a run in which both fall short -----

  const MAKER: OrderId := OrderId("m")
  const FIRST: OrderId := OrderId("t")
  const SECOND: OrderId := OrderId("u")

  function Sent(oid: OrderId, events: seq<Event>): Op {
    SubmitOp(oid, Order(UserId("a"), "i", "BUY", "OPEN", 1.0, 3.0), "q", 0, events, _ => true)
  }

  const PART: Event := PartialEvent(1, 1.0, 1.0, 0, 2)
  const REST: Event := FilledEvent(1, 1.0, 2.0, 0, 3)
  const TAKEN: Event := PartialEvent(3, 1.0, 2.0, 0, 1)
  const DONE: Event := FilledEvent(3, 1.0, 1.0, 0, 4)
  const ELSEWHERE: Event := FilledEvent(4, 1.0, 1.0, 0, 3)

  const RESTING: Op := Sent(MAKER, [AcceptedEvent(1, 0)])
  const HITTING: Op := Sent(FIRST, [AcceptedEvent(2, 0), FilledEvent(2, 1.0, 1.0, 0, 1), PART])
  const SWEEPING: Op := Sent(SECOND, [AcceptedEvent(3, 0), TAKEN, REST, DONE, ELSEWHERE])

  lemma Extended(states: seq<State>, ops: seq<Op>, op: Op) returns (states': seq<State>)
    requires ContractRun(states, ops) && op.SubmitOp?
    requires Promised(states[|ops|], op) && Contract(states[|ops|], op)
    ensures ContractRun(states', ops + [op]) && states <= states'
    ensures var s, s' := states[|ops|], states'[|ops| + 1];
      && s'.engineToOrder == s.engineToOrder[op.events[0].id := op.oid]
      && s'.orders.Keys == s.orders.Keys + {op.oid}
  {
    var s := states[|ops|];
    RunIndexExact(states, ops, |ops|);
    SubmitStep(s, op);
    states' := states + [Perform(s, op)];
  }

  ghost predicate BooksAre(s: State, orders: set<OrderId>, index: map<nat, OrderId>) {
    s.orders.Keys == orders && s.engineToOrder == index
  }

  /** The books before, and after the resting order, one that fills part of it, and one that sweeps the rest. */
  ghost predicate Books(states: seq<State>) {
    && |states| == 4
    && BooksAre(states[0], {}, map[])
    && BooksAre(states[1], {MAKER}, map[1 := MAKER])
    && BooksAre(states[2], {MAKER, FIRST}, map[1 := MAKER, 2 := FIRST])
    && BooksAre(states[3], {MAKER, FIRST, SECOND}, map[1 := MAKER, 2 := FIRST, 3 := SECOND])
  }

  lemma SentIsFine(s: State, oid: OrderId, events: seq<Event>)
    requires oid !in s.orders && Sweep(s, events)
    ensures Promised(s, Sent(oid, events)) && Contract(s, Sent(oid, events))
  {
  }

  lemma OneSubmission() returns (states: seq<State>)
    ensures ContractRun(states, [RESTING]) && BooksAre(states[0], {}, map[]) && BooksAre(states[1], {MAKER}, map[1 := MAKER])
  {
    SentIsFine(EMPTY, MAKER, RESTING.events);
    states := Extended([EMPTY], [], RESTING);
    assert [] + [RESTING] == [RESTING];
    assert states[0] == [EMPTY][0];
  }

  lemma TwoSubmissions() returns (states: seq<State>)
    ensures ContractRun(states, [RESTING, HITTING])
    ensures BooksAre(states[0], {}, map[]) && BooksAre(states[1], {MAKER}, map[1 := MAKER])
    ensures BooksAre(states[2], {MAKER, FIRST}, map[1 := MAKER, 2 := FIRST])
  {
    var before := OneSubmission();
    DistinctOrders();
    SentIsFine(before[1], FIRST, HITTING.events);
    states := Extended(before, [RESTING], HITTING);
    assert [RESTING] + [HITTING] == [RESTING, HITTING];
    assert states[0] == before[0] && states[1] == before[1];
  }

  lemma ThreeSubmissions() returns (states: seq<State>, ops: seq<Op>)
    ensures ops == [RESTING, HITTING, SWEEPING] && ContractRun(states, ops) && Books(states)
  {
    var before := TwoSubmissions();
    DistinctOrders();
    SentIsFine(before[2], SECOND, SWEEPING.events);
    states := Extended(before, [RESTING, HITTING], SWEEPING);
    ops := [RESTING, HITTING, SWEEPING];
    assert [RESTING, HITTING] + [SWEEPING] == ops;
    assert states[0] == before[0] && states[1] == before[1] && states[2] == before[2];
  }

  lemma DistinctOrders()
    ensures MAKER != FIRST && FIRST != SECOND && MAKER != SECOND
  {
    assert MAKER.text[0] == 'm' && FIRST.text[0] == 't' && SECOND.text[0] == 'u';
  }

  lemma HittingFills(index: map<nat, OrderId>)
    requires index == map[1 := MAKER, 2 := FIRST]
    ensures FillsFor(index, Fills(HITTING), MAKER) == [PART]
  {
    DistinctOrders();
    var hit := FilledEvent(2, 1.0, 1.0, 0, 1);
    FillsForSnoc(index, [], hit, MAKER);
    FillsForSnoc(index, [hit], PART, MAKER);
    assert Fills(HITTING) == [hit] + [PART] && [] + [hit] == [hit];
  }

  lemma SweepingFills(index: map<nat, OrderId>)
    requires index == map[1 := MAKER, 2 := FIRST, 3 := SECOND]
    ensures FillsFor(index, Fills(SWEEPING), MAKER) == [REST]
  {
    DistinctOrders();
    FillsForSnoc(index, [], TAKEN, MAKER);
    FillsForSnoc(index, [TAKEN], REST, MAKER);
    FillsForSnoc(index, [TAKEN, REST], DONE, MAKER);
    FillsForSnoc(index, [TAKEN, REST, DONE], ELSEWHERE, MAKER);
    assert [] + [TAKEN] == [TAKEN] && [TAKEN] + [REST] == [TAKEN, REST];
    assert [TAKEN, REST] + [DONE] == [TAKEN, REST, DONE];
    assert Fills(SWEEPING) == [TAKEN, REST, DONE] + [ELSEWHERE];
  }

  lemma NoFillsYet(states: seq<State>, ops: seq<Op>)
    requires ops == [RESTING, HITTING, SWEEPING] && ContractRun(states, ops)
    ensures RunFills(states, ops, 1, MAKER) == []
  {
    assert Fills(RESTING) == [];
    assert RunDue(states, ops, 0) == [];
  }

  lemma MakerRunFills(states: seq<State>, ops: seq<Op>)
    requires ops == [RESTING, HITTING, SWEEPING] && ContractRun(states, ops) && Books(states)
    ensures RunFills(states, ops, 3, MAKER) == [PART, REST]
  {
    HittingFills(states[2].engineToOrder);
    SweepingFills(states[3].engineToOrder);
    NoFillsYet(states, ops);
    RunFillsStep(states, ops, 1, MAKER);
    RunFillsStep(states, ops, 2, MAKER);
  }

  lemma StartsAtZero(states: seq<State>, ops: seq<Op>)
    requires ops == [RESTING, HITTING, SWEEPING] && Books(states)
    ensures StartVolume(states, ops, 3, MAKER) == 0.0
  {
    assert StartVolume(states, ops, 1, MAKER) == 0.0;
    assert StartVolume(states, ops, 2, MAKER) == 0.0;
  }

  lemma PartThenRest()
    ensures VolumeAfter(0.0, [PART, REST]) == 2.0 && TotalVolume([PART, REST]) == 3.0
  {
    assert [PART, REST][..1] == [PART] && [PART][..0] == [];
    assert TotalVolume([PART]) == 1.0;
  }

  /** The resting order, filled by 1 in one submission and by 2 in the next, ends with filled volume 2. */
  lemma OverwriteHappens() returns (states: seq<State>, ops: seq<Op>)
    ensures ContractRun(states, ops) && |ops| == 3 && MAKER in states[3].orders
    ensures StartVolume(states, ops, 3, MAKER) == 0.0 && TotalVolume(RunFills(states, ops, 3, MAKER)) == 3.0
    ensures states[3].orders[MAKER].filledVolume == 2.0
  {
    states, ops := ThreeSubmissions();
    MakerRunFills(states, ops);
    StartsAtZero(states, ops);
    PartThenRest();
    RunVolumes(states, ops, 3, MAKER);
  }

  lemma SweepingOwnFills()
    ensures FillsWith(SWEEPING.events[1..], 3) == [TAKEN, DONE]
  {
    assert SWEEPING.events[1..] == [TAKEN, REST, DONE, ELSEWHERE];
    assert [TAKEN, REST, DONE, ELSEWHERE][..3] == [TAKEN, REST, DONE] && [TAKEN, REST, DONE][..2] == [TAKEN, REST];
    assert [TAKEN, REST][..1] == [TAKEN] && [TAKEN][..0] == [];
    assert FillsWith([TAKEN], 3) == [TAKEN] && FillsWith([TAKEN, REST], 3) == [TAKEN];
    assert FillsWith([TAKEN, REST, DONE], 3) == [TAKEN, DONE];
  }

  /** The sweeping order is filled twice, but not recorded twice. */
  lemma RecorderMisses() returns (states: seq<State>, ops: seq<Op>)
    ensures ContractRun(states, ops) && |ops| == 3 && ops[2] == SWEEPING && states[2].trades <= states[3].trades
    ensures TradesOf(states[3].trades[|states[2].trades|..], SECOND) == 2
    ensures Recorded(states[3].trades[|states[2].trades|..]) != 2
  {
    states, ops := ThreeSubmissions();
    DistinctOrders();
    SweepingOwnFills();
    SentIsFine(states[2], SECOND, SWEEPING.events);
    MissedOne(states, ops);
  }

  lemma MissedOne(states: seq<State>, ops: seq<Op>)
    requires ContractRun(states, ops) && |ops| == 3 && ops[2] == SWEEPING && SECOND !in states[2].orders
    requires |FillsWith(SWEEPING.events[1..], 3)| == 2
    ensures states[2].trades <= states[3].trades
    ensures TradesOf(states[3].trades[|states[2].trades|..], SECOND) == 2
    ensures Recorded(states[3].trades[|states[2].trades|..]) != 2
  {
    RunStep(states, ops, 2);
    RecorderCompleteIff(states, ops, 2, SECOND, SWEEPING.order, SWEEPING.qaOrderId, SWEEPING.time, SWEEPING.events, SWEEPING.gateway);
  }

  // ----- the dispatcher object -----

  class OrderRouter {
    var orders: map<OrderId, RouteInfo>
    var engineIdToOrder: map<nat, OrderId>
    var engineIdToUser: map<nat, UserId>
    var tradeStats: Stats
    ghost var reported: seq<Trade>

    ghost function Current(): State
      reads this
    {
      State(orders, engineIdToOrder, engineIdToUser, reported, tradeStats)
    }

    constructor ()
      ensures Current() == EMPTY
    {
      orders, engineIdToOrder, engineIdToUser := map[], map[], map[];
      tradeStats, reported := Stats(0, 0.0, 0.0), [];
    }

    /** `gateway` is the outcome of the trade gateway call this event makes. */
    method HandleSuccessResult(oid: OrderId, order: Order, e: Event, isTaker: bool, gateway: bool) returns (ok: bool)
      requires !e.FailedEvent?
      modifies this
      ensures Current() == Handled(old(Current()), oid, order, e, isTaker, gateway)
      ensures ok <==> gateway || e.AmendedEvent?
    {
      if e.AcceptedEvent? {
        if oid in orders {
          orders := orders[oid := orders[oid].(status := Submitted, updateTime := e.ts, engineId := Some(e.id))];
        }
        engineIdToOrder := engineIdToOrder[e.id := oid];
        engineIdToUser := engineIdToUser[e.id := order.userId];
        return gateway;
      } else if e.CancelledEvent? {
        if oid in orders {
          orders := orders[oid := orders[oid].(status := Cancelled, updateTime := e.ts)];
        }
        return gateway;
      } else if e.AmendedEvent? {
        return true;
      }
      if oid in orders {
        var info := orders[oid];
        if e.FilledEvent? {
          info := info.(status := Filled, updateTime := e.ts, filledVolume := e.volume);
        } else {
          info := info.(status := PartiallyFilled, updateTime := e.ts, filledVolume := info.filledVolume + e.volume);
        }
        orders := orders[oid := info];
      }
      tradeStats := AddStats(tradeStats, e.price, e.volume);
      if gateway {
        reported := reported + [MakeTrade(Current(), oid, order, e, isTaker)];
      }
      return gateway;
    }

    /** Handles the events of one request in order and stops at the first gateway error. */
    method ProcessMatchingResults(oid: OrderId, order: Order, results: seq<Event>, gateway: nat -> bool) returns (ok: bool)
      modifies this
      ensures Current() == Process(old(Current()), oid, order, results, gateway).s
      ensures ok == Process(old(Current()), oid, order, results, gateway).ok
    {
      var handledAccepted, handledTrade := false, false;
      for i := 0 to |results|
        invariant Process(old(Current()), oid, order, results[..i], gateway) ==
                  Progress(Current(), handledAccepted, handledTrade, true)
      {
        ProcessSnoc(old(Current()), oid, order, results, i, gateway);
        ok, handledAccepted, handledTrade :=
          ProcessResult(oid, order, results[i], gateway(i), handledAccepted, handledTrade);
        if !ok {
          ProcessStops(old(Current()), oid, order, results, i + 1, gateway);
          return;
        }
      }
      assert results[..|results|] == results;
      return true;
    }

    /** One iteration of that loop. */
    method ProcessResult(oid: OrderId, order: Order, e: Event, gateway: bool, handledAccepted: bool, handledTrade: bool)
      returns (ok: bool, accepted: bool, traded: bool)
      modifies this
      ensures Progress(Current(), accepted, traded, ok) ==
              ProcessOne(Progress(old(Current()), handledAccepted, handledTrade, true), oid, order, e, gateway)
    {
      ok, accepted, traded := true, handledAccepted, handledTrade;
      if e.AcceptedEvent? {
        if !handledAccepted {
          ok := HandleSuccessResult(oid, order, e, true, gateway);
          accepted := ok;
        }
      } else if e.FailedEvent? {
        if oid in orders {
          orders := orders[oid := orders[oid].(status := Rejected, updateTime := e.ts)];
        }
      } else if !IsFill(e) {
        ok := HandleSuccessResult(oid, order, e, true, gateway);
      } else if !handledTrade {
        ok := HandleSuccessResult(oid, order, e, true, gateway);
        traded := ok;
      } else if e.orderId in engineIdToOrder {
        var maker := engineIdToOrder[e.orderId];
        if maker in orders {
          ok := HandleSuccessResult(maker, orders[maker].order, e, false, gateway);
        }
      }
    }
  }

  lemma ProcessSnoc(s: State, oid: OrderId, order: Order, events: seq<Event>, i: nat, gateway: nat -> bool)
    requires i < |events|
    ensures Process(s, oid, order, events[..i + 1], gateway) ==
            ProcessOne(Process(s, oid, order, events[..i], gateway), oid, order, events[i], gateway(i))
  {
    assert events[..i + 1][..i] == events[..i];
  }

  /** After a gateway error the remaining events change nothing. */
  lemma {:induction false} ProcessStops(s: State, oid: OrderId, order: Order, events: seq<Event>, i: nat, gateway: nat -> bool)
    requires i <= |events| && !Process(s, oid, order, events[..i], gateway).ok
    ensures Process(s, oid, order, events, gateway) == Process(s, oid, order, events[..i], gateway)
    decreases |events| - i
  {
    if i == |events| {
      assert events[..i] == events;
    } else {
      ProcessSnoc(s, oid, order, events, i, gateway);
      ProcessStops(s, oid, order, events, i + 1, gateway);
    }
  }
}
