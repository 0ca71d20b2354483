/** The conditional-order engine: orders with two secondary indexes, refined to one automaton per order.
    Clock readings and the order router's answers are inputs, one per order and scan. */
module ConditionalOrders {
  import opened Common
  import opened Seqs

  datatype CondId = CondId(text: string)
  datatype AccountId = AccountId(text: string)
  datatype InstrumentId = InstrumentId(text: string)

  datatype Status = Pending | Triggered | Cancelled | Expired | Failed
  datatype TriggerCondition = GreaterOrEqual | LessOrEqual
  datatype ConditionType = StopLoss | TakeProfit | PriceTouch

  datatype Request = Request(
    accountId: AccountId, instrumentId: InstrumentId, direction: string, offset: string, volume: real,
    orderType: string, limitPrice: Option<real>, conditionType: ConditionType,
    triggerPrice: real, triggerCondition: TriggerCondition, validUntil: Option<int>)

  datatype CondOrder = CondOrder(
    id: CondId, req: Request, status: Status, createdAt: int, triggeredAt: Option<int>, resultOrderId: Option<string>)

  datatype SubmitRequest = SubmitRequest(
    accountId: AccountId, instrumentId: InstrumentId, direction: string, offset: string, volume: real,
    price: real, orderType: string)

  datatype Response = Response(success: bool, orderId: Option<string>)

  /** What one scan sees of the outside world: the clock when an order is examined and when it fires, and
      the router's answer to each submission, if there is a router. */
  datatype World = World(now: CondId -> int, firedAt: CondId -> int, router: Option<CondId -> Response>)

  function NewOrder(id: CondId, req: Request, now: int): CondOrder {
    CondOrder(id, req, Pending, now, None, None)
  }

  function ToSubmitRequest(o: CondOrder): SubmitRequest {
    SubmitRequest(o.req.accountId, o.req.instrumentId, o.req.direction, o.req.offset, o.req.volume,
                  if o.req.limitPrice.Some? then o.req.limitPrice.value else 0.0, o.req.orderType)
  }

  predicate Crosses(o: CondOrder, price: real) {
    match o.req.triggerCondition
    case GreaterOrEqual => price >= o.req.triggerPrice
    case LessOrEqual => price <= o.req.triggerPrice
  }

  predicate IsExpired(o: CondOrder, now: int) {
    o.req.validUntil.Some? && now > o.req.validUntil.value
  }

  // ----- the automaton of one order -----

  datatype Op =
    | CreateOp(id: CondId, req: Request, now: int)
    | CancelOp(id: CondId)
    | CheckOp(instrumentId: InstrumentId, price: real, world: World)

  /** The order fires when examined. */
  predicate Fires(o: CondOrder, price: real, w: World) {
    o.status == Pending && !IsExpired(o, w.now(o.id)) && Crosses(o, price)
  }

  function Fired(o: CondOrder, w: World): CondOrder {
    match w.router
    case None => o.(status := Triggered, triggeredAt := Some(w.firedAt(o.id)))
    case Some(router) =>
      var response := router(o.id);
      if response.success
      then o.(status := Triggered, triggeredAt := Some(w.firedAt(o.id)), resultOrderId := response.orderId)
      else o.(status := Failed, triggeredAt := Some(w.firedAt(o.id)))
  }

  function Examined(o: CondOrder, price: real, w: World): CondOrder {
    if o.status != Pending then o
    else if IsExpired(o, w.now(o.id)) then o.(status := Expired)
    else if Crosses(o, price) then Fired(o, w)
    else o
  }

  /** What an operation does to one existing order, looking at no other. */
  function React(o: CondOrder, op: Op): CondOrder {
    match op
    case CreateOp(_, _, _) => o
    case CancelOp(id) => if id == o.id && o.status == Pending then o.(status := Cancelled) else o
    case CheckOp(i, price, w) => if i == o.req.instrumentId then Examined(o, price, w) else o
  }

  function Life(o: CondOrder, ops: seq<Op>): CondOrder {
    if ops == [] then o else React(Life(o, ops[..|ops| - 1]), ops[|ops| - 1])
  }

  /** The operation submits the order to the router. */
  predicate Submits(o: CondOrder, op: Op) {
    op.CheckOp? && op.instrumentId == o.req.instrumentId && op.world.router.Some? && Fires(o, op.price, op.world)
  }

  /** The operation ends a pending order's wait. */
  predicate Decides(o: CondOrder, op: Op) {
    match op
    case CreateOp(_, _, _) => false
    case CancelOp(id) => id == o.id
    case CheckOp(i, price, w) => i == o.req.instrumentId && (IsExpired(o, w.now(o.id)) || Crosses(o, price))
  }

  /** Final statuses are absorbing: a decided order never changes again. */
  lemma {:induction false} FinalIsAbsorbing(o: CondOrder, ops: seq<Op>)
    requires o.status != Pending
    ensures Life(o, ops) == o
  {
    if ops == [] {
    } else {
      FinalIsAbsorbing(o, ops[..|ops| - 1]);
    }
  }

  lemma {:induction false} UndecidedStays(o: CondOrder, ops: seq<Op>)
    requires o.status == Pending && forall k | 0 <= k < |ops| :: !Decides(o, ops[k])
    ensures Life(o, ops) == o
  {
    if ops == [] {
    } else {
      UndecidedStays(o, ops[..|ops| - 1]);
      assert !Decides(o, ops[|ops| - 1]);
    }
  }

  lemma {:induction false} FirstDecisionStays(o: CondOrder, ops: seq<Op>, k: nat)
    requires o.status == Pending && k < |ops| && Decides(o, ops[k]) && forall j | 0 <= j < k :: !Decides(o, ops[j])
    ensures Life(o, ops) == React(o, ops[k]) && React(o, ops[k]).status != Pending
  {
    var n := |ops| - 1;
    if k < n {
      FirstDecisionStays(o, ops[..n], k);
    } else {
      UndecidedStays(o, ops[..n]);
    }
  }

  /** A pending order stays exactly as created until the first deciding operation, which fixes its fate. */
  lemma LifeIsFirstDecision(o: CondOrder, ops: seq<Op>)
    requires o.status == Pending
    ensures (forall k | 0 <= k < |ops| :: !Decides(o, ops[k])) ==> Life(o, ops) == o
    ensures forall k | 0 <= k < |ops| && Decides(o, ops[k]) && (forall j | 0 <= j < k :: !Decides(o, ops[j])) ::
              Life(o, ops) == React(o, ops[k]) && React(o, ops[k]).status != Pending
  {
    if forall k | 0 <= k < |ops| :: !Decides(o, ops[k]) {
      UndecidedStays(o, ops);
    }
    forall k | 0 <= k < |ops| && Decides(o, ops[k]) && (forall j | 0 <= j < k :: !Decides(o, ops[j]))
      ensures Life(o, ops) == React(o, ops[k]) && React(o, ops[k]).status != Pending
    {
      FirstDecisionStays(o, ops, k);
    }
  }

  /** Number of operations that submit the order. */
  function SubmitCount(o: CondOrder, ops: seq<Op>): nat {
    if ops == [] then 0 else
      SubmitCount(o, ops[..|ops| - 1]) + if Submits(Life(o, ops[..|ops| - 1]), ops[|ops| - 1]) then 1 else 0
  }

  lemma {:induction false} UndecidedNeverSubmits(o: CondOrder, ops: seq<Op>)
    requires o.status == Pending && forall k | 0 <= k < |ops| :: !Decides(o, ops[k])
    ensures SubmitCount(o, ops) == 0
  {
    if ops == [] {
    } else {
      var n := |ops| - 1;
      UndecidedNeverSubmits(o, ops[..n]);
      UndecidedStays(o, ops[..n]);
      assert !Decides(o, ops[n]);
    }
  }

  lemma {:induction false} FirstDecisionSubmits(o: CondOrder, ops: seq<Op>, k: nat)
    requires o.status == Pending && k < |ops| && Decides(o, ops[k]) && forall j | 0 <= j < k :: !Decides(o, ops[j])
    ensures SubmitCount(o, ops) == if Submits(o, ops[k]) then 1 else 0
  {
    var n := |ops| - 1;
    if k < n {
      FirstDecisionSubmits(o, ops[..n], k);
      FirstDecisionStays(o, ops[..n], k);
    } else {
      UndecidedNeverSubmits(o, ops[..n]);
      UndecidedStays(o, ops[..n]);
    }
  }

  /** A pending order is submitted at most once, and exactly when its first deciding operation is an
      unexpired crossing price with a router present. */
  lemma SubmittedOnce(o: CondOrder, ops: seq<Op>)
    requires o.status == Pending
    ensures SubmitCount(o, ops) <= 1
    ensures SubmitCount(o, ops) == 1 <==>
            exists k :: 0 <= k < |ops| && Submits(o, ops[k]) && forall j | 0 <= j < k :: !Decides(o, ops[j])
  {
    if k :| 0 <= k < |ops| && Decides(o, ops[k]) {
      var first := FirstDecision(o, ops, k);
      FirstDecisionSubmits(o, ops, first);
      forall k | 0 <= k < |ops| && Submits(o, ops[k]) && forall j | 0 <= j < k :: !Decides(o, ops[j])
        ensures k == first
      {
        assert Decides(o, ops[k]);
      }
    } else {
      UndecidedNeverSubmits(o, ops);
    }
  }

  lemma {:induction false} FirstDecision(o: CondOrder, ops: seq<Op>, k: nat) returns (first: nat)
    requires k < |ops| && Decides(o, ops[k])
    ensures first <= k && Decides(o, ops[first]) && forall j | 0 <= j < first :: !Decides(o, ops[j])
    decreases k
  {
    if j :| 0 <= j < k && Decides(o, ops[j]) {
      first := FirstDecision(o, ops, j);
    } else {
      first := k;
    }
  }

  // ----- the engine -----

  datatype State = State(
    orders: map<CondId, CondOrder>,
    byAccount: map<AccountId, seq<CondId>>,
    byInstrument: map<InstrumentId, seq<CondId>>,
    submissions: seq<(CondId, SubmitRequest)>)

  const EMPTY: State := State(map[], map[], map[], [])

  function Listed<K>(index: map<K, seq<CondId>>, k: K): seq<CondId> {
    if k in index then index[k] else []
  }

  function Create(s: State, id: CondId, req: Request, now: int): State {
    s.(orders := s.orders[id := NewOrder(id, req, now)],
       byAccount := s.byAccount[req.accountId := Listed(s.byAccount, req.accountId) + [id]],
       byInstrument := s.byInstrument[req.instrumentId := Listed(s.byInstrument, req.instrumentId) + [id]])
  }

  function Cancel(s: State, id: CondId): State {
    if id in s.orders && s.orders[id].status == Pending
    then s.(orders := s.orders[id := s.orders[id].(status := Cancelled)]) else s
  }

  /** One iteration of the scan. */
  function ScanOne(s: State, id: CondId, price: real, w: World): State {
    if id !in s.orders then s else
      var o := s.orders[id];
      s.(orders := s.orders[id := Examined(o, price, w)],
         submissions := if Fires(o, price, w) && w.router.Some? then s.submissions + [(id, ToSubmitRequest(o))]
                        else s.submissions)
  }

  function Scan(s: State, ids: seq<CondId>, price: real, w: World): State {
    if ids == [] then s else ScanOne(Scan(s, ids[..|ids| - 1], price, w), ids[|ids| - 1], price, w)
  }

  function Check(s: State, instrumentId: InstrumentId, price: real, w: World): State {
    Scan(s, Listed(s.byInstrument, instrumentId), price, w)
  }

  function Perform(s: State, op: Op): State {
    match op
    case CreateOp(id, req, now) => Create(s, id, req, now)
    case CancelOp(id) => Cancel(s, id)
    case CheckOp(i, price, w) => Check(s, i, price, w)
  }

  function After(ops: seq<Op>): State {
    if ops == [] then EMPTY else Perform(After(ops[..|ops| - 1]), ops[|ops| - 1])
  }

  /** Fresh identifiers: no id is created twice. */
  ghost predicate FreshIds(ops: seq<Op>) {
    forall i, j | 0 <= i < j < |ops| && ops[i].CreateOp? && ops[j].CreateOp? :: ops[i].id != ops[j].id
  }

  /** Both indexes list exactly the orders they should, each once, and orders sit under their own id. */
  ghost predicate Inv(s: State) {
    && (forall id | id in s.orders :: s.orders[id].id == id)
    && InstrumentsExact(s.orders, s.byInstrument)
    && AccountsExact(s.orders, s.byAccount)
  }

  ghost predicate InstrumentsExact(orders: map<CondId, CondOrder>, index: map<InstrumentId, seq<CondId>>) {
    forall i :: ListsExactly(Listed(index, i), set id | id in orders && orders[id].req.instrumentId == i)
  }

  ghost predicate AccountsExact(orders: map<CondId, CondOrder>, index: map<AccountId, seq<CondId>>) {
    forall a :: ListsExactly(Listed(index, a), set id | id in orders && orders[id].req.accountId == a)
  }

  ghost predicate ListsExactly(list: seq<CondId>, ids: set<CondId>) {
    NoDup(list) && forall id :: id in list <==> id in ids
  }

  /** `s'` has the same ids and the same requests as `s`, and the same indexes. */
  ghost predicate SameIndexes(s: State, s': State) {
    && s'.byAccount == s.byAccount && s'.byInstrument == s.byInstrument && s'.orders.Keys == s.orders.Keys
    && forall id | id in s.orders :: s'.orders[id].id == s.orders[id].id && s'.orders[id].req == s.orders[id].req
  }

  lemma SameIndexesKeepInv(s: State, s': State)
    requires Inv(s) && SameIndexes(s, s')
    ensures Inv(s')
  {
    forall i
      ensures ListsExactly(Listed(s'.byInstrument, i), set x | x in s'.orders && s'.orders[x].req.instrumentId == i)
    {
      assert (set x | x in s'.orders && s'.orders[x].req.instrumentId == i) ==
             (set x | x in s.orders && s.orders[x].req.instrumentId == i);
    }
    forall a
      ensures ListsExactly(Listed(s'.byAccount, a), set x | x in s'.orders && s'.orders[x].req.accountId == a)
    {
      assert (set x | x in s'.orders && s'.orders[x].req.accountId == a) ==
             (set x | x in s.orders && s.orders[x].req.accountId == a);
    }
  }

  /** The indexed scan acts on each order as if that order were examined on its own. */
  lemma {:induction false} ScanActsPerOrder(s: State, ids: seq<CondId>, price: real, w: World)
    requires NoDup(ids) && forall id | id in ids :: id in s.orders
    ensures var s' := Scan(s, ids, price, w);
      && s'.byAccount == s.byAccount && s'.byInstrument == s.byInstrument && s'.orders.Keys == s.orders.Keys
      && forall id | id in s.orders ::
           s'.orders[id] == if id in ids then Examined(s.orders[id], price, w) else s.orders[id]
  {
    if ids == [] {
    } else {
      var init, last := ids[..|ids| - 1], ids[|ids| - 1];
      assert ids == init + [last];
      NoDupConcat(init, [last]);
      assert last in [last];
      ScanActsPerOrder(s, init, price, w);
    }
  }

  /** ... and submits exactly the listed orders that fire. */
  lemma {:induction false} ScanSubmits(s: State, ids: seq<CondId>, price: real, w: World, id: CondId)
    requires NoDup(ids) && forall id | id in ids :: id in s.orders
    ensures Count(Scan(s, ids, price, w).submissions, id) ==
            Count(s.submissions, id) + if id in ids && Fires(s.orders[id], price, w) && w.router.Some? then 1 else 0
  {
    if ids == [] {
    } else {
      var init, last := ids[..|ids| - 1], ids[|ids| - 1];
      assert ids == init + [last];
      NoDupConcat(init, [last]);
      assert last in [last];
      ScanSubmits(s, init, price, w, id);
      ScanActsPerOrder(s, init, price, w);
      CountSnoc(Scan(s, init, price, w).submissions, (last, ToSubmitRequest(s.orders[last])), id);
    }
  }

  /** Submissions made for one order. */
  function Count(submissions: seq<(CondId, SubmitRequest)>, id: CondId): nat {
    if submissions == [] then 0 else
      Count(submissions[..|submissions| - 1], id) + if submissions[|submissions| - 1].0 == id then 1 else 0
  }

  lemma CountSnoc(submissions: seq<(CondId, SubmitRequest)>, x: (CondId, SubmitRequest), id: CondId)
    ensures Count(submissions + [x], id) == Count(submissions, id) + if x.0 == id then 1 else 0
  {
    assert (submissions + [x])[..|submissions|] == submissions;
  }

  lemma ListOneMore(list: seq<CondId>, ids: set<CondId>, id: CondId)
    requires ListsExactly(list, ids) && id !in ids
    ensures ListsExactly(list + [id], ids + {id})
  {
  }

  lemma CreateKeepsInstruments(s: State, id: CondId, req: Request, now: int)
    requires InstrumentsExact(s.orders, s.byInstrument) && id !in s.orders
    ensures InstrumentsExact(Create(s, id, req, now).orders, Create(s, id, req, now).byInstrument)
  {
    var s' := Create(s, id, req, now);
    forall i
      ensures ListsExactly(Listed(s'.byInstrument, i), set x | x in s'.orders && s'.orders[x].req.instrumentId == i)
    {
      var before := set x | x in s.orders && s.orders[x].req.instrumentId == i;
      var later := set x | x in s'.orders && s'.orders[x].req.instrumentId == i;
      assert ListsExactly(Listed(s.byInstrument, i), before);
      if i == req.instrumentId {
        ListOneMore(Listed(s.byInstrument, i), before, id);
        assert later == before + {id};
      } else {
        assert later == before;
      }
    }
  }

  lemma CreateKeepsAccounts(s: State, id: CondId, req: Request, now: int)
    requires AccountsExact(s.orders, s.byAccount) && id !in s.orders
    ensures AccountsExact(Create(s, id, req, now).orders, Create(s, id, req, now).byAccount)
  {
    var s' := Create(s, id, req, now);
    forall a
      ensures ListsExactly(Listed(s'.byAccount, a), set x | x in s'.orders && s'.orders[x].req.accountId == a)
    {
      var before := set x | x in s.orders && s.orders[x].req.accountId == a;
      var later := set x | x in s'.orders && s'.orders[x].req.accountId == a;
      assert ListsExactly(Listed(s.byAccount, a), before);
      if a == req.accountId {
        ListOneMore(Listed(s.byAccount, a), before, id);
        assert later == before + {id};
      } else {
        assert later == before;
      }
    }
  }

  lemma CreateKeepsInv(s: State, id: CondId, req: Request, now: int)
    requires Inv(s) && id !in s.orders
    ensures Inv(Create(s, id, req, now))
  {
    CreateKeepsInstruments(s, id, req, now);
    CreateKeepsAccounts(s, id, req, now);
  }

  /** Every existing order reacts on its own, and only submitting orders are submitted. */
  ghost predicate ActedPerOrder(s: State, op: Op, s': State) {
    && s'.orders.Keys == s.orders.Keys + (if op.CreateOp? then {op.id} else {})
    && (forall id | id in s.orders :: s'.orders[id] == React(s.orders[id], op))
    && (forall id :: Count(s'.submissions, id) ==
          Count(s.submissions, id) + if id in s.orders && Submits(s.orders[id], op) then 1 else 0)
  }

  lemma CheckSubmits(s: State, i: InstrumentId, price: real, w: World, id: CondId)
    requires Inv(s)
    ensures Count(Check(s, i, price, w).submissions, id) ==
            Count(s.submissions, id) + if id in s.orders && Submits(s.orders[id], CheckOp(i, price, w)) then 1 else 0
  {
    var ids := Listed(s.byInstrument, i);
    assert ListsExactly(ids, set x | x in s.orders && s.orders[x].req.instrumentId == i);
    ScanSubmits(s, ids, price, w, id);
  }

  lemma CheckReacts(s: State, i: InstrumentId, price: real, w: World)
    requires Inv(s)
    ensures var s' := Check(s, i, price, w);
            SameIndexes(s, s') && forall id | id in s.orders :: s'.orders[id] == React(s.orders[id], CheckOp(i, price, w))
  {
    var ids := Listed(s.byInstrument, i);
    assert ListsExactly(ids, set x | x in s.orders && s.orders[x].req.instrumentId == i);
    ScanActsPerOrder(s, ids, price, w);
  }

  lemma CheckActsPerOrder(s: State, i: InstrumentId, price: real, w: World)
    requires Inv(s)
    ensures Inv(Check(s, i, price, w)) && ActedPerOrder(s, CheckOp(i, price, w), Check(s, i, price, w))
  {
    var s' := Check(s, i, price, w);
    CheckReacts(s, i, price, w);
    forall id
      ensures Count(s'.submissions, id) ==
              Count(s.submissions, id) + if id in s.orders && Submits(s.orders[id], CheckOp(i, price, w)) then 1 else 0
    {
      CheckSubmits(s, i, price, w, id);
    }
    SameIndexesKeepInv(s, s');
  }

  lemma CancelActsPerOrder(s: State, id: CondId)
    requires Inv(s)
    ensures Inv(Cancel(s, id)) && ActedPerOrder(s, CancelOp(id), Cancel(s, id))
  {
    SameIndexesKeepInv(s, Cancel(s, id));
  }

  /** One operation keeps the invariant and treats every order as its automaton does. */
  lemma PerformActsPerOrder(s: State, op: Op)
    requires Inv(s) && (op.CreateOp? ==> op.id !in s.orders)
    ensures Inv(Perform(s, op)) && ActedPerOrder(s, op, Perform(s, op))
  {
    match op
    case CreateOp(id, req, now) => CreateKeepsInv(s, id, req, now);
    case CancelOp(id) => CancelActsPerOrder(s, id);
    case CheckOp(i, price, w) => CheckActsPerOrder(s, i, price, w);
  }

  /** Which ids a run has created. */
  function CreatedIds(ops: seq<Op>): set<CondId> {
    if ops == [] then {} else
      CreatedIds(ops[..|ops| - 1]) + if ops[|ops| - 1].CreateOp? then {ops[|ops| - 1].id} else {}
  }

  lemma {:induction false} NotCreated(ops: seq<Op>, id: CondId)
    requires forall j | 0 <= j < |ops| && ops[j].CreateOp? :: ops[j].id != id
    ensures id !in CreatedIds(ops)
  {
    if ops == [] {
    } else {
      NotCreated(ops[..|ops| - 1], id);
    }
  }

  lemma {:induction false} RunInv(ops: seq<Op>)
    requires FreshIds(ops)
    ensures Inv(After(ops)) && After(ops).orders.Keys == CreatedIds(ops)
    ensures forall id | id !in CreatedIds(ops) :: Count(After(ops).submissions, id) == 0
  {
    if ops == [] {
    } else {
      var n := |ops| - 1;
      var init, last := ops[..n], ops[n];
      assert FreshIds(init);
      RunInv(init);
      if last.CreateOp? {
        NotCreatedBefore(ops, n);
      }
      PerformActsPerOrder(After(init), last);
    }
  }

  lemma NotCreatedBefore(ops: seq<Op>, i: nat)
    requires FreshIds(ops) && i < |ops| && ops[i].CreateOp?
    ensures ops[i].id !in CreatedIds(ops[..i])
  {
    NotCreated(ops[..i], ops[i].id);
  }

  /** Where an order's automaton puts it. */
  ghost predicate Tracks(s: State, o: CondOrder, later: seq<Op>) {
    && o.id in s.orders
    && s.orders[o.id] == Life(o, later)
    && Count(s.submissions, o.id) == SubmitCount(o, later)
  }

  lemma TracksStep(s: State, o: CondOrder, later: seq<Op>, op: Op)
    requires Inv(s) && Tracks(s, o, later) && (op.CreateOp? ==> op.id !in s.orders)
    ensures Tracks(Perform(s, op), o, later + [op])
  {
    PerformActsPerOrder(s, op);
    assert (later + [op])[..|later|] == later;
  }

  lemma TracksCreated(s: State, op: Op)
    requires Inv(s) && op.CreateOp? && op.id !in s.orders && Count(s.submissions, op.id) == 0
    ensures Tracks(Perform(s, op), NewOrder(op.id, op.req, op.now), [])
  {
    PerformActsPerOrder(s, op);
  }

  /** Over any run with fresh ids, each order is where its own automaton puts it, started at its creation
      and fed every later operation, and it has been submitted as often as that automaton submits. */
  lemma {:induction false} EngineRefinesAutomata(ops: seq<Op>, i: nat)
    requires FreshIds(ops) && i < |ops| && ops[i].CreateOp?
    ensures Tracks(After(ops), NewOrder(ops[i].id, ops[i].req, ops[i].now), ops[i + 1..])
    decreases |ops|
  {
    var n := |ops| - 1;
    if i == n {
      assert ops[i + 1..] == [];
      CreatedByLast(ops);
    } else {
      assert FreshIds(ops[..n]) && ops[..n][i] == ops[i];
      EngineRefinesAutomata(ops[..n], i);
      assert ops[i + 1..] == ops[..n][i + 1..] + [ops[n]];
      TrackedByLast(ops, NewOrder(ops[i].id, ops[i].req, ops[i].now), ops[..n][i + 1..]);
    }
  }

  lemma CreatedByLast(ops: seq<Op>)
    requires FreshIds(ops) && ops != [] && ops[|ops| - 1].CreateOp?
    ensures var last := ops[|ops| - 1]; Tracks(After(ops), NewOrder(last.id, last.req, last.now), [])
  {
    var n := |ops| - 1;
    assert FreshIds(ops[..n]);
    RunInv(ops[..n]);
    NotCreatedBefore(ops, n);
    TracksCreated(After(ops[..n]), ops[n]);
  }

  lemma TrackedByLast(ops: seq<Op>, o: CondOrder, later: seq<Op>)
    requires FreshIds(ops) && ops != [] && Tracks(After(ops[..|ops| - 1]), o, later)
    ensures Tracks(After(ops), o, later + [ops[|ops| - 1]])
  {
    var n := |ops| - 1;
    assert FreshIds(ops[..n]);
    RunInv(ops[..n]);
    if ops[n].CreateOp? {
      NotCreatedBefore(ops, n);
    }
    TracksStep(After(ops[..n]), o, later, ops[n]);
  }

  // ----- in terms of the request alone -----

  /** The check finds the request's trigger price reached: from below or from above, as the request says. */
  ghost predicate Reached(req: Request, op: Op)
    requires op.CheckOp?
  {
    (req.triggerCondition == GreaterOrEqual && op.price >= req.triggerPrice) ||
    (req.triggerCondition == LessOrEqual && op.price <= req.triggerPrice)
  }

  /** The check comes after the request has run out. */
  ghost predicate TooLate(req: Request, id: CondId, op: Op)
    requires op.CheckOp?
  {
    req.validUntil.Some? && op.world.now(id) > req.validUntil.value
  }

  /** A check of the request's instrument, in time, that finds its price reached. */
  ghost predicate Hit(req: Request, id: CondId, op: Op) {
    op.CheckOp? && op.instrumentId == req.instrumentId && Reached(req, op) && !TooLate(req, id, op)
  }

  /** A cancellation, or a check of the instrument that finds the request expired or its price reached. */
  ghost predicate Ends(req: Request, id: CondId, op: Op) {
    (op.CancelOp? && op.id == id) ||
    (op.CheckOp? && op.instrumentId == req.instrumentId && (Reached(req, op) || TooLate(req, id, op)))
  }

  lemma EndsDecides(o: CondOrder, op: Op)
    ensures Decides(o, op) <==> Ends(o.req, o.id, op)
    ensures o.status == Pending ==> (Submits(o, op) <==> Hit(o.req, o.id, op) && op.world.router.Some?)
  {
  }

  /** In every run an order is submitted at most once, and exactly when some check of its instrument finds its
      price reached in time, with a router present, after no earlier cancellation and no earlier check that found it
      expired or reached. */
  lemma SubmittedByPrice(ops: seq<Op>, i: nat)
    requires FreshIds(ops) && i < |ops| && ops[i].CreateOp?
    ensures var id, req, submissions := ops[i].id, ops[i].req, After(ops).submissions;
      && Count(submissions, id) <= 1
      && (Count(submissions, id) == 1 <==>
          exists k :: i < k < |ops| && Hit(req, id, ops[k]) && ops[k].world.router.Some? &&
                      forall j | i < j < k :: !Ends(req, id, ops[j]))
  {
    var o, later := NewOrder(ops[i].id, ops[i].req, ops[i].now), ops[i + 1..];
    EngineRefinesAutomata(ops, i);
    SubmittedOnce(o, later);
    forall k | 0 <= k < |later|
      ensures later[k] == ops[i + 1 + k]
      ensures Decides(o, later[k]) <==> Ends(o.req, o.id, ops[i + 1 + k])
      ensures Submits(o, later[k]) <==> Hit(o.req, o.id, ops[i + 1 + k]) && ops[i + 1 + k].world.router.Some?
    {
      EndsDecides(o, later[k]);
    }
    SameDecision(o, ops, i, later);
  }

  /** The same moment, counted from the order's creation and from the start of the run. */
  lemma SameDecision(o: CondOrder, ops: seq<Op>, i: nat, later: seq<Op>)
    requires i < |ops| && later == ops[i + 1..]
    requires forall k | i < k < |ops| :: Decides(o, ops[k]) <==> Ends(o.req, o.id, ops[k])
    requires forall k | i < k < |ops| :: Submits(o, ops[k]) <==> Hit(o.req, o.id, ops[k]) && ops[k].world.router.Some?
    ensures (exists k :: 0 <= k < |later| && Submits(o, later[k]) && forall j | 0 <= j < k :: !Decides(o, later[j])) <==>
            (exists k :: i < k < |ops| && Hit(o.req, o.id, ops[k]) && ops[k].world.router.Some? &&
                         forall j | i < j < k :: !Ends(o.req, o.id, ops[j]))
  {
    if k :| 0 <= k < |later| && Submits(o, later[k]) && forall j | 0 <= j < k :: !Decides(o, later[j]) {
      forall j | i < j < i + 1 + k
        ensures !Ends(o.req, o.id, ops[j])
      {
        assert later[j - i - 1] == ops[j];
      }
      assert Hit(o.req, o.id, ops[i + 1 + k]);
    }
    if k :| i < k < |ops| && Hit(o.req, o.id, ops[k]) && ops[k].world.router.Some? &&
            forall j | i < j < k :: !Ends(o.req, o.id, ops[j]) {
      forall j | 0 <= j < k - i - 1
        ensures !Decides(o, later[j])
      {
        assert later[j] == ops[i + 1 + j];
      }
      assert Submits(o, later[k - i - 1]);
    }
  }

  /** An order no operation ends stays as created. */
  lemma StaysPending(ops: seq<Op>, i: nat)
    requires FreshIds(ops) && i < |ops| && ops[i].CreateOp?
    requires forall j | i < j < |ops| :: !Ends(ops[i].req, ops[i].id, ops[j])
    ensures ops[i].id in After(ops).orders
    ensures After(ops).orders[ops[i].id] == CondOrder(ops[i].id, ops[i].req, Pending, ops[i].now, None, None)
  {
    var o, later := NewOrder(ops[i].id, ops[i].req, ops[i].now), ops[i + 1..];
    EngineRefinesAutomata(ops, i);
    forall k | 0 <= k < |later|
      ensures !Decides(o, later[k])
    {
      EndsDecides(o, ops[i + 1 + k]);
    }
    UndecidedStays(o, later);
  }

  /** What the operation that ends an order makes of it. */
  ghost predicate EndedAs(o: CondOrder, req: Request, id: CondId, created: int, op: Op) {
    && o.id == id && o.req == req && o.createdAt == created
    && (op.CancelOp? ==> o.status == Cancelled && o.triggeredAt == None && o.resultOrderId == None)
    && (op.CheckOp? && TooLate(req, id, op) ==> o.status == Expired && o.triggeredAt == None && o.resultOrderId == None)
    && (op.CheckOp? && !TooLate(req, id, op) ==> o.triggeredAt == Some(op.world.firedAt(id)))
    && (op.CheckOp? && !TooLate(req, id, op) && op.world.router == None ==> o.status == Triggered && o.resultOrderId == None)
    && (op.CheckOp? && !TooLate(req, id, op) && op.world.router.Some? ==>
          var response := op.world.router.value(id);
          if response.success then o.status == Triggered && o.resultOrderId == response.orderId
          else o.status == Failed && o.resultOrderId == None)
  }

  lemma ReactEnds(o: CondOrder, op: Op)
    requires o.status == Pending && o.triggeredAt == None && o.resultOrderId == None && Ends(o.req, o.id, op)
    ensures EndedAs(React(o, op), o.req, o.id, o.createdAt, op)
  {
  }

  lemma FirstEndStays(o: CondOrder, later: seq<Op>, k: nat)
    requires o.status == Pending && o.triggeredAt == None && o.resultOrderId == None
    requires k < |later| && Ends(o.req, o.id, later[k]) && forall j | 0 <= j < k :: !Decides(o, later[j])
    ensures EndedAs(Life(o, later), o.req, o.id, o.createdAt, later[k])
  {
    EndsDecides(o, later[k]);
    FirstDecisionStays(o, later, k);
    ReactEnds(o, later[k]);
  }

  lemma LifeEnds(o: CondOrder, ops: seq<Op>, i: nat, k: nat, later: seq<Op>)
    requires o.status == Pending && o.triggeredAt == None && o.resultOrderId == None
    requires i < k < |ops| && later == ops[i + 1..]
    requires Ends(o.req, o.id, ops[k]) && forall j | i < j < k :: !Ends(o.req, o.id, ops[j])
    ensures EndedAs(Life(o, later), o.req, o.id, o.createdAt, ops[k])
  {
    forall j | 0 <= j < k - i - 1
      ensures !Decides(o, later[j])
    {
      EndsDecides(o, ops[i + 1 + j]);
    }
    FirstEndStays(o, later, k - i - 1);
  }

  lemma EndsWhereLifeDoes(ops: seq<Op>, i: nat)
    requires FreshIds(ops) && i < |ops| && ops[i].CreateOp?
    ensures ops[i].id in After(ops).orders
    ensures After(ops).orders[ops[i].id] == Life(NewOrder(ops[i].id, ops[i].req, ops[i].now), ops[i + 1..])
  {
    EngineRefinesAutomata(ops, i);
  }

  /** The first operation that ends an order decides for good what becomes of it. */
  lemma FirstEndDecides(ops: seq<Op>, i: nat, k: nat)
    requires FreshIds(ops) && i < k < |ops| && ops[i].CreateOp?
    requires Ends(ops[i].req, ops[i].id, ops[k]) && forall j | i < j < k :: !Ends(ops[i].req, ops[i].id, ops[j])
    ensures ops[i].id in After(ops).orders
    ensures EndedAs(After(ops).orders[ops[i].id], ops[i].req, ops[i].id, ops[i].now, ops[k])
  {
    var o := NewOrder(ops[i].id, ops[i].req, ops[i].now);
    EndsWhereLifeDoes(ops, i);
    LifeEnds(o, ops, i, k, ops[i + 1..]);
  }

  /** The submission carries the request's own terms; without a limit price it goes out at zero. */
  ghost predicate Carries(r: SubmitRequest, req: Request) {
    && r.accountId == req.accountId && r.instrumentId == req.instrumentId
    && r.direction == req.direction && r.offset == req.offset && r.volume == req.volume && r.orderType == req.orderType
    && (req.limitPrice.Some? ==> r.price == req.limitPrice.value)
    && (req.limitPrice.None? ==> r.price == 0.0)
  }

  ghost predicate AllCarry(s: State) {
    forall m | 0 <= m < |s.submissions| ::
      s.submissions[m].0 in s.orders && Carries(s.submissions[m].1, s.orders[s.submissions[m].0].req)
  }

  lemma {:induction false} ScanCarries(s: State, ids: seq<CondId>, price: real, w: World)
    requires AllCarry(s)
    ensures AllCarry(Scan(s, ids, price, w))
  {
    if ids == [] {
    } else {
      ScanCarries(s, ids[..|ids| - 1], price, w);
      ScanOneCarries(Scan(s, ids[..|ids| - 1], price, w), ids[|ids| - 1], price, w);
    }
  }

  lemma ScanOneCarries(s: State, id: CondId, price: real, w: World)
    requires AllCarry(s)
    ensures AllCarry(ScanOne(s, id, price, w))
  {
  }

  /** In every run each submission carries the terms of the order it is made for. */
  lemma {:induction false} RunCarries(ops: seq<Op>)
    requires FreshIds(ops)
    ensures AllCarry(After(ops))
  {
    if ops == [] {
    } else {
      var n := |ops| - 1;
      assert FreshIds(ops[..n]);
      RunCarries(ops[..n]);
      RunInv(ops[..n]);
      match ops[n]
      case CreateOp(_, _, _) => NotCreatedBefore(ops, n);
      case CancelOp(_) =>
      case CheckOp(i, price, w) => ScanCarries(After(ops[..n]), Listed(After(ops[..n]).byInstrument, i), price, w);
    }
  }

  // ----- statistics -----

  ghost function WithStatus(orders: map<CondId, CondOrder>, st: Status): set<CondId> {
    set id | id in orders && orders[id].status == st
  }

  /** The five status counts add up to the number of orders. */
  lemma {:induction false} StatusesPartition(orders: map<CondId, CondOrder>)
    ensures |WithStatus(orders, Pending)| + |WithStatus(orders, Triggered)| + |WithStatus(orders, Cancelled)|
            + |WithStatus(orders, Expired)| + |WithStatus(orders, Failed)| == |orders|
    decreases |orders|
  {
    if orders == map[] {
      assert forall s :: WithStatus(orders, s) == {};
    } else {
      var id :| id in orders;
      var rest := orders - {id};
      assert orders == rest[id := orders[id]];
      StatusesPartition(rest);
      StatusSnoc(rest, id, orders[id], Pending);
      StatusSnoc(rest, id, orders[id], Triggered);
      StatusSnoc(rest, id, orders[id], Cancelled);
      StatusSnoc(rest, id, orders[id], Expired);
      StatusSnoc(rest, id, orders[id], Failed);
    }
  }

  datatype Statistics = Statistics(total: nat, pending: nat, triggered: nat, cancelled: nat, expired: nat, failed: nat)

  datatype Result = Ok | NotFound | NotPending(status: Status)

  class ConditionalOrderEngine {
    var orders: map<CondId, CondOrder>
    var byAccount: map<AccountId, seq<CondId>>
    var byInstrument: map<InstrumentId, seq<CondId>>
    ghost var submissions: seq<(CondId, SubmitRequest)>

    ghost function Current(): State
      reads this
    {
      State(orders, byAccount, byInstrument, submissions)
    }

    constructor ()
      ensures Current() == EMPTY
    {
      orders, byAccount, byInstrument, submissions := map[], map[], map[], [];
    }

    method CreateOrder(id: CondId, req: Request, now: int) returns (info: CondOrder)
      modifies this
      ensures Current() == Perform(old(Current()), CreateOp(id, req, now)) && info == orders[id]
    {
      byAccount := byAccount[req.accountId := Listed(byAccount, req.accountId) + [id]];
      byInstrument := byInstrument[req.instrumentId := Listed(byInstrument, req.instrumentId) + [id]];
      info := NewOrder(id, req, now);
      orders := orders[id := info];
    }

    method CancelOrder(id: CondId) returns (r: Result)
      modifies this
      ensures Current() == Cancel(old(Current()), id)
      ensures r == if id !in old(orders) then NotFound
                   else if old(orders)[id].status != Pending then NotPending(old(orders)[id].status) else Ok
    {
      if id !in orders {
        return NotFound;
      }
      if orders[id].status != Pending {
        return NotPending(orders[id].status);
      }
      orders := orders[id := orders[id].(status := Cancelled)];
      return Ok;
    }

    /** Examines every order listed for the instrument and returns those that fired, in list order. */
    method CheckTriggers(instrumentId: InstrumentId, price: real, w: World) returns (fired: seq<CondOrder>)
      requires Inv(Current())
      modifies this
      ensures Current() == Check(old(Current()), instrumentId, price, w)
      ensures fired == FiredOrders(old(orders), Listed(old(byInstrument), instrumentId), price, w)
      ensures forall id :: FiredId(fired, id) <==>
                id in old(orders) && old(orders)[id].status == Pending &&
                Hit(old(orders)[id].req, id, CheckOp(instrumentId, price, w))
    {
      fired := [];
      var orderIds := Listed(byInstrument, instrumentId);
      for i := 0 to |orderIds|
        invariant Current() == Scan(old(Current()), orderIds[..i], price, w)
        invariant fired == FiredOrders(old(orders), orderIds[..i], price, w)
      {
        ScanStep(old(Current()), orderIds, i, price, w);
        var r := Examine(orderIds[i], price, w);
        if r.Some? {
          fired := fired + [r.value];
        }
      }
      assert orderIds[..|orderIds|] == orderIds;
      FiredByCheck(old(Current()), instrumentId, price, w);
    }

    /** Examines one indexed order at the current price: skips it, expires it, or fires it. */
    method Examine(id: CondId, price: real, w: World) returns (fired: Option<CondOrder>)
      requires id in orders ==> orders[id].id == id
      modifies this`orders, this`submissions
      ensures Current() == ScanOne(old(Current()), id, price, w)
      ensures fired == if id in old(orders) && Fires(old(orders[id]), price, w) then Some(Fired(old(orders[id]), w)) else None
    {
      if id !in orders {
        return None;
      }
      var order := orders[id];
      if order.status != Pending {
        assert orders[id := order] == orders;
        return None;
      }
      if IsExpired(order, w.now(id)) {
        orders := orders[id := order.(status := Expired)];
        return None;
      }
      if !Crosses(order, price) {
        assert orders[id := order] == orders;
        return None;
      }
      if w.router.Some? {
        submissions := submissions + [(id, ToSubmitRequest(order))];
        var response := w.router.value(id);
        if response.success {
          order := order.(status := Triggered, triggeredAt := Some(w.firedAt(id)), resultOrderId := response.orderId);
        } else {
          order := order.(status := Failed, triggeredAt := Some(w.firedAt(id)));
        }
      } else {
        order := order.(status := Triggered, triggeredAt := Some(w.firedAt(id)));
      }
      orders := orders[id := order];
      fired := Some(order);
    }

    /** Every order of the account, each once, in creation order. */
    method GetOrdersByAccount(accountId: AccountId) returns (r: seq<CondOrder>)
      requires Inv(Current())
      ensures |r| == |Listed(byAccount, accountId)|
      ensures forall i | 0 <= i < |r| ::
                Listed(byAccount, accountId)[i] in orders && r[i] == orders[Listed(byAccount, accountId)[i]]
      ensures forall id | id in orders :: orders[id] in r <==> orders[id].req.accountId == accountId
    {
      r := [];
      var ids := Listed(byAccount, accountId);
      for i := 0 to |ids|
        invariant |r| == i && forall j | 0 <= j < i :: ids[j] in orders && r[j] == orders[ids[j]]
      {
        assert ids[i] in ids;
        if ids[i] in orders {
          r := r + [orders[ids[i]]];
        }
      }
      forall id | id in orders
        ensures orders[id] in r <==> orders[id].req.accountId == accountId
      {
        if orders[id].req.accountId == accountId {
          assert id in ids;
          var k :| 0 <= k < |ids| && ids[k] == id;
          assert r[k] == orders[id];
        }
        if orders[id] in r {
          var k :| 0 <= k < |r| && r[k] == orders[id];
          assert ids[k] in ids;
        }
      }
    }

    method GetStatistics() returns (st: Statistics)
      ensures st.total == |orders|
      ensures st.pending == |WithStatus(orders, Pending)| && st.triggered == |WithStatus(orders, Triggered)|
      ensures st.cancelled == |WithStatus(orders, Cancelled)| && st.expired == |WithStatus(orders, Expired)|
      ensures st.failed == |WithStatus(orders, Failed)|
      ensures st.pending + st.triggered + st.cancelled + st.expired + st.failed == st.total
    {
      var pending, triggered, cancelled, expired, failed := 0, 0, 0, 0, 0;
      var todo := orders.Keys;
      ghost var seen: map<CondId, CondOrder> := map[];
      while todo != {}
        invariant todo <= orders.Keys && seen.Keys == orders.Keys - todo
        invariant forall id | id in seen :: seen[id] == orders[id]
        invariant pending == |WithStatus(seen, Pending)| && triggered == |WithStatus(seen, Triggered)|
        invariant cancelled == |WithStatus(seen, Cancelled)| && expired == |WithStatus(seen, Expired)|
        invariant failed == |WithStatus(seen, Failed)|
      {
        var id :| id in todo;
        forall s: Status
          ensures |WithStatus(seen[id := orders[id]], s)| ==
                  |WithStatus(seen, s)| + if orders[id].status == s then 1 else 0
        {
          StatusSnoc(seen, id, orders[id], s);
        }
        match orders[id].status {
          case Pending => pending := pending + 1;
          case Triggered => triggered := triggered + 1;
          case Cancelled => cancelled := cancelled + 1;
          case Expired => expired := expired + 1;
          case Failed => failed := failed + 1;
        }
        seen := seen[id := orders[id]];
        todo := todo - {id};
      }
      assert seen == orders;
      StatusesPartition(orders);
      return Statistics(|orders|, pending, triggered, cancelled, expired, failed);
    }
  }

  lemma StatusSnoc(seen: map<CondId, CondOrder>, id: CondId, o: CondOrder, s: Status)
    requires id !in seen
    ensures |WithStatus(seen[id := o], s)| == |WithStatus(seen, s)| + if o.status == s then 1 else 0
  {
    assert WithStatus(seen[id := o], s) == WithStatus(seen, s) + if o.status == s then {id} else {};
  }

  /** The orders of a list that fire, with their new contents. */
  function FiredOrders(orders: map<CondId, CondOrder>, ids: seq<CondId>, price: real, w: World): seq<CondOrder> {
    if ids == [] then [] else
      var init, last := ids[..|ids| - 1], ids[|ids| - 1];
      if last in orders && Fires(orders[last], price, w)
      then FiredOrders(orders, init, price, w) + [Fired(orders[last], w)]
      else FiredOrders(orders, init, price, w)
  }

  lemma FiredByCheck(s: State, instrumentId: InstrumentId, price: real, w: World)
    requires Inv(s)
    ensures forall id :: FiredId(FiredOrders(s.orders, Listed(s.byInstrument, instrumentId), price, w), id) <==>
              id in s.orders && s.orders[id].status == Pending && Hit(s.orders[id].req, id, CheckOp(instrumentId, price, w))
  {
    var ids := Listed(s.byInstrument, instrumentId);
    assert ListsExactly(ids, set id | id in s.orders && s.orders[id].req.instrumentId == instrumentId);
    forall id
      ensures FiredId(FiredOrders(s.orders, ids, price, w), id) <==>
              id in s.orders && s.orders[id].status == Pending && Hit(s.orders[id].req, id, CheckOp(instrumentId, price, w))
    {
      FiredAre(s.orders, ids, CheckOp(instrumentId, price, w), id);
    }
  }

  ghost predicate FiredId(fired: seq<CondOrder>, id: CondId) {
    exists m :: 0 <= m < |fired| && fired[m].id == id
  }

  /** The list names exactly the orders that wait for this instrument and whose price the check reaches in time. */
  lemma {:induction false} FiredAre(orders: map<CondId, CondOrder>, ids: seq<CondId>, op: Op, id: CondId)
    requires op.CheckOp? && (forall k | k in orders :: orders[k].id == k)
    requires forall k | k in ids && k in orders :: orders[k].req.instrumentId == op.instrumentId
    ensures FiredId(FiredOrders(orders, ids, op.price, op.world), id) <==>
            id in ids && id in orders && orders[id].status == Pending && Hit(orders[id].req, id, op)
  {
    if ids == [] {
    } else {
      var init, last := ids[..|ids| - 1], ids[|ids| - 1];
      var before := FiredOrders(orders, init, op.price, op.world);
      assert ids == init + [last];
      FiredAre(orders, init, op, id);
      if last in orders && Fires(orders[last], op.price, op.world) {
        FiredSnoc(before, Fired(orders[last], op.world), id);
      }
    }
  }

  lemma FiredSnoc(fired: seq<CondOrder>, o: CondOrder, id: CondId)
    ensures FiredId(fired + [o], id) <==> FiredId(fired, id) || o.id == id
  {
    if FiredId(fired, id) {
      var m :| 0 <= m < |fired| && fired[m].id == id;
      assert (fired + [o])[m].id == id;
    }
    assert (fired + [o])[|fired|] == o;
  }

  lemma ScanStep(s: State, ids: seq<CondId>, i: nat, price: real, w: World)
    requires Inv(s) && i < |ids| && NoDup(ids) && forall id | id in ids :: id in s.orders
    ensures Scan(s, ids[..i + 1], price, w) == ScanOne(Scan(s, ids[..i], price, w), ids[i], price, w)
    ensures FiredOrders(s.orders, ids[..i + 1], price, w) ==
            if Fires(s.orders[ids[i]], price, w)
            then FiredOrders(s.orders, ids[..i], price, w) + [Fired(s.orders[ids[i]], w)]
            else FiredOrders(s.orders, ids[..i], price, w)
    ensures ids[i] in Scan(s, ids[..i], price, w).orders
    ensures Scan(s, ids[..i], price, w).orders[ids[i]] == s.orders[ids[i]] && s.orders[ids[i]].id == ids[i]
  {
    assert ids[..i + 1][..i] == ids[..i];
    assert ids[i] in ids;
    ScanActsPerOrder(s, ids[..i], price, w);
  }
}
