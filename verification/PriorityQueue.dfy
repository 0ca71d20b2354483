/** The three-lane order queue: first-in first-out lanes, a bounded low lane and a batch scheduler. */
module PriorityQueue {
  import opened Common
  import opened Seqs

  datatype Priority = Low | Normal | Critical

  datatype OrderRequest = OrderRequest(accountId: string, instrumentId: string, volume: real, price: real)

  datatype QueuedOrder = QueuedOrder(order: OrderRequest, priority: Priority, submitTime: int)

  const LOW_AMOUNT_THRESHOLD: real := 500.0

  datatype Config = Config(lowQueueLimit: nat, criticalAmountThreshold: real)

  datatype State = State(critical: seq<QueuedOrder>, normal: seq<QueuedOrder>, low: seq<QueuedOrder>, vips: seq<string>)

  const EMPTY: State := State([], [], [], [])

  function PriorityFor(config: Config, vip: bool, amount: real): Priority {
    if vip then Critical
    else if amount >= config.criticalAmountThreshold then Critical
    else if amount < LOW_AMOUNT_THRESHOLD then Low
    else Normal
  }

  function PriorityOf(config: Config, vips: seq<string>, order: OrderRequest): Priority {
    PriorityFor(config, order.accountId in vips, order.price * order.volume)
  }

  function Rank(p: Priority): nat {
    match p case Low => 0 case Normal => 1 case Critical => 2
  }

  lemma PriorityForIs(config: Config, vip: bool, x: real, more: bool, y: real)
    requires x <= y && (vip ==> more)
    ensures Rank(PriorityFor(config, vip, x)) <= Rank(PriorityFor(config, more, y))
    ensures PriorityFor(config, vip, x) == Critical <==> vip || x >= config.criticalAmountThreshold
    ensures PriorityFor(config, vip, x) == Low <==> !vip && x < 500.0 && x < config.criticalAmountThreshold
  {
  }

  /** A larger amount never lowers an order's priority, and neither do more VIP users, whatever the threshold
      for large orders is. VIPs and large orders are critical; of the others, those below 500 are low. */
  lemma PriorityMonotone(config: Config, vips: seq<string>, more: seq<string>, a: OrderRequest, b: OrderRequest)
    requires a.accountId == b.accountId && a.price * a.volume <= b.price * b.volume
    requires forall u | u in vips :: u in more
    ensures Rank(PriorityOf(config, vips, a)) <= Rank(PriorityOf(config, more, b))
    ensures PriorityOf(config, vips, a) == Critical <==>
            a.accountId in vips || a.price * a.volume >= config.criticalAmountThreshold
    ensures PriorityOf(config, vips, a) == Low <==>
            a.accountId !in vips && a.price * a.volume < 500.0 && a.price * a.volume < config.criticalAmountThreshold
  {
    PriorityForIs(config, a.accountId in vips, a.price * a.volume, b.accountId in more, b.price * b.volume);
  }

  function Lane(s: State, p: Priority): seq<QueuedOrder> {
    match p case Critical => s.critical case Normal => s.normal case Low => s.low
  }

  function TotalLen(s: State): nat {
    |s.critical| + |s.normal| + |s.low|
  }

  // ----- what each operation does -----

  function Accepts(config: Config, s: State, order: OrderRequest): bool {
    PriorityOf(config, s.vips, order) == Low ==> |s.low| < config.lowQueueLimit
  }

  function Enqueued(config: Config, s: State, order: OrderRequest, time: int): State {
    var p := PriorityOf(config, s.vips, order);
    var q := QueuedOrder(order, p, time);
    if !Accepts(config, s, order) then s
    else match p
      case Critical => s.(critical := s.critical + [q])
      case Normal => s.(normal := s.normal + [q])
      case Low => s.(low := s.low + [q])
  }

  /** The next single order. The low lane is skipped when it is exactly full. */
  function Next(config: Config, s: State): (Option<QueuedOrder>, State) {
    if s.critical != [] then (Some(s.critical[0]), s.(critical := s.critical[1..]))
    else if s.normal != [] then (Some(s.normal[0]), s.(normal := s.normal[1..]))
    else if 0 < |s.low| < config.lowQueueLimit then (Some(s.low[0]), s.(low := s.low[1..]))
    else (None, s)
  }

  function LowShare(batchSize: nat): nat {
    if batchSize / 10 >= 1 then batchSize / 10 else 1
  }

  /** How many orders of each lane a batch takes. */
  function TakenCritical(s: State, batchSize: nat): nat {
    Min(|s.critical|, batchSize)
  }

  function TakenNormal(s: State, batchSize: nat): nat {
    Min(|s.normal|, batchSize - TakenCritical(s, batchSize))
  }

  function TakenLow(s: State, batchSize: nat, share: nat): nat {
    Min(Min(|s.low|, batchSize - TakenCritical(s, batchSize) - TakenNormal(s, batchSize)), share)
  }

  /** A batch with room for `share` low orders. */
  function Cut(s: State, batchSize: nat, share: nat): seq<QueuedOrder> {
    s.critical[..TakenCritical(s, batchSize)] + s.normal[..TakenNormal(s, batchSize)] + s.low[..TakenLow(s, batchSize, share)]
  }

  function AfterCut(s: State, batchSize: nat, share: nat): State {
    State(s.critical[TakenCritical(s, batchSize)..], s.normal[TakenNormal(s, batchSize)..],
          s.low[TakenLow(s, batchSize, share)..], s.vips)
  }

  function Batch(s: State, batchSize: nat): seq<QueuedOrder> {
    Cut(s, batchSize, LowShare(batchSize))
  }

  function AfterBatch(s: State, batchSize: nat): State {
    AfterCut(s, batchSize, LowShare(batchSize))
  }

  // ----- the queue object -----

  class PriorityOrderQueue {
    const config: Config
    var criticalQueue: seq<QueuedOrder>
    var normalQueue: seq<QueuedOrder>
    var lowQueue: seq<QueuedOrder>
    var vipUsers: seq<string>

    ghost function Current(): State
      reads this
    {
      State(criticalQueue, normalQueue, lowQueue, vipUsers)
    }

    constructor (config: Config)
      ensures this.config == config && Current() == EMPTY
    {
      this.config := config;
      criticalQueue, normalQueue, lowQueue, vipUsers := [], [], [], [];
    }

    method AddVipUser(userId: string)
      modifies this
      ensures Current() == old(Current()).(vips := old(vipUsers) + [userId])
    {
      vipUsers := vipUsers + [userId];
    }

    method Enqueue(order: OrderRequest, time: int) returns (accepted: bool)
      modifies this
      ensures Current() == Enqueued(config, old(Current()), order, time)
      ensures accepted == Accepts(config, old(Current()), order)
    {
      var priority := PriorityOf(config, vipUsers, order);
      var req := QueuedOrder(order, priority, time);
      match priority {
        case Critical =>
          criticalQueue := criticalQueue + [req];
        case Normal =>
          normalQueue := normalQueue + [req];
        case Low =>
          if |lowQueue| >= config.lowQueueLimit {
            return false;
          }
          lowQueue := lowQueue + [req];
      }
      return true;
    }

    method Dequeue() returns (r: Option<QueuedOrder>)
      modifies this
      ensures (r, Current()) == Next(config, old(Current()))
    {
      if criticalQueue != [] {
        r, criticalQueue := Some(criticalQueue[0]), criticalQueue[1..];
        return;
      }
      if normalQueue != [] {
        r, normalQueue := Some(normalQueue[0]), normalQueue[1..];
        return;
      }
      if |lowQueue| > 0 && |lowQueue| < config.lowQueueLimit {
        r, lowQueue := Some(lowQueue[0]), lowQueue[1..];
        return;
      }
      return None;
    }

    method DequeueBatch(batchSize: nat) returns (batch: seq<QueuedOrder>)
      modifies this
      ensures batch == Batch(old(Current()), batchSize) && Current() == AfterBatch(old(Current()), batchSize)
    {
      batch := TakeBatch(batchSize, LowShare(batchSize));
    }

    /** The three lane loops, with room for `lowLimit` low orders. */
    method TakeBatch(batchSize: nat, lowLimit: nat) returns (batch: seq<QueuedOrder>)
      modifies this
      ensures batch == Cut(old(Current()), batchSize, lowLimit) && Current() == AfterCut(old(Current()), batchSize, lowLimit)
    {
      var critical, urgent := PopInto(criticalQueue, batchSize, batchSize);
      var normal, ordinary := PopInto(normalQueue, batchSize - |critical|, batchSize);
      var low, rest := PopInto(lowQueue, batchSize - |critical| - |normal|, lowLimit);
      Assembled(Current(), batchSize, lowLimit, critical, normal, low, State(urgent, ordinary, rest, vipUsers));
      criticalQueue, normalQueue, lowQueue := urgent, ordinary, rest;
      batch := critical + normal + low;
    }
  }

  /** `taken` is as long a prefix of the lane as room and limit allow, and `rest` is what follows it. */
  ghost predicate Popped(lane: seq<QueuedOrder>, room: nat, limit: nat, taken: seq<QueuedOrder>, rest: seq<QueuedOrder>) {
    && lane == taken + rest && |taken| <= room && |taken| <= limit
    && (rest == [] || |taken| == room || |taken| == limit)
  }

  lemma PoppedIs(lane: seq<QueuedOrder>, room: nat, limit: nat, taken: seq<QueuedOrder>, rest: seq<QueuedOrder>)
    requires Popped(lane, room, limit, taken, rest)
    ensures var k := Min(Min(|lane|, room), limit); |taken| == k && taken == lane[..k] && rest == lane[k..]
  {
  }

  /** Popping the three lanes one after the other gives the batch. */
  lemma Assembled(s: State, batchSize: nat, share: nat, critical: seq<QueuedOrder>, normal: seq<QueuedOrder>,
                  low: seq<QueuedOrder>, s': State)
    requires Popped(s.critical, batchSize, batchSize, critical, s'.critical)
    requires Popped(s.normal, batchSize - |critical|, batchSize, normal, s'.normal)
    requires Popped(s.low, batchSize - |critical| - |normal|, share, low, s'.low)
    requires s'.vips == s.vips
    ensures critical + normal + low == Cut(s, batchSize, share) && s' == AfterCut(s, batchSize, share)
  {
    PoppedIs(s.critical, batchSize, batchSize, critical, s'.critical);
    PoppedIs(s.normal, batchSize - |critical|, batchSize, normal, s'.normal);
    PoppedIs(s.low, batchSize - |critical| - |normal|, share, low, s'.low);
    assert |critical| == TakenCritical(s, batchSize);
    assert |normal| == TakenNormal(s, batchSize);
    assert |low| == TakenLow(s, batchSize, share);
  }

  /** Pops orders off the front of a lane, at most `limit` of them, until the room left in the batch is used up. */
  method PopInto(lane: seq<QueuedOrder>, room: nat, limit: nat) returns (taken: seq<QueuedOrder>, rest: seq<QueuedOrder>)
    ensures Popped(lane, room, limit, taken, rest)
  {
    taken, rest := [], lane;
    while rest != [] && |taken| < room && |taken| < limit
      invariant lane == taken + rest && |taken| <= room && |taken| <= limit
      decreases |rest|
    {
      taken, rest := taken + [rest[0]], rest[1..];
    }
  }

  // ----- runs -----

  datatype Op =
    | EnqueueOp(order: OrderRequest, time: int)
    | DequeueOp
    | BatchOp(batchSize: nat)
    | AddVipOp(userId: string)

  /** A queue with the orders it has accepted and handed out so far. */
  datatype History = History(queue: State, accepted: seq<QueuedOrder>, delivered: seq<QueuedOrder>)

  function Perform(config: Config, h: History, op: Op): History {
    match op
    case EnqueueOp(order, time) =>
      History(Enqueued(config, h.queue, order, time),
              if Accepts(config, h.queue, order)
              then h.accepted + [QueuedOrder(order, PriorityOf(config, h.queue.vips, order), time)] else h.accepted,
              h.delivered)
    case DequeueOp =>
      var (r, q) := Next(config, h.queue);
      History(q, h.accepted, if r.Some? then h.delivered + [r.value] else h.delivered)
    case BatchOp(n) => History(AfterBatch(h.queue, n), h.accepted, h.delivered + Batch(h.queue, n))
    case AddVipOp(u) => h.(queue := h.queue.(vips := h.queue.vips + [u]))
  }

  function After(config: Config, ops: seq<Op>): History {
    if ops == [] then History(EMPTY, [], []) else Perform(config, After(config, ops[..|ops| - 1]), ops[|ops| - 1])
  }

  function OfPriority(s: seq<QueuedOrder>, p: Priority): seq<QueuedOrder> {
    Filter(s, (q: QueuedOrder) => q.priority == p)
  }

  ghost predicate Homogeneous(s: seq<QueuedOrder>, p: Priority) {
    forall i | 0 <= i < |s| :: s[i].priority == p
  }

  /** Per lane, what was accepted is what was handed out followed by what is queued, in order; lanes hold
      only their own priority and the low lane respects its limit. */
  ghost predicate Inv(config: Config, h: History) {
    && (forall p :: OfPriority(h.accepted, p) == OfPriority(h.delivered, p) + Lane(h.queue, p))
    && OwnLanes(h.queue)
    && |h.queue.low| <= config.lowQueueLimit
  }

  lemma OfPriorityConcat(a: seq<QueuedOrder>, b: seq<QueuedOrder>, p: Priority)
    ensures OfPriority(a + b, p) == OfPriority(a, p) + OfPriority(b, p)
  {
    FilterConcat(a, b, (q: QueuedOrder) => q.priority == p);
  }

  lemma {:induction false} OfPriorityLane(s: seq<QueuedOrder>, own: Priority, p: Priority)
    requires Homogeneous(s, own)
    ensures OfPriority(s, p) == if p == own then s else []
  {
    if s == [] {
    } else {
      OfPriorityLane(s[..|s| - 1], own, p);
    }
  }

  lemma Joined<T>(a: seq<T>, b: seq<T>, c: seq<T>)
    ensures a == [] && b == [] ==> a + b + c == c
    ensures a == [] && c == [] ==> a + b + c == b
    ensures b == [] && c == [] ==> a + b + c == a
  {
  }

  lemma ThreeLanes(c: seq<QueuedOrder>, n: seq<QueuedOrder>, l: seq<QueuedOrder>, p: Priority)
    requires Homogeneous(c, Critical) && Homogeneous(n, Normal) && Homogeneous(l, Low)
    ensures OfPriority(c + n + l, p) == match p case Critical => c case Normal => n case Low => l
  {
    OfPriorityConcat(c + n, l, p);
    OfPriorityConcat(c, n, p);
    OfPriorityLane(c, Critical, p);
    OfPriorityLane(n, Normal, p);
    OfPriorityLane(l, Low, p);
    Joined(OfPriority(c, p), OfPriority(n, p), OfPriority(l, p));
  }

  ghost predicate OwnLanes(s: State) {
    Homogeneous(s.critical, Critical) && Homogeneous(s.normal, Normal) && Homogeneous(s.low, Low)
  }

  lemma LanePrefix(s: seq<QueuedOrder>, k: nat, p: Priority)
    requires Homogeneous(s, p) && k <= |s|
    ensures Homogeneous(s[..k], p) && Homogeneous(s[k..], p)
  {
  }

  lemma CutOfLane(s: State, n: nat, share: nat, p: Priority)
    requires OwnLanes(s)
    ensures OfPriority(Cut(s, n, share), p) ==
            match p
            case Critical => s.critical[..TakenCritical(s, n)]
            case Normal => s.normal[..TakenNormal(s, n)]
            case Low => s.low[..TakenLow(s, n, share)]
  {
    var c, m, l := TakenCritical(s, n), TakenNormal(s, n), TakenLow(s, n, share);
    LanePrefix(s.critical, c, Critical);
    LanePrefix(s.normal, m, Normal);
    LanePrefix(s.low, l, Low);
    ThreeLanes(s.critical[..c], s.normal[..m], s.low[..l], p);
  }

  lemma Rejoined<T>(s: seq<T>, k: nat)
    requires k <= |s|
    ensures s[..k] + s[k..] == s
  {
  }

  lemma CutByLane(s: State, n: nat, share: nat, p: Priority)
    requires OwnLanes(s)
    ensures OfPriority(Cut(s, n, share), p) + Lane(AfterCut(s, n, share), p) == Lane(s, p)
  {
    CutOfLane(s, n, share, p);
    match p
    case Critical => Rejoined(s.critical, TakenCritical(s, n));
    case Normal => Rejoined(s.normal, TakenNormal(s, n));
    case Low => Rejoined(s.low, TakenLow(s, n, share));
  }

  lemma CutKeepsLanes(s: State, n: nat, share: nat)
    requires OwnLanes(s)
    ensures OwnLanes(AfterCut(s, n, share))
  {
  }

  lemma BatchKeepsInv(config: Config, h: History, n: nat)
    requires Inv(config, h)
    ensures Inv(config, Perform(config, h, BatchOp(n)))
  {
    forall p
      ensures OfPriority(h.accepted, p) == OfPriority(h.delivered + Batch(h.queue, n), p) + Lane(AfterBatch(h.queue, n), p)
    {
      CutByLane(h.queue, n, LowShare(n), p);
      OfPriorityConcat(h.delivered, Batch(h.queue, n), p);
      Associate(OfPriority(h.delivered, p), OfPriority(Batch(h.queue, n), p), Lane(AfterBatch(h.queue, n), p));
    }
    CutKeepsLanes(h.queue, n, LowShare(n));
  }

  /** Moving the head of one lane to the delivered orders. */
  lemma HeadDelivered(accepted: seq<QueuedOrder>, delivered: seq<QueuedOrder>, lane: seq<QueuedOrder>, x: QueuedOrder, p: Priority)
    requires OfPriority(accepted, p) == OfPriority(delivered, p) + if x.priority == p then [x] + lane else lane
    ensures OfPriority(accepted, p) == OfPriority(delivered + [x], p) + lane
  {
    OfPriorityConcat(delivered, [x], p);
    OfPriorityLane([x], x.priority, p);
    if x.priority == p {
      Associate(OfPriority(delivered, p), [x], lane);
    }
  }

  lemma NextByLane(config: Config, s: State, p: Priority)
    requires OwnLanes(s) && Next(config, s).0.Some?
    ensures var (r, q) := Next(config, s);
            Lane(s, p) == if r.value.priority == p then [r.value] + Lane(q, p) else Lane(q, p)
  {
  }

  lemma NextKeepsLanes(config: Config, s: State)
    requires OwnLanes(s)
    ensures OwnLanes(Next(config, s).1) && |Next(config, s).1.low| <= |s.low|
  {
  }

  lemma DequeueKeepsInv(config: Config, h: History)
    requires Inv(config, h)
    ensures Inv(config, Perform(config, h, DequeueOp))
  {
    var (r, q) := Next(config, h.queue);
    NextKeepsLanes(config, h.queue);
    if r.Some? {
      forall p
        ensures OfPriority(h.accepted, p) == OfPriority(h.delivered + [r.value], p) + Lane(q, p)
      {
        NextByLane(config, h.queue, p);
        HeadDelivered(h.accepted, h.delivered, Lane(q, p), r.value, p);
      }
    }
  }

  /** Appending one accepted order to its lane. */
  lemma TailAccepted(accepted: seq<QueuedOrder>, delivered: seq<QueuedOrder>, lane: seq<QueuedOrder>, x: QueuedOrder, p: Priority)
    requires OfPriority(accepted, p) == OfPriority(delivered, p) + lane
    ensures OfPriority(accepted + [x], p) == OfPriority(delivered, p) + if x.priority == p then lane + [x] else lane
  {
    OfPriorityConcat(accepted, [x], p);
    OfPriorityLane([x], x.priority, p);
  }

  lemma EnqueueKeepsInv(config: Config, h: History, order: OrderRequest, time: int)
    requires Inv(config, h)
    ensures Inv(config, Perform(config, h, EnqueueOp(order, time)))
  {
    var x := QueuedOrder(order, PriorityOf(config, h.queue.vips, order), time);
    var q := Enqueued(config, h.queue, order, time);
    if Accepts(config, h.queue, order) {
      forall p
        ensures OfPriority(h.accepted + [x], p) == OfPriority(h.delivered, p) + Lane(q, p)
      {
        TailAccepted(h.accepted, h.delivered, Lane(h.queue, p), x, p);
      }
    }
  }

  /** In every run each lane is first-in first-out, nothing accepted is lost or duplicated, and the low lane
      never exceeds its limit. */
  lemma {:induction false} RunConserves(config: Config, ops: seq<Op>)
    ensures Inv(config, After(config, ops))
  {
    if ops == [] {
    } else {
      var h := After(config, ops[..|ops| - 1]);
      RunConserves(config, ops[..|ops| - 1]);
      match ops[|ops| - 1]
      case EnqueueOp(order, time) => EnqueueKeepsInv(config, h, order, time);
      case DequeueOp => DequeueKeepsInv(config, h);
      case BatchOp(n) => BatchKeepsInv(config, h, n);
      case AddVipOp(u) =>
        assert forall p :: Lane(h.queue.(vips := h.queue.vips + [u]), p) == Lane(h.queue, p);
    }
  }

  lemma {:induction false} SplitByPriority(s: seq<QueuedOrder>)
    ensures multiset(s) == multiset(OfPriority(s, Critical)) + multiset(OfPriority(s, Normal)) + multiset(OfPriority(s, Low))
  {
    forall x
      ensures multiset(s)[x] == multiset(OfPriority(s, Critical))[x] + multiset(OfPriority(s, Normal))[x] + multiset(OfPriority(s, Low))[x]
    {
      FilterCount(s, (q: QueuedOrder) => q.priority == Critical, x);
      FilterCount(s, (q: QueuedOrder) => q.priority == Normal, x);
      FilterCount(s, (q: QueuedOrder) => q.priority == Low, x);
    }
  }

  /** Accepted orders are delivered plus queued ones, as multisets. */
  lemma RunConservesMultiset(config: Config, ops: seq<Op>)
    ensures var h := After(config, ops);
            multiset(h.accepted) == multiset(h.delivered) + multiset(h.queue.critical) + multiset(h.queue.normal) + multiset(h.queue.low)
  {
    var h := After(config, ops);
    RunConserves(config, ops);
    SplitByPriority(h.accepted);
    SplitByPriority(h.delivered);
    assert OfPriority(h.accepted, Critical) == OfPriority(h.delivered, Critical) + Lane(h.queue, Critical);
    assert OfPriority(h.accepted, Normal) == OfPriority(h.delivered, Normal) + Lane(h.queue, Normal);
    assert OfPriority(h.accepted, Low) == OfPriority(h.delivered, Low) + Lane(h.queue, Low);
  }

  // ----- scheduling -----

  lemma VipsStep(config: Config, h: History, op: Op, u: string)
    ensures u in Perform(config, h, op).queue.vips <==> u in h.queue.vips || op == AddVipOp(u)
  {
  }

  /** The VIPs are exactly the users that have been added. */
  lemma {:induction false} VipsAre(config: Config, ops: seq<Op>, u: string)
    ensures u in After(config, ops).queue.vips <==> AddVipOp(u) in ops
  {
    if ops == [] {
    } else {
      var init, last := ops[..|ops| - 1], ops[|ops| - 1];
      VipsAre(config, init, u);
      VipsStep(config, After(config, init), last, u);
      assert ops == init + [last];
    }
  }

  /** After any run, an order is accepted exactly unless it is neither a VIP's nor large, is below 500, and the low
      lane is full; accepted orders take their place at the end. */
  lemma AcceptedIff(config: Config, ops: seq<Op>, order: OrderRequest, time: int)
    ensures var h, h' := After(config, ops), Perform(config, After(config, ops), EnqueueOp(order, time));
            var refused := order.accountId !in h.queue.vips && order.price * order.volume < 500.0 &&
                           order.price * order.volume < config.criticalAmountThreshold && |h.queue.low| >= config.lowQueueLimit;
      && (refused ==> h' == h)
      && (!refused ==>
            && |h'.accepted| == |h.accepted| + 1 && h.accepted <= h'.accepted
            && h'.accepted[|h.accepted|].order == order && h'.accepted[|h.accepted|].submitTime == time)
  {
  }

  /** After any run, a single dequeue gives the oldest order of its lane, and only when no lane of higher priority
      holds an order. */
  lemma DequeueServesHighest(config: Config, ops: seq<Op>)
    ensures var s := After(config, ops).queue;
            var (r, s') := Next(config, s);
            r.Some? ==>
              && Lane(s, r.value.priority) != [] && r.value == Lane(s, r.value.priority)[0]
              && (forall p | Rank(p) > Rank(r.value.priority) :: Lane(s, p) == [])
              && (forall p :: Lane(s', p) == if p == r.value.priority then Lane(s, p)[1..] else Lane(s, p))
  {
    RunConserves(config, ops);
  }

  /** After any run, a batch lists orders of higher priority first. */
  lemma BatchHighestFirst(config: Config, ops: seq<Op>, n: nat)
    ensures var batch := Batch(After(config, ops).queue, n);
            forall i, j | 0 <= i < j < |batch| :: Rank(batch[i].priority) >= Rank(batch[j].priority)
  {
    RunConserves(config, ops);
    CutHighestFirst(After(config, ops).queue, n, LowShare(n));
  }

  lemma CutHighestFirst(s: State, n: nat, share: nat)
    requires OwnLanes(s)
    ensures forall i, j | 0 <= i < j < |Cut(s, n, share)| :: Rank(Cut(s, n, share)[i].priority) >= Rank(Cut(s, n, share)[j].priority)
  {
    var c, m := TakenCritical(s, n), TakenNormal(s, n);
    assert forall i | 0 <= i < |Cut(s, n, share)| ::
      Cut(s, n, share)[i] == if i < c then s.critical[i] else if i < c + m then s.normal[i - c] else s.low[i - c - m];
  }

  /** A batch may hold a tenth of its size of low orders, rounded down, and always at least one. */
  lemma LowShareIs(n: nat)
    ensures n < 20 ==> LowShare(n) == 1
    ensures n >= 10 ==> 10 * LowShare(n) <= n < 10 * LowShare(n) + 10
  {
  }

  /** A batch never leaves room for a higher lane: it is full, or the lane is empty, before it goes on to the
      next lane; the low lane contributes at most its share, and fills it when it can. */
  lemma BatchIsMaximal(s: State, n: nat)
    ensures |Batch(s, n)| <= n
    ensures var m, l := TakenNormal(s, n), TakenLow(s, n, LowShare(n));
      && (m > 0 || l > 0 ==> AfterBatch(s, n).critical == [])
      && (l > 0 ==> AfterBatch(s, n).normal == [])
      && l <= LowShare(n)
      && (|Batch(s, n)| == n || l == LowShare(n) || TotalLen(AfterBatch(s, n)) == 0)
  {
  }

  /** The states a queue goes through while only batches of one size are taken. */
  ghost predicate BatchRun(states: seq<State>, n: nat) {
    states != [] && forall i | 0 <= i < |states| - 1 :: states[i + 1] == AfterBatch(states[i], n)
  }

  /** A non-empty batch takes something from a queue that holds something. */
  lemma BatchMakesProgress(s: State, n: nat)
    requires n > 0
    ensures TotalLen(AfterBatch(s, n)) < TotalLen(s) || TotalLen(AfterBatch(s, n)) == TotalLen(s) == 0
  {
    LowShareAtLeastOne(n);
    CutMakesProgress(s, n, LowShare(n));
  }

  lemma CutMakesProgress(s: State, n: nat, share: nat)
    requires n > 0 && share > 0
    ensures TotalLen(AfterCut(s, n, share)) < TotalLen(s) || TotalLen(AfterCut(s, n, share)) == TotalLen(s) == 0
  {
  }

  lemma LowShareAtLeastOne(n: nat)
    ensures LowShare(n) >= 1
  {
  }

  /** Repeated non-empty batches drain every lane, the low one included, by at least one order a batch. */
  lemma {:induction false} BatchesDrain(states: seq<State>, n: nat, k: nat)
    requires n > 0 && BatchRun(states, n) && k < |states|
    ensures TotalLen(states[k]) + k <= TotalLen(states[0]) || TotalLen(states[k]) == 0
  {
    if k == 0 {
    } else {
      BatchesDrain(states, n, k - 1);
      BatchMakesProgress(states[k - 1], n);
      assert states[k - 1 + 1] == AfterBatch(states[k - 1], n);
    }
  }

  /** Single dequeues deliver nothing exactly when the urgent lanes are empty and the low lane is empty or
      full, in any reachable state. */
  lemma DequeueNoneIff(config: Config, ops: seq<Op>)
    ensures var q := After(config, ops).queue;
            Next(config, q).0 == None <==>
            q.critical == [] && q.normal == [] && (q.low == [] || |q.low| == config.lowQueueLimit)
  {
    RunConserves(config, ops);
  }

  function Following(config: Config, h: History, ops: seq<Op>): History {
    if ops == [] then h else Perform(config, Following(config, h, ops[..|ops| - 1]), ops[|ops| - 1])
  }

  /** Once the low lane is full, single dequeues never serve it again: whatever else is enqueued or dequeued,
      the lane stays exactly as it is until a batch is taken. */
  lemma {:induction false} FullLowLaneIsStuck(config: Config, h: History, ops: seq<Op>)
    requires |h.queue.low| == config.lowQueueLimit
    requires forall i | 0 <= i < |ops| :: !ops[i].BatchOp?
    ensures Following(config, h, ops).queue.low == h.queue.low
    ensures OfPriority(Following(config, h, ops).accepted, Low) == OfPriority(h.accepted, Low)
  {
    if ops == [] {
    } else {
      var before := Following(config, h, ops[..|ops| - 1]);
      FullLowLaneIsStuck(config, h, ops[..|ops| - 1]);
      assert !ops[|ops| - 1].BatchOp?;
      match ops[|ops| - 1]
      case EnqueueOp(order, time) =>
        var x := QueuedOrder(order, PriorityOf(config, before.queue.vips, order), time);
        OfPriorityConcat(before.accepted, [x], Low);
        OfPriorityLane([x], x.priority, Low);
      case _ =>
    }
  }
}
