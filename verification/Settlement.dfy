/** Daily settlement: mark-to-market profit, the totals of one settlement day, the per-account history and the
    plans of a forced close. Amounts are exact reals. */
module Settlement {
  import opened Common
  import opened Seqs

  datatype Code = Code(text: string)

  datatype AccountId = AccountId(text: string)

  datatype Position = Position(longToday: real, longHis: real, shortToday: real, shortHis: real, openLong: real, openShort: real)

  datatype Holding = Holding(code: Code, pos: Position)

  /** An account; `hold` lists its positions in the order in which the hash map yields them. */
  datatype Account = Account(id: AccountId, balance: real, closeProfit: real, commission: real, margin: real, hold: seq<Holding>)

  type Prices = map<Code, real>

  const FORCED_RISK: real := 999.0
  const HISTORY_LIMIT: nat := 180
  const MIN_PRICE: real := 0.01

  // ----- mark to market -----

  function Effective(volume: real): real {
    if volume > 0.0 then volume else 0.0
  }

  function Long(pos: Position): real {
    Effective(pos.longToday + pos.longHis)
  }

  function Short(pos: Position): real {
    Effective(pos.shortToday + pos.shortHis)
  }

  function LongProfit(price: real, pos: Position): real {
    (price - pos.openLong) * (pos.longToday + pos.longHis)
  }

  function ShortProfit(price: real, pos: Position): real {
    (pos.openShort - price) * (pos.shortToday + pos.shortHis)
  }

  /** A side counts only with a positive volume. */
  function HoldingProfit(price: real, pos: Position): real {
    (if pos.longToday + pos.longHis > 0.0 then LongProfit(price, pos) else 0.0) +
    if pos.shortToday + pos.shortHis > 0.0 then ShortProfit(price, pos) else 0.0
  }

  lemma HoldingProfitIs(price: real, pos: Position)
    ensures HoldingProfit(price, pos) == (price - pos.openLong) * Long(pos) + (pos.openShort - price) * Short(pos)
  {
  }

  function Marked(prices: Prices, h: Holding): real {
    if h.code in prices then HoldingProfit(prices[h.code], h.pos) else 0.0
  }

  /** The position profit of a list of holdings at the given settlement prices. */
  function Profit(prices: Prices, hold: seq<Holding>): real {
    Sum(hold, (h: Holding) => Marked(prices, h))
  }

  function NetOf(h: Holding, c: Code): real {
    if h.code == c then Long(h.pos) - Short(h.pos) else 0.0
  }

  /** Net volume, long minus short, held in one instrument. */
  function Net(hold: seq<Holding>, c: Code): real {
    Sum(hold, (h: Holding) => NetOf(h, c))
  }

  function OpeningValue(pos: Position): real {
    pos.openShort * Short(pos) - pos.openLong * Long(pos)
  }

  function OpeningOf(codes: set<Code>, h: Holding): real {
    if h.code in codes then OpeningValue(h.pos) else 0.0
  }

  /** The opening value of the holdings whose instrument is priced: a function of which codes are priced,
      never of the prices. */
  function Basis(codes: set<Code>, hold: seq<Holding>): real {
    Sum(hold, (h: Holding) => OpeningOf(codes, h))
  }

  function NetTerm(prices: Prices, hold: seq<Holding>, c: Code): real {
    if c in prices then prices[c] * Net(hold, c) else 0.0
  }

  /** The net volume of each listed instrument at its price. */
  function NetValue(prices: Prices, codes: seq<Code>, hold: seq<Holding>): real {
    Sum(codes, (c: Code) => NetTerm(prices, hold, c))
  }

  /** Every priced code, listed once. */
  ghost predicate Lists(codes: seq<Code>, prices: Prices) {
    NoDup(codes) && forall c :: c in codes <==> c in prices
  }

  /** What one holding adds to the net value. */
  function NetShare(prices: Prices, h: Holding): real {
    if h.code in prices then prices[h.code] * (Long(h.pos) - Short(h.pos)) else 0.0
  }

  lemma TermSnoc(prices: Prices, hold: seq<Holding>, h: Holding, c: Code)
    ensures NetTerm(prices, hold + [h], c) ==
            if c == h.code then NetTerm(prices, hold, c) + NetShare(prices, h) else NetTerm(prices, hold, c)
  {
    SumSnoc(hold, h, (k: Holding) => NetOf(k, c));
    if c == h.code && c in prices {
      Distribute(prices[c], Net(hold, c), Long(h.pos) - Short(h.pos));
    }
  }

  /** The net value, summed by instrument, is also the sum of every holding's share: each holding moves only
      the term of its own instrument. */
  lemma {:induction false} NetValueByHolding(prices: Prices, codes: seq<Code>, hold: seq<Holding>)
    requires Lists(codes, prices)
    ensures NetValue(prices, codes, hold) == Sum(hold, (h: Holding) => NetShare(prices, h))
  {
    if hold == [] {
      SumZero(codes, (c: Code) => NetTerm(prices, hold, c));
    } else {
      var init, h := hold[..|hold| - 1], hold[|hold| - 1];
      NetValueByHolding(prices, codes, init);
      assert hold == init + [h];
      var f, g := (c: Code) => NetTerm(prices, init, c), (c: Code) => NetTerm(prices, hold, c);
      forall c
        ensures g(c) == if c == h.code then f(c) + NetShare(prices, h) else f(c)
      {
        TermSnoc(prices, init, h, c);
      }
      SumChanged(codes, f, g, h.code, NetShare(prices, h));
    }
  }

  lemma Distribute(p: real, a: real, b: real)
    ensures p * (a + b) == p * a + p * b
  {
  }

  lemma OneMore(p: real, a: real)
    ensures (p + 1.0) * a == p * a + a
  {
  }

  lemma Realised(p: real, l: real, s: real, ol: real, os: real)
    ensures p * l - p * s + (os * s - ol * l) == (p - ol) * l + (os - p) * s
  {
  }

  lemma SplitProfit(p: real, l: real, s: real, ol: real, os: real)
    ensures (p - ol) * l + (os - p) * s == p * (l - s) + (os * s - ol * l)
  {
  }

  lemma SplitOne(price: real, pos: Position)
    ensures HoldingProfit(price, pos) == price * (Long(pos) - Short(pos)) + OpeningValue(pos)
  {
    HoldingProfitIs(price, pos);
    SplitProfit(price, Long(pos), Short(pos), pos.openLong, pos.openShort);
  }

  lemma MarkedSplits(prices: Prices, h: Holding)
    ensures Marked(prices, h) == NetShare(prices, h) + OpeningOf(prices.Keys, h)
  {
    if h.code in prices {
      SplitOne(prices[h.code], h.pos);
    }
  }

  /** The position profit is the net volumes at the settlement prices plus the opening values. */
  lemma ProfitSplits(prices: Prices, codes: seq<Code>, hold: seq<Holding>)
    requires Lists(codes, prices)
    ensures Profit(prices, hold) == NetValue(prices, codes, hold) + Basis(prices.Keys, hold)
  {
    var f, g := (h: Holding) => NetShare(prices, h), (h: Holding) => OpeningOf(prices.Keys, h);
    var m := (h: Holding) => Marked(prices, h);
    forall h
      ensures m(h) == f(h) + g(h)
    {
      MarkedSplits(prices, h);
    }
    SumPlus(hold, f, g, m);
    NetValueByHolding(prices, codes, hold);
  }

  lemma {:induction false} ListCodes(keys: set<Code>) returns (codes: seq<Code>)
    ensures NoDup(codes) && forall c :: c in codes <==> c in keys
  {
    if keys == {} {
      codes := [];
    } else {
      var c :| c in keys;
      var rest := ListCodes(keys - {c});
      codes := rest + [c];
    }
  }

  /** If every priced instrument is held long as much as short, the profit is the opening value, whatever the
      settlement prices are. */
  lemma BalancedProfit(prices: Prices, hold: seq<Holding>)
    requires forall c | c in prices :: Net(hold, c) == 0.0
    ensures Profit(prices, hold) == Basis(prices.Keys, hold)
  {
    var codes := ListCodes(prices.Keys);
    ProfitSplits(prices, codes, hold);
    SumZero(codes, (c: Code) => NetTerm(prices, hold, c));
  }

  /** The same prices with one of them raised by one unit. */
  function Bumped(prices: Prices, c: Code): Prices {
    map k | k in prices :: if k == c then prices[k] + 1.0 else prices[k]
  }

  lemma BumpedNetValue(prices: Prices, codes: seq<Code>, hold: seq<Holding>, c: Code)
    requires NoDup(codes) && c in prices
    ensures NetValue(Bumped(prices, c), codes, hold) ==
            if c in codes then NetValue(prices, codes, hold) + Net(hold, c) else NetValue(prices, codes, hold)
  {
    var f, g := (k: Code) => NetTerm(prices, hold, k), (k: Code) => NetTerm(Bumped(prices, c), hold, k);
    forall k
      ensures g(k) == if k == c then f(k) + Net(hold, c) else f(k)
    {
      if k == c {
        OneMore(prices[c], Net(hold, c));
      }
    }
    SumChanged(codes, f, g, c, Net(hold, c));
  }

  /** Raising one settlement price by one unit moves the profit by the net volume held in that instrument. */
  lemma BumpedProfit(prices: Prices, hold: seq<Holding>, c: Code)
    requires c in prices
    ensures Profit(Bumped(prices, c), hold) == Profit(prices, hold) + Net(hold, c)
  {
    var codes := ListCodes(prices.Keys);
    assert Bumped(prices, c).Keys == prices.Keys;
    ProfitSplits(prices, codes, hold);
    ProfitSplits(Bumped(prices, c), codes, hold);
    BumpedNetValue(prices, codes, hold, c);
  }

  /** No other prices for the same instruments give another profit. */
  ghost predicate PriceFree(prices: Prices, hold: seq<Holding>) {
    forall q: Prices | q.Keys == prices.Keys :: Profit(q, hold) == Profit(prices, hold)
  }

  /** Mark-to-market profit does not depend on the settlement prices exactly when long and short volumes
      balance in every priced instrument. */
  lemma PriceFreeIff(prices: Prices, hold: seq<Holding>)
    ensures PriceFree(prices, hold) <==> forall c | c in prices :: Net(hold, c) == 0.0
  {
    if PriceFree(prices, hold) {
      forall c | c in prices
        ensures Net(hold, c) == 0.0
      {
        BumpedProfit(prices, hold, c);
        assert Bumped(prices, c).Keys == prices.Keys;
      }
    }
    if forall c | c in prices :: Net(hold, c) == 0.0 {
      forall q: Prices | q.Keys == prices.Keys
        ensures Profit(q, hold) == Profit(prices, hold)
      {
        BalancedProfit(q, hold);
        BalancedProfit(prices, hold);
      }
    }
  }

  /** The hash map may yield its positions in any order. */
  lemma ProfitAnyOrder(prices: Prices, a: seq<Holding>, b: seq<Holding>)
    requires multiset(a) == multiset(b)
    ensures Profit(prices, a) == Profit(prices, b)
  {
    SumAnyOrder(a, b, (h: Holding) => Marked(prices, h));
  }

  // ----- one account -----

  datatype PreCalculated = PreCalculated(
    id: AccountId, positionProfit: real, closeProfit: real, commission: real, preBalance: real,
    newBalance: real, newMargin: real, riskRatio: real, forceClose: bool)

  function RiskRatio(margin: real, balance: real): real {
    if balance > 0.0 then margin / balance else FORCED_RISK
  }

  function PreCalc(prices: Prices, threshold: real, a: Account): PreCalculated {
    var profit := Profit(prices, a.hold);
    var balance := a.balance + profit + a.closeProfit - a.commission;
    var risk := RiskRatio(a.margin, balance);
    PreCalculated(a.id, profit, a.closeProfit, a.commission, a.balance, balance, a.margin, risk, risk >= threshold)
  }

  /** An account is force-closed exactly when its margin reaches the threshold share of a positive new
      balance, or when nothing is left of the balance and the threshold is at most 999. */
  lemma ForceCloseIff(prices: Prices, threshold: real, a: Account)
    ensures var p := PreCalc(prices, threshold, a);
            p.forceClose <==>
            if a.balance + Profit(prices, a.hold) + a.closeProfit - a.commission > 0.0
            then a.margin >= threshold * p.newBalance
            else threshold <= 999.0
  {
    var p := PreCalc(prices, threshold, a);
    if p.newBalance > 0.0 {
      RatioAtLeast(a.margin, p.newBalance, threshold);
    }
  }

  lemma RatioAtLeast(margin: real, balance: real, threshold: real)
    requires balance > 0.0
    ensures margin / balance >= threshold <==> margin >= threshold * balance
  {
    var q := margin / balance;
    assert margin == q * balance;
    Scaled(q, threshold, balance);
  }

  lemma Scaled(a: real, b: real, k: real)
    requires k > 0.0
    ensures a >= b <==> a * k >= b * k
  {
    assert (a - b) * k == a * k - b * k;
    if a >= b {
      assert (a - b) * k >= 0.0;
    } else {
      assert (b - a) * k > 0.0;
    }
  }

  // ----- one day -----

  /** What the account reports after its own settlement. */
  datatype Final = Final(balance: real, available: real, margin: real)

  /** An account and its state read back after settlement, or None where applying the settlement failed. */
  datatype Attempt = Attempt(account: Account, final: Option<Final>)

  datatype AccountSettlement = AccountSettlement(
    userId: AccountId, date: string, closeProfit: real, positionProfit: real, commission: real, preBalance: real,
    balance: real, riskRatio: real, forceClose: bool, margin: real, available: real)

  datatype SettlementResult = SettlementResult(
    date: string, totalAccounts: nat, settledAccounts: nat, failedAccounts: nat, forceClosed: seq<AccountId>,
    totalCommission: real, totalProfit: real)

  datatype ForceCloseTask = ForceCloseTask(id: AccountId, riskRatio: real)

  function Apply(pre: PreCalculated, date: string, f: Final): AccountSettlement {
    AccountSettlement(pre.id, date, pre.closeProfit, pre.positionProfit, pre.commission, pre.preBalance,
                      f.balance, pre.riskRatio, pre.forceClose, f.margin, f.available)
  }

  function ResultOf(prices: Prices, threshold: real, date: string, a: Attempt): Option<AccountSettlement> {
    match a.final
    case Some(f) => Some(Apply(PreCalc(prices, threshold, a.account), date, f))
    case None => None
  }

  function Results(prices: Prices, threshold: real, date: string, attempts: seq<Attempt>): seq<Option<AccountSettlement>> {
    seq(|attempts|, i requires 0 <= i < |attempts| => ResultOf(prices, threshold, date, attempts[i]))
  }

  function Successes(results: seq<Option<AccountSettlement>>): seq<AccountSettlement> {
    if results == [] then []
    else
      var before := Successes(results[..|results| - 1]);
      match results[|results| - 1] case Some(r) => before + [r] case None => before
  }

  /** The settlements that succeed, in account order. */
  function Records(prices: Prices, threshold: real, date: string, attempts: seq<Attempt>): seq<AccountSettlement> {
    Successes(Results(prices, threshold, date, attempts))
  }

  function CommissionSum(records: seq<AccountSettlement>): real {
    Sum(records, (r: AccountSettlement) => r.commission)
  }

  function ProfitSum(records: seq<AccountSettlement>): real {
    Sum(records, (r: AccountSettlement) => r.closeProfit + r.positionProfit)
  }

  function Forced(records: seq<AccountSettlement>): seq<AccountSettlement> {
    Filter(records, (r: AccountSettlement) => r.forceClose)
  }

  function IdsOf(records: seq<AccountSettlement>): seq<AccountId> {
    seq(|records|, i requires 0 <= i < |records| => records[i].userId)
  }

  function TasksOf(records: seq<AccountSettlement>): seq<ForceCloseTask> {
    seq(|records|, i requires 0 <= i < |records| => ForceCloseTask(records[i].userId, records[i].riskRatio))
  }

  function OfAccount(records: seq<AccountSettlement>, id: AccountId): seq<AccountSettlement> {
    Filter(records, (r: AccountSettlement) => r.userId == id)
  }

  type Histories = map<AccountId, seq<AccountSettlement>>

  function HistoryOf(h: Histories, id: AccountId): seq<AccountSettlement> {
    if id in h then h[id] else []
  }

  /** The last 180 entries. */
  function Recent(s: seq<AccountSettlement>): seq<AccountSettlement> {
    if |s| > HISTORY_LIMIT then s[|s| - HISTORY_LIMIT..] else s
  }

  ghost predicate Bounded(h: Histories) {
    forall id | id in h :: |h[id]| <= HISTORY_LIMIT
  }

  /** Each account's history is the recent part of what it was followed by the day's records of that account. */
  ghost predicate Extended(h: Histories, h': Histories, records: seq<AccountSettlement>) {
    forall id :: ExtendedAt(h, h', records, id)
  }

  ghost predicate ExtendedAt(h: Histories, h': Histories, records: seq<AccountSettlement>, id: AccountId) {
    HistoryOf(h', id) == Recent(HistoryOf(h, id) + OfAccount(records, id))
  }

  lemma RecentTwice(s: seq<AccountSettlement>, t: seq<AccountSettlement>)
    ensures Recent(Recent(s) + t) == Recent(s + t)
  {
  }

  lemma HistorySnoc(past: seq<AccountSettlement>, mid: seq<AccountSettlement>, records: seq<AccountSettlement>,
                    r: AccountSettlement, id: AccountId)
    requires mid == Recent(past + OfAccount(records, id))
    ensures Recent(past + OfAccount(records + [r], id)) == if r.userId == id then Recent(mid + [r]) else mid
  {
    FilterSnoc(records, r, (x: AccountSettlement) => x.userId == id);
    if r.userId == id {
      RecentTwice(past + OfAccount(records, id), [r]);
      assert (past + OfAccount(records, id)) + [r] == past + (OfAccount(records, id) + [r]);
    }
  }

  lemma ExtendedSnoc(h: Histories, mid: Histories, h': Histories, records: seq<AccountSettlement>, r: AccountSettlement)
    requires Extended(h, mid, records)
    requires h' == mid[r.userId := Recent(HistoryOf(mid, r.userId) + [r])]
    ensures Extended(h, h', records + [r])
  {
    forall id
      ensures ExtendedAt(h, h', records + [r], id)
    {
      assert ExtendedAt(h, mid, records, id);
      HistorySnoc(HistoryOf(h, id), HistoryOf(mid, id), records, r, id);
    }
  }

  lemma RecordsSnoc(prices: Prices, threshold: real, date: string, attempts: seq<Attempt>, a: Attempt)
    ensures Records(prices, threshold, date, attempts + [a]) ==
            var before := Records(prices, threshold, date, attempts);
            match ResultOf(prices, threshold, date, a) case Some(r) => before + [r] case None => before
  {
    var results := Results(prices, threshold, date, attempts);
    assert Results(prices, threshold, date, attempts + [a]) == results + [ResultOf(prices, threshold, date, a)];
    assert (results + [ResultOf(prices, threshold, date, a)])[..|results|] == results;
  }

  lemma ForcedSnoc(records: seq<AccountSettlement>, r: AccountSettlement)
    ensures IdsOf(Forced(records + [r])) == IdsOf(Forced(records)) + if r.forceClose then [r.userId] else []
    ensures TasksOf(Forced(records + [r])) ==
            TasksOf(Forced(records)) + if r.forceClose then [ForceCloseTask(r.userId, r.riskRatio)] else []
  {
    FilterSnoc(records, r, (x: AccountSettlement) => x.forceClose);
  }

  /** The totals, the forced-close list and queue, and the histories after booking these records. */
  ghost predicate Tallied(records: seq<AccountSettlement>, commission: real, profit: real, forced: seq<AccountId>,
                          queue: seq<ForceCloseTask>, queue': seq<ForceCloseTask>, h: Histories, h': Histories) {
    && commission == CommissionSum(records)
    && profit == ProfitSum(records)
    && forced == IdsOf(Forced(records))
    && queue' == queue + TasksOf(Forced(records))
    && Extended(h, h', records)
  }

  lemma NothingTallied(queue: seq<ForceCloseTask>, h: Histories)
    requires Bounded(h)
    ensures Tallied([], 0.0, 0.0, [], queue, queue, h, h)
  {
    assert forall id :: ExtendedAt(h, h, [], id);
  }

  lemma TalliedSnoc(records: seq<AccountSettlement>, r: AccountSettlement, commission: real, profit: real, forced: seq<AccountId>,
                    queue: seq<ForceCloseTask>, mid: seq<ForceCloseTask>, queue': seq<ForceCloseTask>,
                    h: Histories, hm: Histories, h': Histories)
    requires Tallied(records, commission, profit, forced, queue, mid, h, hm)
    requires queue' == if r.forceClose then mid + [ForceCloseTask(r.userId, r.riskRatio)] else mid
    requires h' == hm[r.userId := Recent(HistoryOf(hm, r.userId) + [r])]
    ensures Tallied(records + [r], commission + r.commission, profit + (r.closeProfit + r.positionProfit),
                    if r.forceClose then forced + [r.userId] else forced, queue, queue', h, h')
  {
    SumSnoc(records, r, (x: AccountSettlement) => x.commission);
    SumSnoc(records, r, (x: AccountSettlement) => x.closeProfit + x.positionProfit);
    ForcedSnoc(records, r);
    ExtendedSnoc(h, hm, h', records, r);
  }

  /** The running state of the tally. */
  datatype Ledger = Ledger(
    settled: nat, failed: nat, commission: real, profit: real, forced: seq<AccountId>,
    queue: seq<ForceCloseTask>, histories: Histories)

  function Booked(b: Ledger, r: AccountSettlement): Ledger {
    Ledger(b.settled + 1, b.failed, b.commission + r.commission, b.profit + (r.closeProfit + r.positionProfit),
           if r.forceClose then b.forced + [r.userId] else b.forced,
           if r.forceClose then b.queue + [ForceCloseTask(r.userId, r.riskRatio)] else b.queue,
           b.histories[r.userId := Recent(HistoryOf(b.histories, r.userId) + [r])])
  }

  /** One result after the other. */
  function BookAll(b: Ledger, results: seq<Option<AccountSettlement>>): Ledger {
    if results == [] then b
    else
      var before := BookAll(b, results[..|results| - 1]);
      match results[|results| - 1]
      case Some(r) => Booked(before, r)
      case None => before.(failed := before.failed + 1)
  }

  /** Booking the results one after the other gives the day's counts, totals, forced closes and histories. */
  lemma {:induction false} BookedTallies(start: Ledger, results: seq<Option<AccountSettlement>>)
    requires start.settled == start.failed == 0 && start.commission == start.profit == 0.0 && start.forced == []
    requires Bounded(start.histories)
    ensures var b := BookAll(start, results);
      && b.settled == |Successes(results)| && b.settled + b.failed == |results|
      && Tallied(Successes(results), b.commission, b.profit, b.forced, start.queue, b.queue, start.histories, b.histories)
  {
    if results == [] {
      NothingTallied(start.queue, start.histories);
    } else {
      var init := results[..|results| - 1];
      var b := BookAll(start, init);
      BookedTallies(start, init);
      match results[|results| - 1]
      case Some(r) =>
        var b' := Booked(b, r);
        TalliedSnoc(Successes(init), r, b.commission, b.profit, b.forced, start.queue, b.queue, b'.queue,
                    start.histories, b.histories, b'.histories);
      case None =>
    }
  }

  class SettlementEngine {
    const forceCloseThreshold: real
    var settlementPrices: Prices
    var accountHistory: Histories
    var settlementHistory: map<string, SettlementResult>
    var forceCloseQueue: seq<ForceCloseTask>
    var settledCount: nat

    ghost predicate Valid()
      reads this
    {
      Bounded(accountHistory)
    }

    constructor (threshold: real)
      ensures Valid() && forceCloseThreshold == threshold
      ensures settlementPrices == map[] && accountHistory == map[] && settlementHistory == map[] && forceCloseQueue == [] && settledCount == 0
    {
      forceCloseThreshold := threshold;
      settlementPrices, accountHistory, settlementHistory, forceCloseQueue, settledCount := map[], map[], map[], [], 0;
    }

    method SetSettlementPrice(code: Code, price: real)
      modifies this`settlementPrices
      ensures settlementPrices == old(settlementPrices)[code := price]
    {
      settlementPrices := settlementPrices[code := price];
    }

    method PreCalculateAccount(a: Account) returns (r: PreCalculated)
      ensures r == PreCalc(settlementPrices, forceCloseThreshold, a)
    {
      var profit := 0.0;
      var prices := settlementPrices;
      for i := 0 to |a.hold|
        invariant profit == Profit(prices, a.hold[..i])
      {
        var h := a.hold[i];
        SumTake(a.hold, i, (k: Holding) => Marked(prices, k));
        if h.code in prices {
          var price := prices[h.code];
          var longVolume := h.pos.longToday + h.pos.longHis;
          if longVolume > 0.0 {
            profit := profit + LongProfit(price, h.pos);
          }
          var shortVolume := h.pos.shortToday + h.pos.shortHis;
          if shortVolume > 0.0 {
            profit := profit + ShortProfit(price, h.pos);
          }
        }
      }
      assert a.hold[..|a.hold|] == a.hold;
      var balance := a.balance + profit + a.closeProfit - a.commission;
      var risk := RiskRatio(a.margin, balance);
      r := PreCalculated(a.id, profit, a.closeProfit, a.commission, a.balance, balance, a.margin, risk, risk >= forceCloseThreshold);
    }

    /** Appends to an account's history and drops the oldest entries beyond the limit. */
    method Remember(r: AccountSettlement)
      requires Valid()
      modifies this`accountHistory
      ensures Valid()
      ensures accountHistory == old(accountHistory)[r.userId := Recent(HistoryOf(old(accountHistory), r.userId) + [r])]
    {
      if r.userId in accountHistory {
        var entries := accountHistory[r.userId] + [r];
        if |entries| > HISTORY_LIMIT {
          entries := entries[|entries| - HISTORY_LIMIT..];
        }
        accountHistory := accountHistory[r.userId := entries];
      } else {
        assert HistoryOf(accountHistory, r.userId) + [r] == [r];
        accountHistory := accountHistory[r.userId := [r]];
      }
    }

    /** Precalculates every account, then applies the settlements. */
    method SettleAll(attempts: seq<Attempt>, date: string) returns (results: seq<Option<AccountSettlement>>)
      ensures results == Results(settlementPrices, forceCloseThreshold, date, attempts)
    {
      var pres: seq<PreCalculated> := [];
      for i := 0 to |attempts|
        invariant |pres| == i
        invariant forall j | 0 <= j < i :: pres[j] == PreCalc(settlementPrices, forceCloseThreshold, attempts[j].account)
      {
        var pre := PreCalculateAccount(attempts[i].account);
        pres := pres + [pre];
      }
      results := [];
      for i := 0 to |attempts|
        invariant |results| == i
        invariant forall j | 0 <= j < i :: results[j] == ResultOf(settlementPrices, forceCloseThreshold, date, attempts[j])
      {
        match attempts[i].final
        case Some(f) => results := results + [Some(Apply(pres[i], date, f))];
        case None => results := results + [None];
      }
    }

    /** Adds up the day's results: counts and totals, the forced closes, and each account's history. */
    method Tally(results: seq<Option<AccountSettlement>>, date: string) returns (result: SettlementResult)
      requires Valid()
      modifies this`accountHistory, this`forceCloseQueue
      ensures Valid()
      ensures result.date == date && result.totalAccounts == |results|
      ensures result.settledAccounts == |Successes(results)| && result.settledAccounts + result.failedAccounts == |results|
      ensures Tallied(Successes(results), result.totalCommission, result.totalProfit, result.forceClosed,
                      old(forceCloseQueue), forceCloseQueue, old(accountHistory), accountHistory)
    {
      var settled, failed, commission, profit := 0, 0, 0.0, 0.0;
      var forced: seq<AccountId> := [];
      ghost var start := Ledger(0, 0, 0.0, 0.0, [], forceCloseQueue, accountHistory);
      for i := 0 to |results|
        invariant Valid()
        invariant Ledger(settled, failed, commission, profit, forced, forceCloseQueue, accountHistory) == BookAll(start, results[..i])
      {
        assert results[..i + 1][..i] == results[..i];
        match results[i]
        case Some(r) =>
          settled := settled + 1;
          commission := commission + r.commission;
          profit := profit + (r.closeProfit + r.positionProfit);
          if r.forceClose {
            forced := forced + [r.userId];
            forceCloseQueue := forceCloseQueue + [ForceCloseTask(r.userId, r.riskRatio)];
          }
          Remember(r);
        case None =>
          failed := failed + 1;
      }
      assert results[..|results|] == results;
      BookedTallies(start, results);
      result := SettlementResult(date, |results|, settled, failed, forced, commission, profit);
    }

    /** Settles one day: precalculates every account, applies the settlements, then tallies the results. A day
        without accounts leaves no trace. */
    method DailySettlement(attempts: seq<Attempt>, date: string) returns (result: SettlementResult)
      requires Valid()
      modifies this`accountHistory, this`settlementHistory, this`forceCloseQueue, this`settledCount
      ensures Valid()
      ensures var records := Records(settlementPrices, forceCloseThreshold, date, attempts);
        && result.date == date && result.totalAccounts == |attempts|
        && result.settledAccounts == |records| && result.settledAccounts + result.failedAccounts == |attempts|
        && Tallied(records, result.totalCommission, result.totalProfit, result.forceClosed,
                   old(forceCloseQueue), forceCloseQueue, old(accountHistory), accountHistory)
        && settledCount == old(settledCount) + |records|
      ensures settlementHistory == if attempts == [] then old(settlementHistory) else old(settlementHistory)[date := result]
    {
      if attempts == [] {
        NothingTallied(forceCloseQueue, accountHistory);
        return SettlementResult(date, 0, 0, 0, [], 0.0, 0.0);
      }
      var results := SettleAll(attempts, date);
      result := Tally(results, date);
      settledCount := settledCount + result.settledAccounts;
      settlementHistory := settlementHistory[date := result];
    }
  }

  /** The holdings of the accounts that settle. */
  function SettledHoldings(attempts: seq<Attempt>): seq<Holding> {
    if attempts == [] then []
    else
      var a := attempts[|attempts| - 1];
      var before := SettledHoldings(attempts[..|attempts| - 1]);
      if a.final.Some? then before + a.account.hold else before
  }

  function ClosedProfit(attempts: seq<Attempt>): real {
    Sum(attempts, (a: Attempt) => if a.final.Some? then a.account.closeProfit else 0.0)
  }

  /** The day's total profit: everything closed, plus one mark-to-market over all settled holdings. */
  lemma {:induction false} DayProfit(prices: Prices, threshold: real, date: string, attempts: seq<Attempt>)
    ensures ProfitSum(Records(prices, threshold, date, attempts)) ==
            ClosedProfit(attempts) + Profit(prices, SettledHoldings(attempts))
  {
    if attempts == [] {
    } else {
      var init, a := attempts[..|attempts| - 1], attempts[|attempts| - 1];
      DayProfit(prices, threshold, date, init);
      RecordsSnoc(prices, threshold, date, init, a);
      assert attempts == init + [a];
      if a.final.Some? {
        SumConcat(SettledHoldings(init), a.account.hold, (h: Holding) => Marked(prices, h));
        SumSnoc(Records(prices, threshold, date, init), Apply(PreCalc(prices, threshold, a.account), date, a.final.value),
                (r: AccountSettlement) => r.closeProfit + r.positionProfit);
      }
    }
  }

  /** The attempts that settle. */
  function Settled(attempts: seq<Attempt>): seq<Attempt> {
    Filter(attempts, (a: Attempt) => a.final.Some?)
  }

  /** A record carries its account's figures, the profit of its holdings, and the state read back; the risk ratio
      relates the margin to the new balance, and decides on a forced close. */
  ghost predicate CarriesAccount(r: AccountSettlement, a: Attempt, prices: Prices, threshold: real, date: string) {
    var balance := a.account.balance + Profit(prices, a.account.hold) + a.account.closeProfit - a.account.commission;
    && a.final.Some?
    && r.userId == a.account.id && r.date == date
    && r.closeProfit == a.account.closeProfit && r.commission == a.account.commission && r.preBalance == a.account.balance
    && r.positionProfit == Profit(prices, a.account.hold)
    && r.balance == a.final.value.balance && r.available == a.final.value.available && r.margin == a.final.value.margin
    && (if balance > 0.0 then r.riskRatio * balance == a.account.margin else r.riskRatio == 999.0)
    && (r.forceClose <==> if balance > 0.0 then a.account.margin >= threshold * balance else threshold <= 999.0)
  }

  lemma OneRecordCarries(prices: Prices, threshold: real, date: string, a: Attempt)
    requires a.final.Some?
    ensures CarriesAccount(Apply(PreCalc(prices, threshold, a.account), date, a.final.value), a, prices, threshold, date)
  {
    ForceCloseIff(prices, threshold, a.account);
  }

  ghost predicate CarryAccounts(records: seq<AccountSettlement>, settled: seq<Attempt>, prices: Prices, threshold: real, date: string) {
    |records| == |settled| && forall j | 0 <= j < |settled| :: CarriesAccount(records[j], settled[j], prices, threshold, date)
  }

  lemma CarryOneMore(records: seq<AccountSettlement>, settled: seq<Attempt>, r: AccountSettlement, a: Attempt,
                     prices: Prices, threshold: real, date: string)
    requires CarryAccounts(records, settled, prices, threshold, date) && CarriesAccount(r, a, prices, threshold, date)
    ensures CarryAccounts(records + [r], settled + [a], prices, threshold, date)
  {
  }

  lemma SettledSnoc(attempts: seq<Attempt>, a: Attempt)
    ensures Settled(attempts + [a]) == if a.final.Some? then Settled(attempts) + [a] else Settled(attempts)
  {
    FilterSnoc(attempts, a, (x: Attempt) => x.final.Some?);
  }

  /** The day's records are those of the accounts that settle, in order, each carrying its own account's figures. */
  lemma {:induction false} RecordsCarry(prices: Prices, threshold: real, date: string, attempts: seq<Attempt>)
    ensures CarryAccounts(Records(prices, threshold, date, attempts), Settled(attempts), prices, threshold, date)
  {
    if attempts == [] {
    } else {
      var init, a := attempts[..|attempts| - 1], attempts[|attempts| - 1];
      assert attempts == init + [a];
      RecordsCarry(prices, threshold, date, init);
      RecordsCarryOn(prices, threshold, date, init, a);
    }
  }

  lemma RecordsCarryOn(prices: Prices, threshold: real, date: string, init: seq<Attempt>, a: Attempt)
    requires CarryAccounts(Records(prices, threshold, date, init), Settled(init), prices, threshold, date)
    ensures CarryAccounts(Records(prices, threshold, date, init + [a]), Settled(init + [a]), prices, threshold, date)
  {
    RecordsSnoc(prices, threshold, date, init, a);
    SettledSnoc(init, a);
    if a.final.Some? {
      var r := Apply(PreCalc(prices, threshold, a.account), date, a.final.value);
      OneRecordCarries(prices, threshold, date, a);
      CarryOneMore(Records(prices, threshold, date, init), Settled(init), r, a, prices, threshold, date);
    }
  }

  function CommissionOf(attempts: seq<Attempt>): real {
    Sum(attempts, (a: Attempt) => a.account.commission)
  }

  /** Records that carry their accounts' figures add up to the accounts' commission. */
  lemma {:induction false} CarriedCommission(records: seq<AccountSettlement>, settled: seq<Attempt>,
                                             prices: Prices, threshold: real, date: string)
    requires CarryAccounts(records, settled, prices, threshold, date)
    ensures CommissionSum(records) == CommissionOf(settled)
  {
    if records == [] {
    } else {
      var n := |records| - 1;
      CarriedCommission(records[..n], settled[..n], prices, threshold, date);
      assert CarriesAccount(records[n], settled[n], prices, threshold, date);
    }
  }

  /** The day's total commission is that of the accounts that settle. */
  lemma DayCommission(prices: Prices, threshold: real, date: string, attempts: seq<Attempt>)
    ensures CommissionSum(Records(prices, threshold, date, attempts)) == CommissionOf(Settled(attempts))
  {
    RecordsCarry(prices, threshold, date, attempts);
    CarriedCommission(Records(prices, threshold, date, attempts), Settled(attempts), prices, threshold, date);
  }

  /** A day's total profit is free of the settlement prices exactly when the settled accounts together hold
      every priced instrument long as much as short; it is then closed profit plus opening values. */
  lemma DayProfitPriceFreeIff(prices: Prices, threshold: real, date: string, attempts: seq<Attempt>)
    ensures (forall q: Prices | q.Keys == prices.Keys ::
               ProfitSum(Records(q, threshold, date, attempts)) == ProfitSum(Records(prices, threshold, date, attempts)))
            <==> forall c | c in prices :: Net(SettledHoldings(attempts), c) == 0.0
    ensures (forall c | c in prices :: Net(SettledHoldings(attempts), c) == 0.0) ==>
              ProfitSum(Records(prices, threshold, date, attempts)) ==
              ClosedProfit(attempts) + Basis(prices.Keys, SettledHoldings(attempts))
  {
    var hold := SettledHoldings(attempts);
    forall q: Prices
      ensures ProfitSum(Records(q, threshold, date, attempts)) == ClosedProfit(attempts) + Profit(q, hold)
    {
      DayProfit(q, threshold, date, attempts);
    }
    PriceFreeIff(prices, hold);
    if forall c | c in prices :: Net(hold, c) == 0.0 {
      BalancedProfit(prices, hold);
    }
  }

  // ----- many days -----

  /** The days recorded so far, each extending the histories it found. */
  ghost predicate Days(hs: seq<Histories>, days: seq<seq<AccountSettlement>>) {
    |hs| == |days| + 1 && forall i | 0 <= i < |days| :: Extended(hs[i], hs[i + 1], days[i])
  }

  function AllRecords(days: seq<seq<AccountSettlement>>): seq<AccountSettlement> {
    if days == [] then [] else AllRecords(days[..|days| - 1]) + days[|days| - 1]
  }

  /** After any number of days an account's history is its last 180 settlements. */
  lemma {:induction false} HistoryIsRecent(hs: seq<Histories>, days: seq<seq<AccountSettlement>>, id: AccountId)
    requires Days(hs, days) && hs[0] == map[]
    ensures HistoryOf(hs[|days|], id) == Recent(OfAccount(AllRecords(days), id))
    ensures var all := OfAccount(AllRecords(days), id);
            HistoryOf(hs[|days|], id) == if |all| <= 180 then all else all[|all| - 180..]
  {
    var n := |days|;
    if n == 0 {
    } else {
      HistoryIsRecent(hs[..n], days[..n - 1], id);
      var past := OfAccount(AllRecords(days[..n - 1]), id);
      assert ExtendedAt(hs[n - 1], hs[n], days[n - 1], id);
      RecentTwice(past, OfAccount(days[n - 1], id));
      FilterConcat(AllRecords(days[..n - 1]), days[n - 1], (r: AccountSettlement) => r.userId == id);
    }
  }

  // ----- forced close -----

  datatype Side = SELL | BUY

  datatype ForcePlan = ForcePlan(code: Code, side: Side, volume: real, referencePrice: real)

  function AtLeastMin(price: real): real {
    if price >= MIN_PRICE then price else MIN_PRICE
  }

  function Reference(prices: Prices, code: Code, open: real): real {
    if code in prices then prices[code] else AtLeastMin(open)
  }

  function PlansFor(prices: Prices, h: Holding): seq<ForcePlan> {
    (if Long(h.pos) > 0.0 then [ForcePlan(h.code, SELL, Long(h.pos), Reference(prices, h.code, h.pos.openLong))] else []) +
    if Short(h.pos) > 0.0 then [ForcePlan(h.code, BUY, Short(h.pos), Reference(prices, h.code, h.pos.openShort))] else []
  }

  function Plans(prices: Prices, hold: seq<Holding>): seq<ForcePlan> {
    if hold == [] then [] else Plans(prices, hold[..|hold| - 1]) + PlansFor(prices, hold[|hold| - 1])
  }

  method BuildForcePlans(a: Account, prices: Prices) returns (plans: seq<ForcePlan>)
    ensures plans == Plans(prices, a.hold)
  {
    plans := [];
    for i := 0 to |a.hold|
      invariant plans == Plans(prices, a.hold[..i])
    {
      var h := a.hold[i];
      ghost var before := plans;
      assert a.hold[..i + 1][..i] == a.hold[..i];
      var longVolume := h.pos.longToday + h.pos.longHis;
      if longVolume > 0.0 {
        plans := plans + [ForcePlan(h.code, SELL, longVolume, Reference(prices, h.code, h.pos.openLong))];
      }
      var shortVolume := h.pos.shortToday + h.pos.shortHis;
      if shortVolume > 0.0 {
        plans := plans + [ForcePlan(h.code, BUY, shortVolume, Reference(prices, h.code, h.pos.openShort))];
      }
      assert plans == before + PlansFor(prices, h);
    }
    assert a.hold[..|a.hold|] == a.hold;
  }

  /** Volume the plans take off one side of one instrument. */
  function Offset(plans: seq<ForcePlan>, c: Code, side: Side): real {
    Sum(plans, (p: ForcePlan) => if p.code == c && p.side == side then p.volume else 0.0)
  }

  function HeldOf(h: Holding, c: Code, side: Side): real {
    if h.code != c then 0.0 else if side == SELL then Long(h.pos) else Short(h.pos)
  }

  /** Volume held on the side that such plans close. */
  function Held(hold: seq<Holding>, c: Code, side: Side): real {
    Sum(hold, (h: Holding) => HeldOf(h, c, side))
  }

  function CashOf(p: ForcePlan): real {
    if p.side == SELL then p.referencePrice * p.volume else -(p.referencePrice * p.volume)
  }

  /** Money the plans bring in at their reference prices. */
  function Cash(plans: seq<ForcePlan>): real {
    Sum(plans, (p: ForcePlan) => CashOf(p))
  }

  /** The sum over the plans of one holding, for any measure that a missing plan would leave unchanged. */
  lemma SumPlansFor(prices: Prices, h: Holding, f: ForcePlan -> real)
    ensures Sum(PlansFor(prices, h), f) ==
            (if Long(h.pos) > 0.0 then f(ForcePlan(h.code, SELL, Long(h.pos), Reference(prices, h.code, h.pos.openLong))) else 0.0) +
            if Short(h.pos) > 0.0 then f(ForcePlan(h.code, BUY, Short(h.pos), Reference(prices, h.code, h.pos.openShort))) else 0.0
  {
    var l := ForcePlan(h.code, SELL, Long(h.pos), Reference(prices, h.code, h.pos.openLong));
    var s := ForcePlan(h.code, BUY, Short(h.pos), Reference(prices, h.code, h.pos.openShort));
    SumConcat(if Long(h.pos) > 0.0 then [l] else [], if Short(h.pos) > 0.0 then [s] else [], f);
    assert [l] == [] + [l] && [s] == [] + [s];
    SumSnoc([], l, f);
    SumSnoc([], s, f);
  }

  /** The plans close exactly what is held, instrument by instrument and side by side. */
  lemma {:induction false} PlansFlatten(prices: Prices, hold: seq<Holding>, c: Code, side: Side)
    ensures Offset(Plans(prices, hold), c, side) == Held(hold, c, side)
  {
    if hold == [] {
    } else {
      var init, h := hold[..|hold| - 1], hold[|hold| - 1];
      var f := (p: ForcePlan) => if p.code == c && p.side == side then p.volume else 0.0;
      PlansFlatten(prices, init, c, side);
      SumConcat(Plans(prices, init), PlansFor(prices, h), f);
      OneHoldingOffset(prices, h, c, side);
    }
  }

  lemma OneHoldingOffset(prices: Prices, h: Holding, c: Code, side: Side)
    ensures Offset(PlansFor(prices, h), c, side) == HeldOf(h, c, side)
  {
    SumPlansFor(prices, h, (p: ForcePlan) => if p.code == c && p.side == side then p.volume else 0.0);
  }

  function AllBasis(hold: seq<Holding>): real {
    Sum(hold, (h: Holding) => OpeningValue(h.pos))
  }

  /** What the floor under the reference price adds on one side: a side sold above its opening price, or
      bought back above it. Priced holdings are not floored. */
  function FloorGain(prices: Prices, h: Holding, side: Side): real {
    if h.code in prices then 0.0
    else if side == SELL then (AtLeastMin(h.pos.openLong) - h.pos.openLong) * Long(h.pos)
    else (AtLeastMin(h.pos.openShort) - h.pos.openShort) * Short(h.pos)
  }

  function FloorTotal(prices: Prices, hold: seq<Holding>, side: Side): real {
    Sum(hold, (h: Holding) => FloorGain(prices, h, side))
  }

  /** The side is held, in an instrument without a settlement price, and was opened below the minimum price. */
  predicate Floored(prices: Prices, h: Holding, side: Side) {
    h.code !in prices &&
    if side == SELL then Long(h.pos) > 0.0 && h.pos.openLong < MIN_PRICE
    else Short(h.pos) > 0.0 && h.pos.openShort < MIN_PRICE
  }

  ghost predicate NoneFloored(prices: Prices, hold: seq<Holding>, side: Side) {
    forall i | 0 <= i < |hold| :: !Floored(prices, hold[i], side)
  }

  lemma ProductSign(a: real, b: real)
    requires a >= 0.0 && b >= 0.0
    ensures a * b >= 0.0
    ensures a * b == 0.0 <==> a == 0.0 || b == 0.0
  {
  }

  lemma FloorGainSign(prices: Prices, h: Holding, side: Side)
    ensures FloorGain(prices, h, side) >= 0.0
    ensures FloorGain(prices, h, side) == 0.0 <==> !Floored(prices, h, side)
  {
    if side == SELL {
      ProductSign(AtLeastMin(h.pos.openLong) - h.pos.openLong, Long(h.pos));
    } else {
      ProductSign(AtLeastMin(h.pos.openShort) - h.pos.openShort, Short(h.pos));
    }
  }

  lemma FloorTotalSign(prices: Prices, hold: seq<Holding>, side: Side)
    ensures FloorTotal(prices, hold, side) >= 0.0
    ensures FloorTotal(prices, hold, side) == 0.0 <==> NoneFloored(prices, hold, side)
  {
    var f := (h: Holding) => FloorGain(prices, h, side);
    forall i | 0 <= i < |hold|
      ensures f(hold[i]) >= 0.0 && (f(hold[i]) == 0.0 <==> !Floored(prices, hold[i], side))
    {
      FloorGainSign(prices, hold[i], side);
    }
    SumOfNonNegative(hold, f);
  }

  lemma FlooredCash(rl: real, rs: real, ol: real, os: real, l: real, s: real)
    ensures rl * l - rs * s + (os * s - ol * l) == (rl - ol) * l - (rs - os) * s
  {
  }

  lemma OneHoldingRealises(prices: Prices, h: Holding)
    ensures Cash(PlansFor(prices, h)) + OpeningValue(h.pos) ==
            Marked(prices, h) + FloorGain(prices, h, SELL) - FloorGain(prices, h, BUY)
  {
    SumPlansFor(prices, h, (p: ForcePlan) => CashOf(p));
    if h.code in prices {
      HoldingProfitIs(prices[h.code], h.pos);
      Realised(prices[h.code], Long(h.pos), Short(h.pos), h.pos.openLong, h.pos.openShort);
    } else {
      FlooredCash(AtLeastMin(h.pos.openLong), AtLeastMin(h.pos.openShort), h.pos.openLong, h.pos.openShort,
                  Long(h.pos), Short(h.pos));
    }
  }

  /** Carried out at their reference prices, the plans bring in the marked-to-market profit over the opening
      values, plus what the price floor adds to long sides, less what it adds to short sides. */
  lemma {:induction false} PlansRealiseProfit(prices: Prices, hold: seq<Holding>)
    ensures Cash(Plans(prices, hold)) + AllBasis(hold) ==
            Profit(prices, hold) + FloorTotal(prices, hold, SELL) - FloorTotal(prices, hold, BUY)
  {
    if hold == [] {
    } else {
      var init, h := hold[..|hold| - 1], hold[|hold| - 1];
      PlansRealiseProfit(prices, init);
      SumConcat(Plans(prices, init), PlansFor(prices, h), (p: ForcePlan) => CashOf(p));
      OneHoldingRealises(prices, h);
    }
  }

  /** So they bring in exactly that profit when no held side is floored; and while only long sides, or only
      short sides, are floored, exactly then. */
  lemma PlansRealiseProfitIff(prices: Prices, hold: seq<Holding>)
    ensures var exact := Cash(Plans(prices, hold)) + AllBasis(hold) == Profit(prices, hold);
      && (NoneFloored(prices, hold, BUY) ==> (exact <==> NoneFloored(prices, hold, SELL)))
      && (NoneFloored(prices, hold, SELL) ==> (exact <==> NoneFloored(prices, hold, BUY)))
  {
    PlansRealiseProfit(prices, hold);
    FloorTotalSign(prices, hold, SELL);
    FloorTotalSign(prices, hold, BUY);
  }

  /** One unit held long, opened at zero and without a settlement price, is planned to be sold for 0.01. */
  lemma FloorAddsMoney(c: Code)
    ensures var hold := [Holding(c, Position(1.0, 0.0, 0.0, 0.0, 0.0, 0.0))];
            Cash(Plans(map[], hold)) + AllBasis(hold) == 0.01 && Profit(map[], hold) == 0.0
  {
    var h := Holding(c, Position(1.0, 0.0, 0.0, 0.0, 0.0, 0.0));
    PlansRealiseProfit(map[], [h]);
    assert [h] == [] + [h];
    SumSnoc([], h, (k: Holding) => Marked(map[], k));
    SumSnoc([], h, (k: Holding) => FloorGain(map[], k, SELL));
    SumSnoc([], h, (k: Holding) => FloorGain(map[], k, BUY));
  }

  /** An account gets no plans exactly when no holding has a positive volume on either side. */
  lemma {:induction false} NoPlansIff(prices: Prices, hold: seq<Holding>)
    ensures Plans(prices, hold) == [] <==>
            forall i | 0 <= i < |hold| ::
              hold[i].pos.longToday + hold[i].pos.longHis <= 0.0 && hold[i].pos.shortToday + hold[i].pos.shortHis <= 0.0
  {
    if hold == [] {
    } else {
      var init, h := hold[..|hold| - 1], hold[|hold| - 1];
      NoPlansIff(prices, init);
      assert PlansFor(prices, h) == [] <==> Long(h.pos) <= 0.0 && Short(h.pos) <= 0.0;
      assert hold == init + [h];
      assert forall i | 0 <= i < |init| :: hold[i] == init[i];
    }
  }
}
