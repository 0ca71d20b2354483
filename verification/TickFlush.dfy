/** The tick buffer and its batch-flush workers as an interleaving state machine. One step is one lock
    acquisition, one storage call or one read of the stop flag; producers may push between any two. */
module TickFlush {
  import opened Seqs

  /** A tick as written to the log; nothing below looks inside. */
  datatype TickData = TickData(
    instrumentId: string, lastPrice: real, bidPrice: real, askPrice: real, volume: int, timestamp: int)

  const MAX_BATCH: nat := 1000

  // ----- the buffer operations -----

  function BatchSize(len: nat): nat {
    if len < MAX_BATCH then len else MAX_BATCH
  }

  /** The shared buffer. Each method runs under its lock. */
  class TickBuffer {
    var records: seq<TickData>

    constructor ()
      ensures records == []
    {
      records := [];
    }

    method Push(record: TickData)
      modifies this
      ensures records == old(records) + [record]
    {
      records := records + [record];
    }

    /** Removes up to MAX_BATCH records from the front. */
    method Drain() returns (batch: seq<TickData>)
      modifies this
      ensures batch + records == old(records)
      ensures |batch| == BatchSize(|old(records)|)
    {
      var batchSize := BatchSize(|records|);
      batch := records[..batchSize];
      records := records[batchSize..];
    }

    /** Re-inserts a failed batch one record at a time, last record first, always at the front. */
    method PutBack(batch: seq<TickData>)
      modifies this
      ensures records == batch + old(records)
    {
      for i := |batch| downto 0
        invariant records == batch[i..] + old(records)
      {
        records := [batch[i]] + records;
        assert [batch[i]] + batch[i + 1..] == batch[i..];
      }
    }

    method DrainAll() returns (remaining: seq<TickData>)
      modifies this
      ensures remaining == old(records) && records == []
    {
      remaining := records;
      records := [];
    }
  }

  // ----- the protocol -----

  datatype Worker =
    | Checking
    | Sleeping
    | Writing(batch: seq<TickData>)
    | Failed(batch: seq<TickData>)
    | Exiting
    | FinalWriting(batch: seq<TickData>)
    | Stopped

  /** What has become of a batch that left the buffer for good. */
  datatype Outcome = Written(batch: seq<TickData>) | Lost(batch: seq<TickData>)

  /** `pushed` is the history of producer pushes; `settled` lists batches in the order in which their
      fate was decided. */
  datatype State = State(
    pushed: seq<TickData>,
    settled: seq<Outcome>,
    buffer: seq<TickData>,
    stop: bool,
    workers: seq<Worker>)

  function Initial(): State {
    State([], [], [], false, [])
  }

  datatype Step =
    | Push(record: TickData)
    | RequestStop
    | Start
    | Check(w: nat)
    | Drain(w: nat)
    | WriteOk(w: nat)
    | WriteFail(w: nat)
    | PutBack(w: nat)
    | FinalDrain(w: nat)
    | FinalOk(w: nat)
    | FinalFail(w: nat)

  predicate Enabled(s: State, step: Step) {
    match step
    case Push(_) => true
    case RequestStop => true
    case Start => true
    case Check(w) => w < |s.workers| && s.workers[w].Checking?
    case Drain(w) => w < |s.workers| && s.workers[w].Sleeping?
    case WriteOk(w) => w < |s.workers| && s.workers[w].Writing?
    case WriteFail(w) => w < |s.workers| && s.workers[w].Writing?
    case PutBack(w) => w < |s.workers| && s.workers[w].Failed?
    case FinalDrain(w) => w < |s.workers| && s.workers[w].Exiting?
    case FinalOk(w) => w < |s.workers| && s.workers[w].FinalWriting?
    case FinalFail(w) => w < |s.workers| && s.workers[w].FinalWriting?
  }

  function Next(s: State, step: Step): State
    requires Enabled(s, step)
  {
    match step
    case Push(r) => s.(pushed := s.pushed + [r], buffer := s.buffer + [r])
    case RequestStop => s.(stop := true)
    case Start => s.(stop := false, workers := s.workers + [Checking])
    case Check(w) => s.(workers := s.workers[w := if s.stop then Exiting else Sleeping])
    case Drain(w) =>
      if s.buffer == [] then s.(workers := s.workers[w := Checking])
      else
        var n := BatchSize(|s.buffer|);
        s.(buffer := s.buffer[n..], workers := s.workers[w := Writing(s.buffer[..n])])
    case WriteOk(w) =>
      s.(settled := s.settled + [Written(s.workers[w].batch)], workers := s.workers[w := Checking])
    case WriteFail(w) => s.(workers := s.workers[w := Failed(s.workers[w].batch)])
    case PutBack(w) => s.(buffer := s.workers[w].batch + s.buffer, workers := s.workers[w := Checking])
    case FinalDrain(w) =>
      if s.buffer == [] then s.(workers := s.workers[w := Stopped])
      else s.(buffer := [], workers := s.workers[w := FinalWriting(s.buffer)])
    case FinalOk(w) =>
      s.(settled := s.settled + [Written(s.workers[w].batch)], workers := s.workers[w := Stopped])
    case FinalFail(w) =>
      s.(settled := s.settled + [Lost(s.workers[w].batch)], workers := s.workers[w := Stopped])
  }

  ghost predicate Run(states: seq<State>, steps: seq<Step>) {
    && |states| == |steps| + 1
    && states[0] == Initial()
    && forall i | 0 <= i < |steps| :: Enabled(states[i], steps[i]) && states[i + 1] == Next(states[i], steps[i])
  }

  // ----- conservation -----

  function Held(w: Worker): seq<TickData> {
    match w
    case Writing(b) => b
    case Failed(b) => b
    case FinalWriting(b) => b
    case _ => []
  }

  /** The records of a list of outcomes, in order. */
  function Records(settled: seq<Outcome>): seq<TickData> {
    if settled == [] then [] else Records(settled[..|settled| - 1]) + settled[|settled| - 1].batch
  }

  /** The storage log: what was written, in order. */
  function Log(settled: seq<Outcome>): seq<TickData> {
    if settled == [] then [] else
      var last := settled[|settled| - 1];
      if last.Written? then Log(settled[..|settled| - 1]) + last.batch else Log(settled[..|settled| - 1])
  }

  lemma Settle(settled: seq<Outcome>, o: Outcome)
    ensures Records(settled + [o]) == Records(settled) + o.batch
    ensures Log(settled + [o]) == if o.Written? then Log(settled) + o.batch else Log(settled)
  {
    assert (settled + [o])[..|settled|] == settled;
  }

  function Count(s: seq<TickData>, x: TickData): nat {
    multiset(s)[x]
  }

  /** Copies of one record in the hands of the workers. */
  function InFlight(workers: seq<Worker>, x: TickData): nat {
    if workers == [] then 0 else
      InFlight(workers[..|workers| - 1], x) + Count(Held(workers[|workers| - 1]), x)
  }

  lemma InFlightSnoc(workers: seq<Worker>, v: Worker, x: TickData)
    ensures InFlight(workers + [v], x) == InFlight(workers, x) + Count(Held(v), x)
  {
    assert (workers + [v])[..|workers|] == workers;
  }

  lemma {:induction false} InFlightConcat(a: seq<Worker>, b: seq<Worker>, x: TickData)
    ensures InFlight(a + b, x) == InFlight(a, x) + InFlight(b, x)
  {
    if b == [] {
      assert a + b == a;
    } else {
      var init, last := b[..|b| - 1], b[|b| - 1];
      InFlightConcat(a, init, x);
      InFlightSnoc(a + init, last, x);
      InFlightSnoc(init, last, x);
      assert b == init + [last];
      assert a + b == (a + init) + [last];
    }
  }

  /** When one worker changes, so do the copies in flight. */
  lemma InFlightUpdate(workers: seq<Worker>, w: nat, v: Worker, x: TickData)
    requires w < |workers|
    ensures InFlight(workers[w := v], x) + Count(Held(workers[w]), x) == InFlight(workers, x) + Count(Held(v), x)
  {
    var left, right := workers[..w], workers[w + 1..];
    assert workers == (left + [workers[w]]) + right;
    assert workers[w := v] == (left + [v]) + right;
    InFlightConcat(left + [workers[w]], right, x);
    InFlightConcat(left + [v], right, x);
    InFlightSnoc(left, workers[w], x);
    InFlightSnoc(left, v, x);
  }

  /** With any number of workers: every pushed record is in exactly one place, exactly once: in an outcome,
      in a worker's hands, or in the buffer. */
  ghost predicate Conserved(s: State) {
    forall x :: Count(s.pushed, x) == Count(Records(s.settled), x) + InFlight(s.workers, x) + Count(s.buffer, x)
  }

  /** A worker step either hands its batch to its outcome, or moves records between the front of the
      buffer and its hands. */
  ghost predicate Moves(s: State, s': State, w: nat) {
    && w < |s.workers| && w < |s'.workers|
    && s'.pushed == s.pushed
    && s'.workers == s.workers[w := s'.workers[w]]
    && if s'.settled == s.settled then
         Held(s.workers[w]) + s.buffer == Held(s'.workers[w]) + s'.buffer
       else
         && s'.settled != []
         && s'.settled == s.settled + [s'.settled[|s'.settled| - 1]]
         && s'.settled[|s'.settled| - 1].batch == Held(s.workers[w])
         && Held(s'.workers[w]) == [] && s'.buffer == s.buffer
  }

  predicate WorkerStep(step: Step) {
    !step.Push? && !step.RequestStop? && !step.Start?
  }

  lemma WorkerStepMoves(s: State, step: Step)
    requires Enabled(s, step) && WorkerStep(step)
    ensures Moves(s, Next(s, step), step.w) && !s.workers[step.w].Stopped?
  {
  }

  lemma MovesConserve(s: State, s': State, w: nat)
    requires Moves(s, s', w) && Conserved(s)
    ensures Conserved(s')
  {
    forall x
      ensures Count(s'.pushed, x) == Count(Records(s'.settled), x) + InFlight(s'.workers, x) + Count(s'.buffer, x)
    {
      MovesConserveAt(s, s', w, x);
    }
  }

  lemma MovesConserveAt(s: State, s': State, w: nat, x: TickData)
    requires Moves(s, s', w)
    ensures Count(Records(s'.settled), x) + InFlight(s'.workers, x) + Count(s'.buffer, x) ==
            Count(Records(s.settled), x) + InFlight(s.workers, x) + Count(s.buffer, x)
  {
    var held, held' := Held(s.workers[w]), Held(s'.workers[w]);
    InFlightUpdate(s.workers, w, s'.workers[w], x);
    if s'.settled == s.settled {
      CountConcat(held, s.buffer, x);
      CountConcat(held', s'.buffer, x);
    } else {
      Settle(s.settled, s'.settled[|s'.settled| - 1]);
      CountConcat(Records(s.settled), held, x);
    }
  }

  lemma CountConcat(a: seq<TickData>, b: seq<TickData>, x: TickData)
    ensures Count(a + b, x) == Count(a, x) + Count(b, x)
  {
  }

  lemma StepConserves(s: State, step: Step)
    requires Enabled(s, step) && Conserved(s)
    ensures Conserved(Next(s, step))
  {
    if step.Push? {
      assert multiset(s.pushed + [step.record]) == multiset(s.pushed) + multiset{step.record};
      assert multiset(s.buffer + [step.record]) == multiset(s.buffer) + multiset{step.record};
    } else if step.Start? {
      assert (s.workers + [Checking])[..|s.workers|] == s.workers;
    } else if !step.RequestStop? {
      WorkerStepMoves(s, step);
      MovesConserve(s, Next(s, step), step.w);
    }
  }

  lemma {:induction false} RunConserves(states: seq<State>, steps: seq<Step>, i: nat)
    requires Run(states, steps) && i < |states|
    ensures Conserved(states[i])
  {
    if i == 0 {
    } else {
      RunConserves(states, steps, i - 1);
      StepConserves(states[i - 1], steps[i - 1]);
    }
  }

  // ----- order, with one live worker at a time -----

  ghost predicate OneLive(s: State) {
    forall v, w | 0 <= v < w < |s.workers| :: s.workers[v].Stopped? || s.workers[w].Stopped?
  }

  /** The only batch in flight, if any. */
  ghost function Flying(workers: seq<Worker>): seq<TickData> {
    if workers == [] then [] else
      Flying(workers[..|workers| - 1]) + Held(workers[|workers| - 1])
  }

  /** Pushed records are exactly the settled ones, then the batch in flight, then the buffer, in order. */
  ghost predicate InOrder(s: State) {
    s.pushed == Records(s.settled) + Flying(s.workers) + s.buffer
  }

  lemma {:induction false} FlyingQuiet(workers: seq<Worker>)
    requires forall v | 0 <= v < |workers| :: Held(workers[v]) == []
    ensures Flying(workers) == []
  {
    if workers == [] {
    } else {
      FlyingQuiet(workers[..|workers| - 1]);
    }
  }

  lemma {:induction false} FlyingOne(workers: seq<Worker>, w: nat)
    requires w < |workers|
    requires forall v | 0 <= v < |workers| && v != w :: Held(workers[v]) == []
    ensures Flying(workers) == Held(workers[w])
  {
    var init, last := workers[..|workers| - 1], |workers| - 1;
    if w < last {
      FlyingOne(init, w);
    } else {
      FlyingQuiet(init);
    }
  }

  lemma MovesInOrder(s: State, s': State, w: nat)
    requires Moves(s, s', w) && InOrder(s) && OneLive(s) && !s.workers[w].Stopped?
    ensures InOrder(s')
  {
    OnlyOneHolds(s, s'.workers, w);
    var done, held, held' := Records(s.settled), Held(s.workers[w]), Held(s'.workers[w]);
    if s'.settled == s.settled {
      Associate(done, held, s.buffer);
      Associate(done, held', s'.buffer);
    } else {
      Settle(s.settled, s'.settled[|s'.settled| - 1]);
    }
  }

  lemma StepInOrder(s: State, step: Step)
    requires Enabled(s, step) && InOrder(s) && OneLive(s)
    ensures InOrder(Next(s, step))
  {
    if step.Push? {
      Associate(Records(s.settled) + Flying(s.workers), s.buffer, [step.record]);
    } else if step.Start? {
      assert (s.workers + [Checking])[..|s.workers|] == s.workers;
    } else if !step.RequestStop? {
      WorkerStepMoves(s, step);
      MovesInOrder(s, Next(s, step), step.w);
    }
  }

  lemma OnlyOneHolds(s: State, workers': seq<Worker>, w: nat)
    requires OneLive(s) && w < |s.workers| && !s.workers[w].Stopped?
    requires |workers'| == |s.workers| && workers' == s.workers[w := workers'[w]]
    ensures Flying(s.workers) == Held(s.workers[w]) && Flying(workers') == Held(workers'[w])
  {
    forall v | 0 <= v < |s.workers| && v != w
      ensures Held(s.workers[v]) == [] && workers'[v] == s.workers[v]
    {
      assert s.workers[v].Stopped?;
    }
    FlyingOne(s.workers, w);
    FlyingOne(workers', w);
  }

  /** Under every interleaving of pushes with a worker's drain, write, failure and put-back steps, as long
      as no worker is started while another is live: nothing is lost, duplicated or reordered. */
  lemma {:induction false} RunInOrder(states: seq<State>, steps: seq<Step>, i: nat)
    requires Run(states, steps) && i < |states|
    requires forall j | 0 <= j < i :: OneLive(states[j])
    ensures InOrder(states[i])
  {
    if i == 0 {
    } else {
      RunInOrder(states, steps, i - 1);
      StepInOrder(states[i - 1], steps[i - 1]);
    }
  }

  // ----- the log -----

  ghost predicate NothingLost(s: State) {
    forall i | 0 <= i < |s.settled| :: s.settled[i].Written?
  }

  lemma {:induction false} LogIsAll(settled: seq<Outcome>)
    requires forall i | 0 <= i < |settled| :: settled[i].Written?
    ensures Log(settled) == Records(settled)
  {
    if settled == [] {
    } else {
      LogIsAll(settled[..|settled| - 1]);
    }
  }

  /** Records are lost by failed final flushes and by nothing else. */
  lemma {:induction false} LossOnlyAtShutdown(states: seq<State>, steps: seq<Step>, i: nat)
    requires Run(states, steps) && i < |states|
    ensures NothingLost(states[i]) <==> forall j | 0 <= j < i :: !steps[j].FinalFail?
  {
    if i == 0 {
    } else {
      LossOnlyAtShutdown(states, steps, i - 1);
      RunStep(states, steps, i - 1);
      StepLoses(states[i - 1], steps[i - 1]);
    }
  }

  lemma StepLoses(s: State, step: Step)
    requires Enabled(s, step)
    ensures NothingLost(Next(s, step)) <==> NothingLost(s) && !step.FinalFail?
  {
    var s' := Next(s, step);
    if |s'.settled| == |s.settled| {
      assert s'.settled == s.settled;
    } else {
      assert s'.settled[..|s.settled|] == s.settled;
      assert NothingLost(s') <==> NothingLost(s) && s'.settled[|s.settled|].Written?;
    }
  }

  lemma LogIsPrefix(states: seq<State>, steps: seq<Step>, i: nat)
    requires Run(states, steps) && i < |states|
    requires forall j | 0 <= j < i :: OneLive(states[j]) && !steps[j].FinalFail?
    ensures Log(states[i].settled) <= states[i].pushed
  {
    RunInOrder(states, steps, i);
    LossOnlyAtShutdown(states, steps, i);
    LogIsAll(states[i].settled);
  }

  /** From a final drain of worker `w` in `s` on: either its last batch is being written, or the log holds
      everything pushed before the drain. */
  ghost predicate Flushing(s: State, w: nat, t: State) {
    && w < |t.workers|
    && (forall v | 0 <= v < |t.workers| && v != w :: t.workers[v].Stopped?)
    && (if t.workers[w].Stopped? then Log(t.settled) == s.pushed
        else t.workers[w] == FinalWriting(s.buffer) && t.settled == s.settled)
  }

  lemma AllIsLogged(s: State, w: nat)
    requires w < |s.workers| && s.workers[w].Exiting? && OneLive(s) && InOrder(s) && NothingLost(s)
    ensures s.pushed == Log(s.settled) + s.buffer
  {
    ExitingHoldsNothing(s, w);
    LogIsAll(s.settled);
    assert Log(s.settled) + [] == Log(s.settled);
  }

  lemma FlushStarts(s: State, w: nat)
    requires Enabled(s, FinalDrain(w)) && OneLive(s) && InOrder(s) && NothingLost(s)
    ensures Flushing(s, w, Next(s, FinalDrain(w))) && s.pushed == Log(s.settled) + s.buffer
  {
    AllIsLogged(s, w);
    if s.buffer == [] {
      assert Log(s.settled) + [] == Log(s.settled);
    }
    assert forall v | 0 <= v < |s.workers| && v != w :: s.workers[v].Stopped?;
  }

  lemma FlushGoesOn(s: State, w: nat, t: State, step: Step)
    requires Flushing(s, w, t) && Enabled(t, step) && !step.Start? && !step.FinalFail?
    requires s.pushed == Log(s.settled) + s.buffer
    ensures Flushing(s, w, Next(t, step))
  {
    if step.FinalOk? {
      Settle(t.settled, Written(s.buffer));
    }
  }

  /** A finished shutdown flush, of a full or an empty buffer, leaves in the log everything pushed before the
      final drain, until a worker is started again. */
  lemma ShutdownComplete(states: seq<State>, steps: seq<Step>, i: nat, k: nat)
    requires Run(states, steps) && i < k < |states| && steps[i].FinalDrain?
    requires forall j | 0 <= j <= i :: OneLive(states[j])
    requires forall j | 0 <= j < k :: !steps[j].FinalFail?
    requires forall j | i < j < k :: !steps[j].Start?
    ensures steps[i].w < |states[k].workers|
    ensures states[k].workers[steps[i].w].Stopped? ==> Log(states[k].settled) == states[i].pushed
  {
    FlushBegins(states, steps, i);
    FlushRuns(states, steps, i, k);
  }

  lemma FlushBegins(states: seq<State>, steps: seq<Step>, i: nat)
    requires Run(states, steps) && i < |steps| && steps[i].FinalDrain?
    requires forall j | 0 <= j <= i :: OneLive(states[j]) && !steps[j].FinalFail?
    ensures Flushing(states[i], steps[i].w, states[i + 1]) && states[i].pushed == Log(states[i].settled) + states[i].buffer
  {
    RunStep(states, steps, i);
    RunInOrder(states, steps, i);
    LossOnlyAtShutdown(states, steps, i);
    FlushStarts(states[i], steps[i].w);
  }

  lemma {:induction false} FlushRuns(states: seq<State>, steps: seq<Step>, i: nat, k: nat)
    requires Run(states, steps) && i < k < |states|
    requires steps[i].FinalDrain? && Flushing(states[i], steps[i].w, states[i + 1])
    requires states[i].pushed == Log(states[i].settled) + states[i].buffer
    requires forall j | i < j < k :: !steps[j].Start? && !steps[j].FinalFail?
    ensures Flushing(states[i], steps[i].w, states[k])
  {
    if k == i + 1 {
    } else {
      FlushRuns(states, steps, i, k - 1);
      RunStep(states, steps, k - 1);
      assert !steps[k - 1].Start? && !steps[k - 1].FinalFail?;
      FlushGoesOn(states[i], steps[i].w, states[k - 1], steps[k - 1]);
    }
  }

  lemma RunStep(states: seq<State>, steps: seq<Step>, i: nat)
    requires Run(states, steps) && i < |steps|
    ensures Enabled(states[i], steps[i]) && states[i + 1] == Next(states[i], steps[i])
  {
  }

  lemma ExitingHoldsNothing(s: State, w: nat)
    requires OneLive(s) && w < |s.workers| && s.workers[w].Exiting?
    ensures Flying(s.workers) == []
  {
    OnlyOneHolds(s, s.workers, w);
  }

  // ----- a second start is not guarded -----

  /** `s` can be reached by some run. */
  ghost predicate Reachable(s: State) {
    exists states: seq<State>, steps: seq<Step> :: Run(states, steps) && states[|states| - 1] == s
  }

  lemma ReachInitial()
    ensures Reachable(Initial())
  {
    assert Run([Initial()], []);
  }

  lemma ReachNext(s: State, step: Step)
    requires Reachable(s) && Enabled(s, step)
    ensures Reachable(Next(s, step))
  {
    var states: seq<State>, steps: seq<Step> :| Run(states, steps) && states[|states| - 1] == s;
    assert Run(states + [Next(s, step)], steps + [step]);
  }

  /** Starting a second worker while the first is live can write records out of order. */
  lemma SecondWorkerReorders(a: TickData, b: TickData) returns (s: State)
    ensures Reachable(s) && s.pushed == [a, b] && Log(s.settled) == [b, a]
  {
    ReachInitial();
    ReachNext(Initial(), Start);
    ReachNext(Next(Initial(), Start), Start);
    s := TwoStarted();
    ReachNext(s, Check(0));
    s := Next(s, Check(0));
    ReachNext(s, Check(1));
    s := Next(s, Check(1));
    assert s == State([], [], [], false, [Sleeping, Sleeping]);
    s := DrainOne(s, a, 0);
    s := DrainOne(s, b, 1);
    assert s == State([a, b], [], [], false, [Writing([a]), Writing([b])]);
    s := WriteBoth(s, a, b);
  }

  lemma WriteBoth(s: State, a: TickData, b: TickData) returns (s': State)
    requires Reachable(s) && s == State([a, b], [], [], false, [Writing([a]), Writing([b])])
    ensures Reachable(s') && s'.pushed == [a, b] && Log(s'.settled) == [b, a]
  {
    ReachNext(s, WriteOk(1));
    var mid := Next(s, WriteOk(1));
    ReachNext(mid, WriteOk(0));
    s' := Next(mid, WriteOk(0));
    TwoWritten(a, b);
    assert s'.settled == [Written([b])] + [Written([a])];
  }

  lemma OneWritten(r: TickData)
    ensures Log([Written([r])]) == [r]
  {
    Settle([], Written([r]));
    assert [] + [Written([r])] == [Written([r])];
  }

  lemma TwoWritten(a: TickData, b: TickData)
    ensures Log([Written([b])] + [Written([a])]) == [b, a]
  {
    var first := [Written([b])];
    OneWritten(b);
    assert (first + [Written([a])])[..1] == first;
  }

  lemma TwoStarted() returns (s: State)
    ensures s == Next(Next(Initial(), Start), Start) == State([], [], [], false, [Checking, Checking])
  {
    s := State([], [], [], false, [Checking, Checking]);
  }

  /** A push into an empty buffer followed by a drain leaves the record with the worker. */
  lemma DrainOne(s: State, r: TickData, w: nat) returns (s': State)
    requires Reachable(s) && s.buffer == [] && w < |s.workers| && s.workers[w].Sleeping?
    ensures Reachable(s')
    ensures s' == s.(pushed := s.pushed + [r], workers := s.workers[w := Writing([r])])
  {
    ReachNext(s, Push(r));
    var mid := Next(s, Push(r));
    assert mid.buffer == [r];
    ReachNext(mid, Drain(w));
    s' := Next(mid, Drain(w));
    assert [r][..1] == [r] && [r][1..] == [];
  }

  // ----- when a start is safe -----

  /** A run from `s` in which no worker is started. */
  ghost predicate Continues(s: State, states: seq<State>, steps: seq<Step>) {
    && |states| == |steps| + 1
    && states[0] == s
    && forall i | 0 <= i < |steps| ::
         !steps[i].Start? && Enabled(states[i], steps[i]) && states[i + 1] == Next(states[i], steps[i])
  }

  /** However the run goes on, the log stays a prefix of what has been pushed. */
  ghost predicate KeepsOrder(s: State) {
    forall states: seq<State>, steps: seq<Step> | Continues(s, states, steps) ::
      Log(states[|steps|].settled) <= states[|steps|].pushed
  }

  ghost predicate NoneLive(s: State) {
    forall v | 0 <= v < |s.workers| :: s.workers[v].Stopped?
  }

  /** One live worker that has lost nothing, or no live worker and a good log. */
  ghost predicate Guarded(s: State) {
    (OneLive(s) && InOrder(s) && NothingLost(s)) || (NoneLive(s) && Log(s.settled) <= s.pushed)
  }

  lemma GuardedLog(s: State)
    requires Guarded(s)
    ensures Log(s.settled) <= s.pushed
  {
    if NothingLost(s) {
      LogIsAll(s.settled);
    }
  }

  lemma GuardedStep(s: State, step: Step)
    requires Guarded(s) && Enabled(s, step) && !step.Start?
    ensures Guarded(Next(s, step))
  {
    if OneLive(s) && InOrder(s) && NothingLost(s) {
      GuardedLog(s);
      StepInOrder(s, step);
      StepLoses(s, step);
      OneLiveStep(s, step);
    } else {
      NoneLiveStep(s, step);
    }
  }

  lemma OneLiveStep(s: State, step: Step)
    requires OneLive(s) && Enabled(s, step) && !step.Start?
    ensures OneLive(Next(s, step))
    ensures step.FinalFail? ==> NoneLive(Next(s, step)) && Log(Next(s, step).settled) == Log(s.settled) && Next(s, step).pushed == s.pushed
  {
    if step.FinalFail? {
      Settle(s.settled, Lost(s.workers[step.w].batch));
    }
  }

  lemma NoneLiveStep(s: State, step: Step)
    requires NoneLive(s) && Log(s.settled) <= s.pushed && Enabled(s, step) && !step.Start?
    ensures NoneLive(Next(s, step)) && Log(Next(s, step).settled) <= Next(s, step).pushed
  {
  }

  lemma {:induction false} GuardedRun(s: State, states: seq<State>, steps: seq<Step>, i: nat)
    requires Guarded(s) && Continues(s, states, steps) && i <= |steps|
    ensures Guarded(states[i])
  {
    if i == 0 {
    } else {
      GuardedRun(s, states, steps, i - 1);
      GuardedStep(states[i - 1], steps[i - 1]);
    }
  }

  /** `t` can be reached from `s` without starting a worker, and `t` accounts for every record. */
  ghost predicate Leads(s: State, t: State) {
    Conserved(t) &&
    exists states: seq<State>, steps: seq<Step> :: Continues(s, states, steps) && states[|steps|] == t
  }

  lemma LeadsOn(s: State, t: State, step: Step)
    requires Leads(s, t) && Enabled(t, step) && !step.Start?
    ensures Leads(s, Next(t, step))
  {
    var states: seq<State>, steps: seq<Step> :| Continues(s, states, steps) && states[|steps|] == t;
    StepConserves(t, step);
    assert Continues(s, states + [Next(t, step)], steps + [step]);
    assert (states + [Next(t, step)])[|steps| + 1] == Next(t, step);
  }

  lemma LeadsFrom(s: State)
    requires Conserved(s)
    ensures Leads(s, s)
  {
    assert Continues(s, [s], []);
  }

  /** Every worker but `w` is as before, and so are the pushed records and the outcomes. */
  ghost predicate OnlyMoved(t: State, w: nat, v: Worker, t': State) {
    w < |t.workers| && t'.workers == t.workers[w := v] && t'.pushed == t.pushed && t'.settled == t.settled && t'.stop == t.stop
  }

  /** Once a stop is requested, a live worker that is not in its final write can get ready for its final drain
      without writing anything. */
  lemma ToExiting(s: State, t: State, w: nat) returns (t': State)
    requires Leads(s, t) && t.stop && w < |t.workers| && !t.workers[w].Stopped? && !t.workers[w].FinalWriting?
    ensures Leads(s, t') && OnlyMoved(t, w, Exiting, t')
  {
    if t.workers[w].Exiting? {
      t' := t;
    } else {
      var mid := ToChecking(s, t, w);
      LeadsOn(s, mid, Check(w));
      t' := Next(mid, Check(w));
    }
  }

  lemma ToChecking(s: State, t: State, w: nat) returns (t': State)
    requires Leads(s, t) && w < |t.workers| && !t.workers[w].Stopped? && !t.workers[w].FinalWriting? && !t.workers[w].Exiting?
    ensures Leads(s, t') && OnlyMoved(t, w, Checking, t')
  {
    t' := t;
    if t'.workers[w].Sleeping? {
      LeadsOn(s, t', Drain(w));
      t' := Next(t', Drain(w));
    }
    if t'.workers[w].Writing? {
      LeadsOn(s, t', WriteFail(w));
      t' := Next(t', WriteFail(w));
    }
    if t'.workers[w].Failed? {
      LeadsOn(s, t', PutBack(w));
      t' := Next(t', PutBack(w));
    }
  }

  /** A worker that is ready for its final drain can take a batch. */
  lemma ToHolding(s: State, t: State, u: nat, y: TickData) returns (t': State)
    requires Leads(s, t) && u < |t.workers| && t.workers[u].Exiting?
    ensures Leads(s, t') && |t'.workers| == |t.workers| && t'.settled == t.settled
    ensures t'.workers[u].FinalWriting? && Held(t'.workers[u]) != []
    ensures forall v | 0 <= v < |t.workers| && v != u :: t'.workers[v] == t.workers[v]
  {
    LeadsOn(s, t, Push(y));
    var mid := Next(t, Push(y));
    LeadsOn(s, mid, FinalDrain(u));
    t' := Next(mid, FinalDrain(u));
  }

  function Newest(records: seq<TickData>): int {
    if records == [] then 0
    else
      var before, last := Newest(records[..|records| - 1]), records[|records| - 1].timestamp;
      if last > before then last else before
  }

  lemma {:induction false} NewestBounds(records: seq<TickData>, i: nat)
    requires i < |records|
    ensures records[i].timestamp <= Newest(records)
  {
    if i == |records| - 1 {
    } else {
      NewestBounds(records[..|records| - 1], i);
    }
  }

  lemma NewRecord(records: seq<TickData>) returns (x: TickData)
    ensures x !in records
  {
    x := TickData("", 0.0, 0.0, 0.0, 0, Newest(records) + 1);
    forall i | 0 <= i < |records|
      ensures records[i] != x
    {
      NewestBounds(records, i);
    }
  }

  lemma {:induction false} LogCount(settled: seq<Outcome>, z: TickData)
    ensures Count(Log(settled), z) <= Count(Records(settled), z)
  {
    if settled == [] {
    } else {
      var init, last := settled[..|settled| - 1], settled[|settled| - 1];
      LogCount(init, z);
      CountConcat(Records(init), last.batch, z);
      CountConcat(Log(init), last.batch, z);
    }
  }

  lemma {:induction false} HolderCounts(workers: seq<Worker>, u: nat, z: TickData)
    requires u < |workers| && z in Held(workers[u])
    ensures InFlight(workers, z) >= 1
  {
    if u == |workers| - 1 {
    } else {
      HolderCounts(workers[..|workers| - 1], u, z);
    }
  }

  /** Whoever writes the newest record while another worker holds a batch leaves a gap in the log. */
  lemma NewestFirst(t: State, u: nat, x: TickData, before: seq<TickData>)
    requires Conserved(t) && u < |t.workers| && Held(t.workers[u]) != []
    requires t.pushed == before + [x] && x !in before && t.buffer != [] && t.buffer[|t.buffer| - 1] == x
    ensures !(Log(t.settled) + t.buffer <= t.pushed)
  {
    var log, z := Log(t.settled) + t.buffer, Held(t.workers[u])[0];
    LogCount(t.settled, z);
    HolderCounts(t.workers, u, z);
    CountConcat(Log(t.settled), t.buffer, z);
    assert Count(log, z) < Count(t.pushed, z);
    EndsLast(log, before, x);
  }

  lemma EndsLast(log: seq<TickData>, before: seq<TickData>, x: TickData)
    requires x !in before && log != [] && log[|log| - 1] == x
    ensures log <= before + [x] ==> log == before + [x]
  {
    assert forall i | 0 <= i < |before| :: (before + [x])[i] == before[i] && before[i] != x;
  }

  lemma WriteNewest(s: State, t: State, u: nat, w: nat) returns (t': State)
    requires Leads(s, t) && u < |t.workers| && w < |t.workers| && u != w
    requires Held(t.workers[u]) != [] && t.workers[w].Exiting?
    ensures Leads(s, t') && !(Log(t'.settled) <= t'.pushed)
  {
    var x := NewRecord(t.pushed);
    LeadsOn(s, t, Push(x));
    var t1 := Next(t, Push(x));
    NewestFirst(t1, u, x, t.pushed);
    LeadsOn(s, t1, FinalDrain(w));
    var t2 := Next(t1, FinalDrain(w));
    LeadsOn(s, t2, FinalOk(w));
    t' := Next(t2, FinalOk(w));
    Settle(t2.settled, Written(t1.buffer));
  }

  /** From any state with two live workers, one of them not in its final write, the log can go wrong. */
  lemma TwoLiveBreak(s: State, u: nat, w: nat)
    requires Conserved(s) && u < |s.workers| && w < |s.workers| && u != w
    requires !s.workers[u].Stopped? && !s.workers[w].Stopped? && !s.workers[w].FinalWriting?
    requires s.workers[u].FinalWriting? ==> Held(s.workers[u]) != []
    ensures !KeepsOrder(s)
  {
    LeadsFrom(s);
    LeadsOn(s, s, RequestStop);
    var t := ToExiting(s, Next(s, RequestStop), w);
    if !t.workers[u].FinalWriting? {
      t := ToExiting(s, t, u);
      var y := NewRecord(t.pushed);
      t := ToHolding(s, t, u, y);
    }
    t := WriteNewest(s, t, u, w);
    var states: seq<State>, steps: seq<Step> :| Continues(s, states, steps) && states[|steps|] == t;
  }

  ghost predicate BatchesHold(s: State) {
    forall v | 0 <= v < |s.workers| && s.workers[v].FinalWriting? :: Held(s.workers[v]) != []
  }

  lemma {:induction false} RunBatchesHold(states: seq<State>, steps: seq<Step>, i: nat)
    requires Run(states, steps) && i < |states|
    ensures BatchesHold(states[i])
  {
    if i == 0 {
    } else {
      RunBatchesHold(states, steps, i - 1);
      RunStep(states, steps, i - 1);
      StepBatchesHold(states[i - 1], steps[i - 1]);
    }
  }

  lemma StepBatchesHold(s: State, step: Step)
    requires BatchesHold(s) && Enabled(s, step)
    ensures BatchesHold(Next(s, step))
  {
  }

  /** Starting a worker is safe exactly when no other is live: after it, the log stays a prefix of what is
      pushed however the run goes on, or can be made to go wrong. */
  lemma StartSafeIff(states: seq<State>, steps: seq<Step>, i: nat)
    requires Run(states, steps) && i < |states|
    requires forall j | 0 <= j <= i :: OneLive(states[j])
    requires forall j | 0 <= j < i :: !steps[j].FinalFail?
    ensures KeepsOrder(Next(states[i], Start)) <==> NoneLive(states[i])
  {
    var s, t := states[i], Next(states[i], Start);
    RunInOrder(states, steps, i);
    LossOnlyAtShutdown(states, steps, i);
    RunConserves(states, steps, i);
    RunBatchesHold(states, steps, i);
    StepInOrder(s, Start);
    StepConserves(s, Start);
    if NoneLive(s) {
      assert Guarded(t);
      forall ts: seq<State>, us: seq<Step> | Continues(t, ts, us)
        ensures Log(ts[|us|].settled) <= ts[|us|].pushed
      {
        GuardedRun(t, ts, us, |us|);
        GuardedLog(ts[|us|]);
      }
    } else {
      var u :| 0 <= u < |s.workers| && !s.workers[u].Stopped?;
      assert t.workers[u] == s.workers[u];
      TwoLiveBreak(t, u, |s.workers|);
    }
  }

  // ----- when a worker leaves, and what it writes until then -----

  /** A worker that is on its way out, or gone, has left its loop. */
  predicate Left(w: Worker) {
    w.Exiting? || w.FinalWriting? || w.Stopped?
  }

  lemma StepLeaves(s: State, step: Step, w: nat)
    requires Enabled(s, step) && w < |Next(s, step).workers| && Left(Next(s, step).workers[w])
    ensures w < |s.workers| && (s.stop || Left(s.workers[w]))
  {
  }

  ghost predicate RequestedAt(steps: seq<Step>, j: nat, i: nat) {
    j < i && j < |steps| && steps[j].RequestStop? && forall k | j < k < i && k < |steps| :: !steps[k].Start?
  }

  /** A stop has been requested since the last start. */
  ghost predicate StopPending(steps: seq<Step>, i: nat) {
    exists j: nat :: RequestedAt(steps, j, i)
  }

  lemma StopPendingStep(steps: seq<Step>, i: nat)
    requires i < |steps|
    ensures StopPending(steps, i + 1) <==> steps[i].RequestStop? || (!steps[i].Start? && StopPending(steps, i))
  {
    var n := i + 1;
    if j: nat :| RequestedAt(steps, j, i) && !steps[i].Start? {
      assert RequestedAt(steps, j, n);
    }
    if j: nat :| RequestedAt(steps, j, n) && j < i {
      assert RequestedAt(steps, j, i);
    }
    if steps[i].RequestStop? {
      assert RequestedAt(steps, i, n);
    }
  }

  /** The stop flag is set exactly while a stop has been requested since the last start. */
  lemma {:induction false} StopIff(states: seq<State>, steps: seq<Step>, i: nat)
    requires Run(states, steps) && i < |states|
    ensures states[i].stop <==> StopPending(steps, i)
  {
    if i == 0 {
    } else {
      StopIff(states, steps, i - 1);
      StopPendingStep(steps, i - 1);
      RunStep(states, steps, i - 1);
    }
  }

  predicate InLoop(w: Worker) {
    w.Checking? || w.Sleeping? || w.Writing? || w.Failed?
  }

  lemma StepStays(s: State, step: Step, w: nat)
    requires Enabled(s, step) && !step.RequestStop? && w < |s.workers| && InLoop(s.workers[w]) && !s.stop
    ensures w < |Next(s, step).workers| && InLoop(Next(s, step).workers[w]) && !Next(s, step).stop
  {
  }

  lemma StartedInLoop(s: State)
    ensures var w, t := |s.workers|, Next(s, Start); w < |t.workers| && InLoop(t.workers[w]) && !t.stop
  {
  }

  /** The worker started at step `m` stays in its loop until a stop is requested after that. */
  lemma {:induction false} LeavesOnlyOnRequest(states: seq<State>, steps: seq<Step>, m: nat, i: nat)
    requires Run(states, steps) && m < i < |states| && steps[m].Start?
    requires forall j | m < j < i :: !steps[j].RequestStop?
    ensures var w := |states[m].workers|; w < |states[i].workers| && InLoop(states[i].workers[w]) && !states[i].stop
  {
    if i == m + 1 {
      RunStep(states, steps, m);
      StartedInLoop(states[m]);
    } else {
      LeavesOnlyOnRequest(states, steps, m, i - 1);
      RunStep(states, steps, i - 1);
      assert !steps[i - 1].RequestStop?;
      StepStays(states[i - 1], steps[i - 1], |states[m].workers|);
    }
  }

  /** No worker leaves its loop in a run in which no stop is requested; any that has left saw the flag set. */
  lemma {:induction false} LeftAfterStop(states: seq<State>, steps: seq<Step>, i: nat, w: nat)
    requires Run(states, steps) && i < |states| && w < |states[i].workers| && Left(states[i].workers[w])
    ensures exists j | 0 <= j < i :: states[j].stop && StopPending(steps, j)
  {
    if i == 0 {
    } else {
      RunStep(states, steps, i - 1);
      StepLeaves(states[i - 1], steps[i - 1], w);
      if states[i - 1].stop {
        StopIff(states, steps, i - 1);
      } else {
        LeftAfterStop(states, steps, i - 1, w);
      }
    }
  }

  /** The next turn of a worker's loop with a write that succeeds: check, drain, write. */
  function Turn(s: State, w: nat): State
    requires w < |s.workers| && s.workers[w].Checking? && !s.stop && s.buffer != []
  {
    Next(Next(Next(s, Check(w)), Drain(w)), WriteOk(w))
  }

  /** While no stop is requested, one turn writes exactly the first 1000 records of the buffer, or all of them if
      there are fewer, and leaves the worker ready for the next turn. */
  lemma TurnWrites(s: State, w: nat)
    requires w < |s.workers| && s.workers[w].Checking? && !s.stop && s.buffer != []
    ensures var n, t := if |s.buffer| < 1000 then |s.buffer| else 1000, Turn(s, w);
      && Log(t.settled) == Log(s.settled) + s.buffer[..n]
      && t == s.(settled := t.settled, buffer := s.buffer[n..])
  {
    var n := if |s.buffer| < 1000 then |s.buffer| else 1000;
    Settle(s.settled, Written(s.buffer[..n]));
    assert s.workers[w := Checking] == s.workers;
  }

  /** If the write fails, the turn ends with everything where it was, ahead of what was pushed meanwhile. */
  lemma FailedTurnRestores(s: State, w: nat, x: TickData)
    requires w < |s.workers| && s.workers[w].Checking? && !s.stop && s.buffer != []
    ensures var held := Next(Next(s, Check(w)), Drain(w));
            Next(Next(Next(held, Push(x)), WriteFail(w)), PutBack(w)) ==
            s.(pushed := s.pushed + [x], buffer := s.buffer + [x])
  {
    var n := if |s.buffer| < 1000 then |s.buffer| else 1000;
    assert s.buffer[..n] + (s.buffer[n..] + [x]) == s.buffer + [x];
    assert s.workers[w := Checking] == s.workers;
  }

  /** Enough turns write the whole buffer, in order. */
  lemma {:induction false} TurnsWriteAll(s: State, w: nat) returns (t: State)
    requires Conserved(s) && w < |s.workers| && s.workers[w].Checking? && !s.stop
    ensures Leads(s, t) && t.buffer == [] && t.pushed == s.pushed && t.workers == s.workers
    ensures Log(t.settled) == Log(s.settled) + s.buffer
    decreases |s.buffer|
  {
    if s.buffer == [] {
      t := s;
      LeadsFrom(s);
      assert Log(s.settled) + [] == Log(s.settled);
    } else {
      var mid := Turn(s, w);
      TurnLeads(s, w);
      TurnWrites(s, w);
      t := TurnsWriteAll(mid, w);
      LeadsTrans(s, mid, t);
      var n := if |s.buffer| < 1000 then |s.buffer| else 1000;
      Associate(Log(s.settled), s.buffer[..n], s.buffer[n..]);
      assert s.buffer[..n] + s.buffer[n..] == s.buffer;
    }
  }

  lemma TurnLeads(s: State, w: nat)
    requires Conserved(s) && w < |s.workers| && s.workers[w].Checking? && !s.stop && s.buffer != []
    ensures Leads(s, Turn(s, w))
  {
    var checked := Next(s, Check(w));
    var drained := Next(checked, Drain(w));
    LeadsFrom(s);
    LeadsOn(s, s, Check(w));
    LeadsOn(s, checked, Drain(w));
    LeadsOn(s, drained, WriteOk(w));
  }

  lemma LeadsTrans(s: State, t: State, u: State)
    requires Leads(s, t) && Leads(t, u)
    ensures Leads(s, u)
  {
    var first: seq<State>, a: seq<Step> :| Continues(s, first, a) && first[|a|] == t;
    var second: seq<State>, b: seq<Step> :| Continues(t, second, b) && second[|b|] == u;
    var states, steps := first[..|a|] + second, a + b;
    forall i | 0 <= i < |steps|
      ensures !steps[i].Start? && Enabled(states[i], steps[i]) && states[i + 1] == Next(states[i], steps[i])
    {
      assert states[i] == if i < |a| then first[i] else second[i - |a|];
      assert states[i + 1] == if i + 1 <= |a| then first[i + 1] else second[i + 1 - |a|];
    }
    assert Continues(s, states, steps) && states[|steps|] == u;
  }

  /** Once a stop is requested, the worker's next check takes it to its final flush. */
  lemma StopExits(s: State, w: nat)
    requires w < |s.workers| && s.workers[w].Checking? && s.stop
    ensures Next(s, Check(w)) == s.(workers := s.workers[w := Exiting])
  {
  }

  /** The final flush writes the whole buffer, and the worker is done. */
  lemma FinalFlushWrites(s: State, w: nat)
    requires w < |s.workers| && s.workers[w].Exiting?
    ensures s.buffer == [] ==> Next(s, FinalDrain(w)) == s.(workers := s.workers[w := Stopped])
    ensures s.buffer != [] ==>
              var t := Next(Next(s, FinalDrain(w)), FinalOk(w));
              && Log(t.settled) == Log(s.settled) + s.buffer
              && t == s.(settled := t.settled, buffer := [], workers := s.workers[w := Stopped])
  {
    if s.buffer != [] {
      var mid := Next(s, FinalDrain(w));
      assert mid.workers[w] == FinalWriting(s.buffer) && mid.settled == s.settled;
      Settle(s.settled, Written(s.buffer));
      assert s.workers[w := FinalWriting(s.buffer)][w := Stopped] == s.workers[w := Stopped];
    }
  }
}
