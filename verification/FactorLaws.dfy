/** What evaluation leaves in the store, in terms of the stored values, the arithmetic and the operators' `update`
    alone. */
module FactorLaws {
  import opened Seqs
  import opened DependencyGraph
  import opened KahnSort
  import opened DagManager
  import opened DagRuns
  import opened Factors
  import opened Executor

  /** A missing value counts as zero. */
  function Stored<V, S>(a: Arith<V, S>, st: Store<V, S>, id: Id): V {
    if id in st.values then st.values[id] else a.zero
  }

  // ----- one evaluated factor -----

  /** The operator of a factor has taken one more value, that of the factor's source, and the factor holds what
      the operator gave back; without an operator it holds the source's value. */
  ghost predicate Advances<V, S>(a: Arith<V, S>, reg: Registry<V>, st: Store<V, S>, st': Store<V, S>, id: Id)
    requires id in reg && (reg[id].def.Rolling? || reg[id].def.EMA? || reg[id].def.RSI? || reg[id].def.MACD?)
  {
    && id in st'.values
    && (id in st.operators ==>
          && id in st'.operators
          && (st'.operators[id], st'.values[id]) == a.update(st.operators[id], Stored(a, st', reg[id].def.source)))
    && (id !in st.operators ==> id !in st'.operators && st'.values[id] == Stored(a, st', reg[id].def.source))
  }

  lemma SolvedAdvances<V(!new), S(!new)>(a: Arith<V, S>, reg: Registry<V>, todo: set<Id>,
                                         st: Store<V, S>, st': Store<V, S>, id: Id)
    requires WellRegistered(reg) && Solves(a, reg, todo, st, st') && id in todo && id in reg
    requires reg[id].def.Rolling? || reg[id].def.EMA? || reg[id].def.RSI? || reg[id].def.MACD?
    ensures Advances(a, reg, st, st', id)
  {
  }

  /** A factor without an operator, other than a binary operation. */
  lemma SolvedPlain<V(!new), S(!new)>(a: Arith<V, S>, reg: Registry<V>, todo: set<Id>,
                                      st: Store<V, S>, st': Store<V, S>, id: Id)
    requires WellRegistered(reg) && Solves(a, reg, todo, st, st') && id in todo && id in reg
    ensures reg[id].def.Ref? ==> st'.values[id] == Stored(a, st', reg[id].def.factorId)
    ensures reg[id].def.SourceDef? ==> st'.values[id] == Stored(a, st', reg[id].def.name)
    ensures reg[id].def.Bollinger? ==> st'.values[id] == a.band(reg[id].def.numStd, Stored(a, st', reg[id].def.source))
    ensures reg[id].def.PolarsExpr? ==> st'.values[id] == a.zero
  {
  }

  /** A binary operation of two references holds the sum, difference, product or quotient of what they hold; a
      division by zero gives zero. */
  lemma SolvedBinary<V(!new), S(!new)>(a: Arith<V, S>, reg: Registry<V>, todo: set<Id>,
                                       st: Store<V, S>, st': Store<V, S>, id: Id, x: Id, y: Id, op: BinaryOpType)
    requires WellRegistered(reg) && Solves(a, reg, todo, st, st') && id in todo && id in reg
    requires reg[id].def == BinaryOp(Ref(x), Ref(y), op)
    ensures op == Add ==> st'.values[id] == a.add(Stored(a, st', x), Stored(a, st', y))
    ensures op == Sub ==> st'.values[id] == a.sub(Stored(a, st', x), Stored(a, st', y))
    ensures op == Mul ==> st'.values[id] == a.mul(Stored(a, st', x), Stored(a, st', y))
    ensures op == Div ==>
              st'.values[id] == if a.isZero(Stored(a, st', y)) then a.zero else a.div(Stored(a, st', x), Stored(a, st', y))
  {
    assert reg[id].def.left == Ref(x) && reg[id].def.right == Ref(y);
    assert ComputeDef(a, st'.values, reg[id].def.left) == Stored(a, st', x);
    assert ComputeDef(a, st'.values, reg[id].def.right) == Stored(a, st', y);
  }

  /** Definitions that may stand inside a binary operation with their own meaning. */
  predicate Nestable<V>(def: FactorDef<V>) {
    def.SourceDef? || def.Ref? || def.BinaryOp?
  }

  /** Nesting two definitions is as good as registering them under names of their own: the operation holds what
      the operation of the two references would hold. */
  lemma NestingIsNaming<V(!new), S(!new)>(a: Arith<V, S>, reg: Registry<V>, todo: set<Id>,
                                          st: Store<V, S>, st': Store<V, S>, nested: Id, named: Id, x: Id, y: Id)
    requires WellRegistered(reg) && Solves(a, reg, todo, st, st') && {nested, named, x, y} <= todo * reg.Keys
    requires reg[nested].def.BinaryOp? && reg[x].def == reg[nested].def.left && reg[y].def == reg[nested].def.right
    requires Nestable(reg[x].def) && Nestable(reg[y].def)
    requires reg[named].def == BinaryOp(Ref(x), Ref(y), reg[nested].def.op)
    ensures st'.values[nested] == st'.values[named]
  {
    SolvedIsDef(a, reg, todo, st, st', x);
    SolvedIsDef(a, reg, todo, st, st', y);
    SolvedIsDef(a, reg, todo, st, st', nested);
    SolvedIsDef(a, reg, todo, st, st', named);
    assert ComputeDef(a, st'.values, reg[named].def.left) == st'.values[x];
    assert ComputeDef(a, st'.values, reg[named].def.right) == st'.values[y];
  }

  lemma SolvedIsDef<V(!new), S(!new)>(a: Arith<V, S>, reg: Registry<V>, todo: set<Id>,
                                      st: Store<V, S>, st': Store<V, S>, id: Id)
    requires WellRegistered(reg) && Solves(a, reg, todo, st, st') && id in todo && id in reg && Nestable(reg[id].def)
    ensures id in st'.values && st'.values[id] == ComputeDef(a, st'.values, reg[id].def)
  {
  }

  // ----- every strategy -----

  /** One level-parallel execution advances each operator once, on the final value of its source. */
  lemma ExecuteAdvances<V(!new), S(!new)>(a: Arith<V, S>, reg: Registry<V>, g: Nodes, order: seq<Id>, st: Store<V, S>, id: Id)
    requires WellRegistered(reg) && Agrees(reg, g) && StrictLevels(g)
    requires NoDup(order) && (forall n | n in order :: n in g) && id in order && id in reg
    requires reg[id].def.Rolling? || reg[id].def.EMA? || reg[id].def.RSI? || reg[id].def.MACD?
    ensures Advances(a, reg, st, ExecuteStore(a, reg, g, order, st), id)
  {
    ExecuteSolves(a, reg, g, order, st);
    SolvedAdvances(a, reg, ToSet(order), st, ExecuteStore(a, reg, g, order, st), id);
  }

  /** So does an evaluation one at a time. */
  lemma SequenceAdvances<V(!new), S(!new)>(a: Arith<V, S>, reg: Registry<V>, order: seq<Id>, st: Store<V, S>, id: Id)
    requires WellRegistered(reg) && NoDup(order) && ReadsEarlier(reg, order) && id in order && id in reg
    requires reg[id].def.Rolling? || reg[id].def.EMA? || reg[id].def.RSI? || reg[id].def.MACD?
    ensures Advances(a, reg, st, RunSequence(a, reg, order, st), id)
  {
    SequenceSolves(a, reg, order, st);
    SolvedAdvances(a, reg, ToSet(order), st, RunSequence(a, reg, order, st), id);
  }

  /** An incremental update sets the source and advances exactly the operators downstream of it; every other
      factor keeps its value and its operator. */
  lemma IncrementalAdvances<V(!new), S(!new)>(a: Arith<V, S>, reg: Registry<V>, g: Nodes, order: seq<Id>,
                                              st: Store<V, S>, source: Id, v: V, id: Id)
    requires WellRegistered(reg) && Agrees(reg, g) && Mirrored(g) && Closed(g) && Acyclic(g) && KahnOrder(g, order)
    requires id in order && id in reg
    ensures var st' := IncrementalStore(a, reg, g, order, st, source, v);
      && (source !in reg ==> source in st'.values && st'.values[source] == v)
      && (source in Upstream(g, id) && (reg[id].def.Rolling? || reg[id].def.EMA? || reg[id].def.RSI? || reg[id].def.MACD?)
          ==> Advances(a, reg, st, st', id))
      && (source !in Upstream(g, id) && id != source ==>
            && (id in st.values ==> id in st'.values && st'.values[id] == st.values[id])
            && (id in st.operators ==> id in st'.operators && st'.operators[id] == st.operators[id]))
  {
    var affected := InSet(order, Downstream(g, source));
    var st0 := st.(values := st.values[source := v]);
    ClosureDuality(g, order, source);
    SubOrderReadsEarlier(reg, g, order, Downstream(g, source));
    SequenceSolves(a, reg, affected, st0);
    var st' := RunSequence(a, reg, affected, st0);
    assert id in ToSet(affected) <==> source in Upstream(g, id);
    if source in Upstream(g, id) && (reg[id].def.Rolling? || reg[id].def.EMA? || reg[id].def.RSI? || reg[id].def.MACD?) {
      SolvedAdvances(a, reg, ToSet(affected), st0, st', id);
    }
  }

  // ----- many executions -----

  /** The stores between executions, each preceded by setting some sources. */
  ghost predicate Executions<V, S>(a: Arith<V, S>, reg: Registry<V>, g: Nodes, order: seq<Id>,
                                   states: seq<Store<V, S>>, inputs: seq<map<Id, V>>) {
    |states| == |inputs| + 1 &&
    forall i | 0 <= i < |inputs| ::
      states[i + 1] == ExecuteStore(a, reg, g, order, states[i].(values := states[i].values + inputs[i]))
  }

  /** An operator that has taken these values, first to last. */
  function Advanced<V, S>(a: Arith<V, S>, s: S, vs: seq<V>): S {
    if vs == [] then s else a.update(Advanced(a, s, vs[..|vs| - 1]), vs[|vs| - 1]).0
  }

  /** The values the source has had after each of the first `k` executions. */
  function SourceValues<V, S>(a: Arith<V, S>, states: seq<Store<V, S>>, source: Id, k: nat): seq<V>
    requires k < |states|
  {
    seq(k, i requires 0 <= i < k => Stored(a, states[i + 1], source))
  }

  /** After `k` executions an operator has taken the `k` values of its source, in order, each once, and its factor
      holds what the last of them gave. */
  lemma {:induction false} ExecutionsFold<V(!new), S(!new)>(
    a: Arith<V, S>, reg: Registry<V>, g: Nodes, order: seq<Id>,
    states: seq<Store<V, S>>, inputs: seq<map<Id, V>>, id: Id, k: nat)
    requires WellRegistered(reg) && Agrees(reg, g) && StrictLevels(g)
    requires NoDup(order) && (forall n | n in order :: n in g) && id in order && id in reg
    requires reg[id].def.Rolling? || reg[id].def.EMA? || reg[id].def.RSI? || reg[id].def.MACD?
    requires Executions(a, reg, g, order, states, inputs) && k <= |inputs| && id in states[0].operators
    ensures id in states[k].operators
    ensures var vs := SourceValues(a, states, reg[id].def.source, k);
      && states[k].operators[id] == Advanced(a, states[0].operators[id], vs)
      && (k > 0 ==>
            && id in states[k].values
            && states[k].values[id] == a.update(Advanced(a, states[0].operators[id], vs[..k - 1]), vs[k - 1]).1)
  {
    if k == 0 {
    } else {
      var before := states[k - 1].(values := states[k - 1].values + inputs[k - 1]);
      ExecutionsFold(a, reg, g, order, states, inputs, id, k - 1);
      ExecuteAdvances(a, reg, g, order, before, id);
      var vs := SourceValues(a, states, reg[id].def.source, k);
      assert vs[..k - 1] == SourceValues(a, states, reg[id].def.source, k - 1);
    }
  }

  /** An input that is not itself a registered factor is what its readers see. */
  lemma InputIsSource<V(!new), S(!new)>(a: Arith<V, S>, reg: Registry<V>, g: Nodes, order: seq<Id>,
                                        states: seq<Store<V, S>>, inputs: seq<map<Id, V>>, p: Id, i: nat)
    requires WellRegistered(reg) && Agrees(reg, g) && StrictLevels(g) && NoDup(order) && forall n | n in order :: n in g
    requires Executions(a, reg, g, order, states, inputs) && i < |inputs| && p !in reg && p in inputs[i]
    ensures Stored(a, states[i + 1], p) == inputs[i][p]
  {
    ExecuteSolves(a, reg, g, order, states[i].(values := states[i].values + inputs[i]));
  }

  /** Feeding a source `k` values, with an execution after each, takes its readers' operators through exactly these
      values. */
  lemma OperatorTakesInputs<V(!new), S(!new)>(a: Arith<V, S>, reg: Registry<V>, g: Nodes, order: seq<Id>,
                                              states: seq<Store<V, S>>, p: Id, vs: seq<V>, id: Id)
    requires WellRegistered(reg) && Agrees(reg, g) && StrictLevels(g)
    requires NoDup(order) && (forall n | n in order :: n in g) && id in order && id in reg
    requires reg[id].def.Rolling? || reg[id].def.EMA? || reg[id].def.RSI? || reg[id].def.MACD?
    requires Executions(a, reg, g, order, states, seq(|vs|, i requires 0 <= i < |vs| => map[p := vs[i]]))
    requires reg[id].def.source == p && p !in reg && id in states[0].operators
    ensures id in states[|vs|].operators && states[|vs|].operators[id] == Advanced(a, states[0].operators[id], vs)
  {
    var inputs := seq(|vs|, i requires 0 <= i < |vs| => map[p := vs[i]]);
    ExecutionsFold(a, reg, g, order, states, inputs, id, |vs|);
    forall i | 0 <= i < |vs|
      ensures Stored(a, states[i + 1], p) == vs[i]
    {
      InputIsSource(a, reg, g, order, states, inputs, p, i);
    }
    assert SourceValues(a, states, p, |vs|) == vs;
  }
}
