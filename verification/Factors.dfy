/** Factor definitions and their evaluation against a store of values and operator states. The number
    type `V`, its arithmetic and the streaming operators `S` are parameters: nothing below depends on
    what they compute, only on where they read and write. */
module Factors {
  import opened Seqs
  import opened DependencyGraph

  datatype RollingFunc = Mean | Std | Sum | Min | Max | Var

  datatype BinaryOpType = Add | Sub | Mul | Div

  datatype FactorDef<V> =
    | SourceDef(name: Id)
    | Rolling(source: Id, window: nat, func: RollingFunc)
    | EMA(source: Id, span: nat)
    | RSI(source: Id, period: nat)
    | MACD(source: Id, fast: nat, slow: nat, signal: nat)
    | Bollinger(source: Id, window: nat, numStd: V)
    | BinaryOp(left: FactorDef<V>, right: FactorDef<V>, op: BinaryOpType)
    | Ref(factorId: Id)
    | PolarsExpr(expr: string)

  datatype RegisteredFactor<V> = RegisteredFactor(id: Id, def: FactorDef<V>)

  type Registry<V> = map<Id, RegisteredFactor<V>>

  /** `register` files every factor under its own id. */
  ghost predicate WellRegistered<V>(reg: Registry<V>) {
    forall id | id in reg :: reg[id].id == id
  }

  /** The arithmetic of values and the `update` of a streaming operator. */
  datatype Arith<!V, !S> = Arith(
    zero: V,
    isZero: V -> bool,
    add: (V, V) -> V,
    sub: (V, V) -> V,
    mul: (V, V) -> V,
    div: (V, V) -> V,
    band: (V, V) -> V,
    update: (S, V) -> (S, V))

  datatype Store<V, S> = Store(values: map<Id, V>, operators: map<Id, S>)

  function Get<V, S>(a: Arith<V, S>, values: map<Id, V>, id: Id): V {
    if id in values then values[id] else a.zero
  }

  function Combine<V, S>(a: Arith<V, S>, op: BinaryOpType, l: V, r: V): V {
    match op
    case Add => a.add(l, r)
    case Sub => a.sub(l, r)
    case Mul => a.mul(l, r)
    case Div => if !a.isZero(r) then a.div(l, r) else a.zero
  }

  /** Nested definitions: only sources, references and binary operations are evaluated. */
  function ComputeDef<V, S>(a: Arith<V, S>, values: map<Id, V>, def: FactorDef<V>): V {
    match def
    case SourceDef(name) => Get(a, values, name)
    case Ref(id) => Get(a, values, id)
    case BinaryOp(l, r, op) => Combine(a, op, ComputeDef(a, values, l), ComputeDef(a, values, r))
    case _ => a.zero
  }

  predicate Stateful<V>(def: FactorDef<V>) {
    def.Rolling? || def.EMA? || def.RSI? || def.MACD?
  }

  /** The value of one factor. A stateful factor passes its source value through its operator, if it has one. */
  function ComputeValue<V, S>(a: Arith<V, S>, values: map<Id, V>, operators: map<Id, S>, f: RegisteredFactor<V>): V {
    match f.def
    case SourceDef(name) => Get(a, values, name)
    case BinaryOp(l, r, op) => Combine(a, op, ComputeDef(a, values, l), ComputeDef(a, values, r))
    case Ref(id) => Get(a, values, id)
    case Bollinger(source, _, numStd) => a.band(numStd, Get(a, values, source))
    case PolarsExpr(_) => a.zero
    case _ =>
      var v := Get(a, values, f.def.source);
      if f.id in operators then a.update(operators[f.id], v).1 else v
  }

  /** The operator state after evaluating `f`. */
  function ComputeState<V, S>(a: Arith<V, S>, values: map<Id, V>, state: S, f: RegisteredFactor<V>): S {
    if Stateful(f.def) then a.update(state, Get(a, values, f.def.source)).0 else state
  }

  // ----- what a factor reads -----

  function DefReads<V>(def: FactorDef<V>): set<Id> {
    match def
    case SourceDef(name) => {name}
    case Ref(id) => {id}
    case BinaryOp(l, r, _) => DefReads(l) + DefReads(r)
    case _ => {}
  }

  function Reads<V>(def: FactorDef<V>): set<Id> {
    match def
    case PolarsExpr(_) => {}
    case SourceDef(_) => DefReads(def)
    case Ref(_) => DefReads(def)
    case BinaryOp(_, _, _) => DefReads(def)
    case _ => {def.source}
  }

  ghost predicate AgreeOn<V(!new)>(ids: set<Id>, u: map<Id, V>, w: map<Id, V>) {
    forall id | id in ids :: (id in u <==> id in w) && (id in u ==> u[id] == w[id])
  }

  lemma {:induction false} DefLocal<V(!new), S>(a: Arith<V, S>, u: map<Id, V>, w: map<Id, V>, def: FactorDef<V>)
    requires AgreeOn(DefReads(def), u, w)
    ensures ComputeDef(a, u, def) == ComputeDef(a, w, def)
  {
    if !def.BinaryOp? {
    } else {
      DefLocal(a, u, w, def.left);
      DefLocal(a, u, w, def.right);
    }
  }

  /** A factor's value and next state depend only on the values it reads and on its own operator. */
  lemma FactorLocal<V(!new), S>(a: Arith<V, S>, u: map<Id, V>, w: map<Id, V>,
                                p: map<Id, S>, q: map<Id, S>, f: RegisteredFactor<V>)
    requires AgreeOn(Reads(f.def), u, w)
    requires (f.id in p <==> f.id in q) && (f.id in p ==> p[f.id] == q[f.id])
    ensures ComputeValue(a, u, p, f) == ComputeValue(a, w, q, f)
    ensures f.id in p ==> ComputeState(a, u, p[f.id], f) == ComputeState(a, w, q[f.id], f)
  {
    if f.def.BinaryOp? {
      DefLocal(a, u, w, f.def.left);
      DefLocal(a, u, w, f.def.right);
    }
  }

  // ----- evaluation strategies -----

  /** Evaluate one id in place; ids that are not registered are skipped. */
  function EvalOne<V, S>(a: Arith<V, S>, reg: Registry<V>, st: Store<V, S>, id: Id): Store<V, S> {
    if id !in reg then st else
      Store(st.values[id := ComputeValue(a, st.values, st.operators, reg[id])],
            if id in st.operators
            then st.operators[id := ComputeState(a, st.values, st.operators[id], reg[id])]
            else st.operators)
  }

  /** One at a time, each seeing the results of the earlier ones. */
  function RunSequence<V, S>(a: Arith<V, S>, reg: Registry<V>, order: seq<Id>, st: Store<V, S>): Store<V, S> {
    if order == [] then st else
      EvalOne(a, reg, RunSequence(a, reg, order[..|order| - 1], st), order[|order| - 1])
  }

  /** A whole level at once, every factor seeing the values from before the level. */
  function RunLevel<V, S>(a: Arith<V, S>, reg: Registry<V>, level: seq<Id>, st: Store<V, S>): Store<V, S> {
    Store(map id | id in st.values.Keys + (ToSet(level) * reg.Keys) ::
            if id in level && id in reg then ComputeValue(a, st.values, st.operators, reg[id]) else st.values[id],
          map id | id in st.operators ::
            if id in level && id in reg then ComputeState(a, st.values, st.operators[id], reg[id])
            else st.operators[id])
  }

  function RunLevels<V, S>(a: Arith<V, S>, reg: Registry<V>, levels: seq<seq<Id>>, st: Store<V, S>): Store<V, S> {
    if levels == [] then st else
      RunLevel(a, reg, levels[|levels| - 1], RunLevels(a, reg, levels[..|levels| - 1], st))
  }

  // ----- the equations both strategies solve -----

  /** `st'` satisfies the defining equation of every factor in `todo`: each is evaluated on the final
      values and its initial operator state, each operator is advanced once, and nothing else changes. */
  ghost predicate Solves<V(!new), S(!new)>(a: Arith<V, S>, reg: Registry<V>, todo: set<Id>,
                                           st: Store<V, S>, st': Store<V, S>) {
    && st'.values.Keys == st.values.Keys + todo * reg.Keys
    && (forall id | id in st.values && !(id in todo && id in reg) :: st'.values[id] == st.values[id])
    && (forall id | id in todo && id in reg ::
          st'.values[id] == ComputeValue(a, st'.values, st.operators, reg[id]))
    && st'.operators.Keys == st.operators.Keys
    && (forall id | id in st.operators ::
          st'.operators[id] == if id in todo && id in reg
                               then ComputeState(a, st'.values, st.operators[id], reg[id])
                               else st.operators[id])
  }

  /** Within `order`, every factor reads only earlier entries or ids that `order` does not contain. */
  ghost predicate ReadsEarlier<V>(reg: Registry<V>, order: seq<Id>) {
    forall i, r | 0 <= i < |order| && order[i] in reg && r in Reads(reg[order[i]].def) && r in order :: r in order[..i]
  }

  lemma {:induction false} SequenceSolves<V(!new), S(!new)>(a: Arith<V, S>, reg: Registry<V>, order: seq<Id>, st: Store<V, S>)
    requires WellRegistered(reg) && NoDup(order) && ReadsEarlier(reg, order)
    ensures Solves(a, reg, ToSet(order), st, RunSequence(a, reg, order, st))
  {
    if order == [] {
    } else {
      var init, last := order[..|order| - 1], order[|order| - 1];
      assert order == init + [last];
      PrefixReadsEarlier(reg, init, last);
      NoDupConcat(init, [last]);
      SequenceSolves(a, reg, init, st);
      OneMore(a, reg, ToSet(init), last, st, RunSequence(a, reg, init, st));
      assert ToSet(order) == ToSet(init) + {last};
    }
  }

  lemma PrefixReadsEarlier<V>(reg: Registry<V>, init: seq<Id>, last: Id)
    requires ReadsEarlier(reg, init + [last]) && NoDup(init + [last])
    ensures ReadsEarlier(reg, init)
    ensures last in reg ==> last !in Reads(reg[last].def)
    ensures forall id | id in init && id in reg :: last !in Reads(reg[id].def)
    ensures last !in init
  {
    var order := init + [last];
    assert order[|init|] == last && last in order;
    NoDupConcat(init, [last]);
    assert last in [last];
    forall i, r | 0 <= i < |init| && init[i] in reg && r in Reads(reg[init[i]].def) && r in order
      ensures r in init[..i]
    {
      assert order[i] == init[i] && order[..i] == init[..i];
    }
    assert forall r | r in init :: r in order;
    assert order[..|init|] == init;
    forall id | id in init && id in reg
      ensures last !in Reads(reg[id].def)
    {
      var i :| 0 <= i < |init| && init[i] == id;
      assert order[i] == id && order[..i] == init[..i];
      assert forall x | x in init[..i] :: x in init;
    }
  }

  lemma OneMore<V(!new), S(!new)>(a: Arith<V, S>, reg: Registry<V>, done: set<Id>, id: Id, st: Store<V, S>, mid: Store<V, S>)
    requires WellRegistered(reg) && id !in done && Solves(a, reg, done, st, mid)
    requires id in reg ==> id !in Reads(reg[id].def)
    requires forall d | d in done && d in reg :: id !in Reads(reg[d].def)
    ensures Solves(a, reg, done + {id}, st, EvalOne(a, reg, mid, id))
  {
    if id in reg {
      var st' := EvalOne(a, reg, mid, id);
      FactorLocal(a, mid.values, st'.values, mid.operators, st.operators, reg[id]);
      forall d | d in done && d in reg
        ensures ComputeValue(a, st'.values, st.operators, reg[d]) == ComputeValue(a, mid.values, st.operators, reg[d])
        ensures d in st.operators ==>
                  ComputeState(a, st'.values, st.operators[d], reg[d]) == ComputeState(a, mid.values, st.operators[d], reg[d])
      {
        FactorLocal(a, st'.values, mid.values, st.operators, st.operators, reg[d]);
      }
    }
  }

  /** A level changes nothing its own members, or the members of earlier levels, read. */
  ghost predicate LevelsSeparate<V>(reg: Registry<V>, levels: seq<seq<Id>>) {
    forall i, j, id, r | 0 <= i <= j < |levels| && id in levels[i] && id in reg && r in Reads(reg[id].def) ::
      r !in levels[j]
  }

  ghost predicate LevelsDisjoint(levels: seq<seq<Id>>) {
    forall i, j, id | 0 <= i < j < |levels| && id in levels[i] :: id !in levels[j]
  }

  ghost function AllOf(levels: seq<seq<Id>>): set<Id> {
    set i, id | 0 <= i < |levels| && id in levels[i] :: id
  }

  lemma {:induction false} LevelsSolve<V(!new), S(!new)>(a: Arith<V, S>, reg: Registry<V>, levels: seq<seq<Id>>, st: Store<V, S>)
    requires WellRegistered(reg) && LevelsSeparate(reg, levels) && LevelsDisjoint(levels)
    ensures Solves(a, reg, AllOf(levels), st, RunLevels(a, reg, levels, st))
  {
    if levels == [] {
    } else {
      var init, last := levels[..|levels| - 1], levels[|levels| - 1];
      LevelsSolve(a, reg, init, st);
      forall id | id in AllOf(init)
        ensures id !in last
        ensures id in reg ==> Reads(reg[id].def) !! ToSet(last)
      {
        var i :| 0 <= i < |init| && id in init[i];
        assert id in levels[i];
      }
      forall id | id in last && id in reg
        ensures Reads(reg[id].def) !! ToSet(last)
      {
        assert id in levels[|levels| - 1];
      }
      OneMoreLevel(a, reg, AllOf(init), last, st, RunLevels(a, reg, init, st));
      AllOfSnoc(init, last);
      assert levels == init + [last];
    }
  }

  lemma AllOfSnoc(init: seq<seq<Id>>, last: seq<Id>)
    ensures AllOf(init + [last]) == AllOf(init) + ToSet(last)
  {
    var levels := init + [last];
    forall id
      ensures id in AllOf(levels) <==> id in AllOf(init) || id in last
    {
      if id in last {
        assert id in levels[|init|];
      }
      if id in AllOf(init) {
        var i :| 0 <= i < |init| && id in init[i];
        assert id in levels[i];
      }
    }
  }

  lemma OneMoreLevel<V(!new), S(!new)>(a: Arith<V, S>, reg: Registry<V>, done: set<Id>, level: seq<Id>,
                                       st: Store<V, S>, mid: Store<V, S>)
    requires WellRegistered(reg) && Solves(a, reg, done, st, mid)
    requires forall id | id in done :: id !in level
    requires forall id | (id in done || id in level) && id in reg :: Reads(reg[id].def) !! ToSet(level)
    ensures Solves(a, reg, done + ToSet(level), st, RunLevel(a, reg, level, mid))
  {
    var st' := RunLevel(a, reg, level, mid);
    forall id | (id in done || id in level) && id in reg
      ensures ComputeValue(a, st'.values, st.operators, reg[id]) ==
              ComputeValue(a, mid.values, if id in level then mid.operators else st.operators, reg[id])
      ensures id in st.operators ==>
                ComputeState(a, st'.values, st.operators[id], reg[id]) == ComputeState(a, mid.values, st.operators[id], reg[id])
    {
      assert AgreeOn(Reads(reg[id].def), st'.values, mid.values);
      FactorLocal(a, st'.values, mid.values, st.operators, if id in level then mid.operators else st.operators, reg[id]);
    }
  }

  /** The equations have at most one solution when some order evaluates reads before readers. */
  lemma SolutionUnique<V(!new), S(!new)>(a: Arith<V, S>, reg: Registry<V>, order: seq<Id>,
                                         st: Store<V, S>, s1: Store<V, S>, s2: Store<V, S>)
    requires WellRegistered(reg) && ReadsEarlier(reg, order)
    requires Solves(a, reg, ToSet(order), st, s1) && Solves(a, reg, ToSet(order), st, s2)
    ensures s1 == s2
  {
    forall id | id in s1.values
      ensures s1.values[id] == s2.values[id]
    {
      if id in order {
        var i :| 0 <= i < |order| && order[i] == id;
        SolutionsAgree(a, reg, order, st, s1, s2, i);
      }
    }
    assert s1.values == s2.values;
    assert s1.operators == s2.operators;
  }

  lemma {:induction false} SolutionsAgree<V(!new), S(!new)>(a: Arith<V, S>, reg: Registry<V>, order: seq<Id>,
                                                            st: Store<V, S>, s1: Store<V, S>, s2: Store<V, S>, i: nat)
    requires WellRegistered(reg) && ReadsEarlier(reg, order) && i < |order|
    requires Solves(a, reg, ToSet(order), st, s1) && Solves(a, reg, ToSet(order), st, s2)
    ensures order[i] in s1.values ==> s1.values[order[i]] == s2.values[order[i]]
    decreases i
  {
    var id := order[i];
    if id !in reg {
    } else {
      forall r | r in Reads(reg[id].def)
        ensures (r in s1.values <==> r in s2.values) && (r in s1.values ==> s1.values[r] == s2.values[r])
      {
        if r in order {
          assert r in order[..i];
          var j :| 0 <= j < i && order[j] == r;
          SolutionsAgree(a, reg, order, st, s1, s2, j);
        }
      }
      FactorLocal(a, s1.values, s2.values, st.operators, st.operators, reg[id]);
    }
  }
}
