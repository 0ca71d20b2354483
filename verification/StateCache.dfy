/** The in-memory state cache: dirty marks, and recovery through the checkpoint store. */
module StateCaching {
  import opened Common
  import opened Seqs
  import opened Checkpoints

  datatype Cache = Cache(instruments: map<InstrumentId, InstrumentState>, dirty: map<InstrumentId, bool>)

  const EMPTY: Cache := Cache(map[], map[])

  /** Every state is stored under its own instrument. */
  ghost predicate Keyed(m: map<InstrumentId, InstrumentState>) {
    forall id | id in m :: m[id].id == id
  }

  function IsDirty(c: Cache, id: InstrumentId): bool {
    id in c.instruments && id in c.dirty && c.dirty[id]
  }

  // ----- what each operation does -----

  datatype Op =
    | UpdateOp(state: InstrumentState)
    | MarkSavedOp(id: InstrumentId)
    | RestoreOp(states: seq<InstrumentState>)
    | ClearOp

  /** The cache contents that a list of states restores: later entries win. */
  function Restored(states: seq<InstrumentState>): map<InstrumentId, InstrumentState> {
    if states == [] then map[]
    else
      var s := states[|states| - 1];
      Restored(states[..|states| - 1])[s.id := s]
  }

  function Clean(states: seq<InstrumentState>): map<InstrumentId, bool> {
    map id | id in Restored(states) :: false
  }

  function Perform(c: Cache, op: Op): Cache {
    match op
    case UpdateOp(s) => Cache(c.instruments[s.id := s], c.dirty[s.id := true])
    case MarkSavedOp(id) => c.(dirty := c.dirty[id := false])
    case RestoreOp(states) => Cache(Restored(states), Clean(states))
    case ClearOp => EMPTY
  }

  function After(ops: seq<Op>): Cache {
    if ops == [] then EMPTY else Perform(After(ops[..|ops| - 1]), ops[|ops| - 1])
  }

  /** A snapshot of exactly these instruments, each listed once. */
  ghost predicate SnapshotOf(s: Snapshot, m: map<InstrumentId, InstrumentState>) {
    s.version == CURRENT_VERSION && NoDup(s.instruments) &&
    forall x :: x in s.instruments <==> x.id in m && m[x.id] == x
  }

  class StateCache {
    var instruments: map<InstrumentId, InstrumentState>
    var dirty: map<InstrumentId, bool>

    ghost function Current(): Cache
      reads this
    {
      Cache(instruments, dirty)
    }

    constructor ()
      ensures Current() == EMPTY
    {
      instruments, dirty := map[], map[];
    }

    method Update(s: InstrumentState)
      modifies this
      ensures Current() == Perform(old(Current()), UpdateOp(s))
    {
      instruments := instruments[s.id := s];
      dirty := dirty[s.id := true];
    }

    method MarkSaved(id: InstrumentId)
      modifies this`dirty
      ensures Current() == Perform(old(Current()), MarkSavedOp(id))
    {
      dirty := dirty[id := false];
    }

    method Clear()
      modifies this
      ensures Current() == EMPTY
    {
      instruments, dirty := map[], map[];
    }

    method GetDirty() returns (r: seq<InstrumentState>)
      requires Keyed(instruments)
      ensures NoDup(r) && forall x :: x in r <==> IsDirty(Current(), x.id) && instruments[x.id] == x
    {
      r := [];
      var rest := instruments.Keys;
      while rest != {}
        invariant rest <= instruments.Keys && NoDup(r)
        invariant forall x :: x in r <==> x.id !in rest && IsDirty(Current(), x.id) && instruments[x.id] == x
      {
        var id :| id in rest;
        rest := rest - {id};
        if id in dirty && dirty[id] {
          r := r + [instruments[id]];
        }
      }
    }

    method CreateSnapshot(checkpointId: nat, now: nat) returns (s: Snapshot)
      requires Keyed(instruments)
      ensures SnapshotOf(s, instruments) && s.checkpointId == checkpointId && s.createdAt == now
    {
      var listed: seq<InstrumentState> := [];
      var rest := instruments.Keys;
      while rest != {}
        invariant rest <= instruments.Keys && NoDup(listed)
        invariant forall x :: x in listed <==> x.id !in rest && x.id in instruments && instruments[x.id] == x
      {
        var id :| id in rest;
        rest := rest - {id};
        listed := listed + [instruments[id]];
      }
      s := Snapshot(CURRENT_VERSION, checkpointId, now, listed);
    }

    method RestoreFromSnapshot(s: Snapshot)
      modifies this
      ensures Current() == Perform(old(Current()), RestoreOp(s.instruments))
    {
      instruments, dirty := map[], map[];
      for i := 0 to |s.instruments|
        invariant instruments == Restored(s.instruments[..i]) && dirty == Clean(s.instruments[..i])
      {
        var x := s.instruments[i];
        assert s.instruments[..i + 1][..i] == s.instruments[..i];
        instruments := instruments[x.id := x];
        dirty := dirty[x.id := false];
      }
      assert s.instruments[..|s.instruments|] == s.instruments;
    }
  }

  // ----- runs -----

  lemma {:induction false} RestoredEntries(states: seq<InstrumentState>)
    ensures forall id | id in Restored(states) :: Restored(states)[id] in states && Restored(states)[id].id == id
    ensures forall x | x in states :: x.id in Restored(states)
  {
    if states == [] {
    } else {
      RestoredEntries(states[..|states| - 1]);
      assert states == states[..|states| - 1] + [states[|states| - 1]];
    }
  }

  /** In every run each state is stored under its own instrument. */
  lemma {:induction false} RunKeyed(ops: seq<Op>)
    ensures Keyed(After(ops).instruments)
  {
    if ops == [] {
    } else {
      RunKeyed(ops[..|ops| - 1]);
      var op := ops[|ops| - 1];
      if op.RestoreOp? {
        RestoredEntries(op.states);
      }
    }
  }

  /** Whether an operation decides the state held for this instrument. */
  function Sets(op: Op, id: InstrumentId): bool {
    match op
    case UpdateOp(s) => s.id == id
    case MarkSavedOp(_) => false
    case RestoreOp(_) => true
    case ClearOp => true
  }

  /** `c` holds the last state listed for the instrument, or none if none is listed. */
  ghost predicate HoldsLast(c: Cache, states: seq<InstrumentState>, id: InstrumentId) {
    if id in c.instruments then
      exists k :: 0 <= k < |states| && states[k] == c.instruments[id] && states[k].id == id &&
                  forall j | k < j < |states| :: states[j].id != id
    else forall k | 0 <= k < |states| :: states[k].id != id
  }

  /** One more state in the list takes the place of what was held for its instrument, and of nothing else. */
  lemma HoldsLastSnoc(c: Cache, init: seq<InstrumentState>, s: InstrumentState, id: InstrumentId)
    requires HoldsLast(c, init, id)
    ensures HoldsLast(c.(instruments := c.instruments[s.id := s]), init + [s], id)
  {
    var states := init + [s];
    if s.id == id {
      assert states[|init|] == s;
    } else if id in c.instruments {
      var k :| 0 <= k < |init| && init[k] == c.instruments[id] && init[k].id == id &&
               forall j | k < j < |init| :: init[j].id != id;
      assert states[k] == c.instruments[id];
    }
  }

  lemma {:induction false} RestoredHoldsLast(states: seq<InstrumentState>, dirty: map<InstrumentId, bool>, id: InstrumentId)
    ensures HoldsLast(Cache(Restored(states), dirty), states, id)
  {
    if states != [] {
      var n := |states| - 1;
      RestoredHoldsLast(states[..n], dirty, id);
      HoldsLastSnoc(Cache(Restored(states[..n]), dirty), states[..n], states[n], id);
      assert states == states[..n] + [states[n]];
    }
  }

  /** The cache holds for an instrument what the last operation that concerns its state left: the state updated,
      the last one restored, or nothing after a clear. */
  lemma {:induction false} LastStateWins(ops: seq<Op>, id: InstrumentId, i: nat)
    requires i < |ops| && Sets(ops[i], id) && forall j | i < j < |ops| :: !Sets(ops[j], id)
    ensures ops[i].UpdateOp? ==> id in After(ops).instruments && After(ops).instruments[id] == ops[i].state
    ensures ops[i].RestoreOp? ==> HoldsLast(After(ops), ops[i].states, id)
    ensures ops[i].ClearOp? ==> id !in After(ops).instruments
    decreases |ops|
  {
    var n := |ops| - 1;
    if i == n {
      if ops[n].RestoreOp? {
        RestoredHoldsLast(ops[n].states, Clean(ops[n].states), id);
      }
    } else {
      LastStateWins(ops[..n], id, i);
      SameState(After(ops[..n]), ops[n], id);
    }
  }

  lemma SameState(c: Cache, op: Op, id: InstrumentId)
    requires !Sets(op, id)
    ensures id in c.instruments <==> id in Perform(c, op).instruments
    ensures id in c.instruments ==> Perform(c, op).instruments[id] == c.instruments[id]
  {
  }

  /** Whether an operation decides the dirty mark of this instrument. */
  function Marks(op: Op, id: InstrumentId): bool {
    match op
    case UpdateOp(s) => s.id == id
    case MarkSavedOp(i) => i == id
    case RestoreOp(_) => true
    case ClearOp => true
  }

  /** An instrument is dirty exactly when the last operation that concerns it was an update. */
  lemma {:induction false} DirtyIffUpdatedLast(ops: seq<Op>, id: InstrumentId)
    ensures IsDirty(After(ops), id) <==>
            exists i :: 0 <= i < |ops| && ops[i].UpdateOp? && ops[i].state.id == id &&
                        forall j | i < j < |ops| :: !Marks(ops[j], id)
  {
    if ops == [] {
    } else {
      var n := |ops| - 1;
      DirtyIffUpdatedLast(ops[..n], id);
      if !Marks(ops[n], id) {
        assert IsDirty(After(ops), id) == IsDirty(After(ops[..n]), id);
        if IsDirty(After(ops), id) {
          var i :| 0 <= i < n && ops[..n][i].UpdateOp? && ops[..n][i].state.id == id &&
                   forall j | i < j < n :: !Marks(ops[..n][j], id);
          assert ops[i].UpdateOp? && forall j | i < j < |ops| :: !Marks(ops[j], id);
        }
        if i :| 0 <= i < |ops| && ops[i].UpdateOp? && ops[i].state.id == id &&
                forall j | i < j < |ops| :: !Marks(ops[j], id) {
          assert ops[..n][i].UpdateOp? && forall j | i < j < n :: !Marks(ops[..n][j], id);
        }
      } else if ops[n].UpdateOp? {
        assert IsDirty(After(ops), id);
      } else {
        assert !IsDirty(After(ops), id);
      }
    }
  }

  // ----- recovery -----

  /** Restoring a snapshot gives back the instruments it was taken of, whatever their order in it. */
  lemma {:induction false} RestoreRoundTrip(s: Snapshot, m: map<InstrumentId, InstrumentState>)
    requires SnapshotOf(s, m) && Keyed(m)
    ensures Restored(s.instruments) == m
  {
    RestoredEntries(s.instruments);
    forall id
      ensures id in m <==> id in Restored(s.instruments)
      ensures id in m ==> Restored(s.instruments)[id] == m[id]
    {
      if id in m {
        assert m[id] in s.instruments;
      }
    }
  }

  /** A restart recovers the cache: whatever was saved before, if the last checkpoint saved is a snapshot of
      the cache and checkpoints are retained at all, then loading the latest checkpoint and restoring it gives
      a cache with the same instruments and no dirty mark. */
  lemma RestartRecovers(d: Directory, limit: nat, states: seq<Store>, snapshots: seq<Snapshot>, r: Loaded, ops: seq<Op>, c: Cache)
    requires Run(d, limit, states, snapshots) && snapshots != [] && limit >= 1
    requires SnapshotOf(snapshots[|snapshots| - 1], After(ops).instruments)
    requires LoadsLatest(states[|snapshots|].files, r)
    ensures r.Ok? && r.snapshot.Some?
    ensures var recovered := Perform(c, RestoreOp(r.snapshot.value.instruments));
            recovered.instruments == After(ops).instruments && forall id :: !IsDirty(recovered, id)
  {
    LatestIsLastSaved(d, limit, states, snapshots, r);
    RunKeyed(ops);
    RestoreRoundTrip(snapshots[|snapshots| - 1], After(ops).instruments);
  }
}
