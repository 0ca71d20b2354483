/** The checkpoint store: file names, retention and recovery of the latest snapshot. */
module Checkpoints {
  import opened Common
  import opened Seqs

  datatype InstrumentId = InstrumentId(text: string)

  /** One instrument's factor state; what it holds is left open. */
  datatype InstrumentState = InstrumentState(id: InstrumentId, content: string, updateCount: nat)

  datatype Snapshot = Snapshot(version: nat, checkpointId: nat, createdAt: nat, instruments: seq<InstrumentState>)

  const CURRENT_VERSION: nat := 1
  const U64: nat := 0x1_0000_0000_0000_0000
  const PREFIX: string := "checkpoint_"
  const SUFFIX: string := ".rkyv"
  const WIDTH: nat := 16

  /** 64-bit increment. */
  function NextId(id: nat): nat {
    if id + 1 < U64 then id + 1 else 0
  }

  // ----- file names -----

  ghost predicate IsDigit(c: char) {
    '0' <= c <= '9'
  }

  function Padded(s: string): string {
    if |s| < WIDTH then seq(WIDTH - |s|, _ => '0') + s else s
  }

  function FileName(id: nat): string {
    PREFIX + Padded(Decimal(id)) + SUFFIX
  }

  predicate StartsWith(s: string, t: string) {
    |t| <= |s| && s[..|t|] == t
  }

  predicate EndsWith(s: string, t: string) {
    |t| <= |s| && s[|s| - |t|..] == t
  }

  /** Strips every leading copy of the pattern. */
  function TrimStart(s: string, t: string): string
    requires t != ""
  {
    if StartsWith(s, t) then TrimStart(s[|t|..], t) else s
  }

  /** Strips every trailing copy of the pattern. */
  function TrimEnd(s: string, t: string): string
    requires t != ""
  {
    if EndsWith(s, t) then TrimEnd(s[..|s| - |t|], t) else s
  }

  function ParseDigits(s: string): Option<nat> {
    if s == "" then Some(0)
    else
      var c := s[|s| - 1];
      match ParseDigits(s[..|s| - 1])
      case Some(n) => if '0' <= c <= '9' then Some(10 * n + (c as int - '0' as int)) else None
      case None => None
  }

  /** Unsigned decimal parsing: one leading plus sign is accepted, an empty number or an overflow is not. */
  function ParseU64(s: string): Option<nat> {
    var digits := if StartsWith(s, "+") then s[1..] else s;
    if digits == "" then None
    else
      match ParseDigits(digits)
      case Some(n) => if n < U64 then Some(n) else None
      case None => None
  }

  /** The checkpoint id in a file name, if it is a checkpoint's. */
  function ParseName(name: string): Option<nat> {
    if StartsWith(name, PREFIX) && EndsWith(name, SUFFIX)
    then ParseU64(TrimEnd(TrimStart(name, PREFIX), SUFFIX)) else None
  }

  ghost predicate AllDigits(s: string) {
    forall i | 0 <= i < |s| :: IsDigit(s[i])
  }

  lemma {:induction false} DecimalParses(n: nat)
    ensures Decimal(n) != "" && AllDigits(Decimal(n)) && ParseDigits(Decimal(n)) == Some(n)
  {
    if n < 10 {
      assert ParseDigits([Digit(n)][..0]) == Some(0);
    } else {
      DecimalParses(n / 10);
      var s := Decimal(n);
      assert s[..|s| - 1] == Decimal(n / 10);
    }
  }

  /** Leading zeros do not change the number. */
  lemma {:induction false} ZerosParse(k: nat, s: string)
    ensures ParseDigits(seq(k, _ => '0') + s) == ParseDigits(s)
  {
    if s != "" {
      ZerosParse(k, s[..|s| - 1]);
      assert (seq(k, _ => '0') + s)[..k + |s| - 1] == seq(k, _ => '0') + s[..|s| - 1];
    } else if k > 0 {
      ZerosParse(k - 1, "");
      assert (seq(k, _ => '0') + s)[..k - 1] == seq(k - 1, _ => '0') + "";
    }
  }

  lemma PaddedParses(n: nat)
    ensures Padded(Decimal(n)) != "" && AllDigits(Padded(Decimal(n))) && ParseDigits(Padded(Decimal(n))) == Some(n)
  {
    DecimalParses(n);
    ZerosParse(if |Decimal(n)| < WIDTH then WIDTH - |Decimal(n)| else 0, Decimal(n));
  }

  lemma TrimStartOnce(s: string)
    requires AllDigits(s) && s != ""
    ensures TrimStart(PREFIX + s + SUFFIX, PREFIX) == s + SUFFIX
  {
    var name := PREFIX + s + SUFFIX;
    assert name[|PREFIX|..] == s + SUFFIX;
    assert (s + SUFFIX)[0] == s[0] && IsDigit(s[0]);
    assert !StartsWith(s + SUFFIX, PREFIX) by {
      assert PREFIX[0] == 'c';
    }
    assert StartsWith(name, PREFIX);
  }

  lemma TrimEndOnce(s: string)
    requires AllDigits(s) && s != ""
    ensures TrimEnd(s + SUFFIX, SUFFIX) == s
  {
    assert (s + SUFFIX)[..|s|] == s;
    assert IsDigit(s[|s| - 1]);
    assert !EndsWith(s, SUFFIX) by {
      if |SUFFIX| <= |s| {
        assert s[|s| - |SUFFIX|..][4] == s[|s| - 1];
        assert SUFFIX[4] == 'v';
      }
    }
  }

  /** Every id survives the way through its file name. */
  lemma NameRoundTrip(id: nat)
    requires id < 0x1_0000_0000_0000_0000
    ensures ParseName(FileName(id)) == Some(id)
  {
    var s := Padded(Decimal(id));
    PaddedParses(id);
    TrimStartOnce(s);
    TrimEndOnce(s);
    assert StartsWith(FileName(id), PREFIX) && EndsWith(FileName(id), SUFFIX);
    assert IsDigit(s[0]);
  }

  function Pow10(k: nat): nat {
    if k == 0 then 1 else 10 * Pow10(k - 1)
  }

  lemma {:induction false} DecimalLength(n: nat, k: nat)
    requires k >= 1 && n < Pow10(k)
    ensures |Decimal(n)| <= k
  {
    if n < 10 {
    } else {
      assert k >= 2 && n / 10 < Pow10(k - 1);
      DecimalLength(n / 10, k - 1);
    }
  }

  /** Ids of up to 16 digits are written with exactly 16, so that names of the same length sort by id. */
  lemma NameShape(id: nat)
    requires id < 10_000_000_000_000_000
    ensures var name := FileName(id);
      && |name| == 32 && name[..11] == "checkpoint_" && name[27..] == ".rkyv"
      && AllDigits(name[11..27]) && ParseDigits(name[11..27]) == Some(id)
  {
    assert Pow10(4) == 10_000 by {
      assert Pow10(2) == 100;
    }
    assert Pow10(8) == 100_000_000 by {
      assert Pow10(6) == 1_000_000;
    }
    assert Pow10(12) == 1_000_000_000_000 by {
      assert Pow10(10) == 10_000_000_000;
    }
    assert Pow10(16) == 10_000_000_000_000_000 by {
      assert Pow10(14) == 100_000_000_000_000;
    }
    DecimalLength(id, 16);
    PaddedParses(id);
    assert FileName(id)[11..27] == Padded(Decimal(id));
  }

  lemma {:induction false} TrimRepeated(t: string, s: string)
    requires t != "" && !StartsWith(s, t)
    ensures TrimStart(t + s, t) == s && TrimStart(t + (t + s), t) == s
  {
    assert (t + s)[|t|..] == s && (t + (t + s))[|t|..] == t + s;
    assert StartsWith(t + s, t) && StartsWith(t + (t + s), t);
  }

  lemma EndRepeated(s: string, t: string)
    requires t != "" && !EndsWith(s, t)
    ensures TrimEnd(s + t, t) == s && TrimEnd((s + t) + t, t) == s
  {
    assert (s + t)[..|s|] == s && (s + t)[|s|..] == t;
    assert ((s + t) + t)[..|s + t|] == s + t && ((s + t) + t)[|s + t|..] == t;
  }

  /** Neither the prefix starts in `s`, nor does the suffix end in it. */
  ghost predicate Bare(s: string) {
    s != "" && s[0] != 'c' && s[|s| - 1] != 'v'
  }

  lemma BareIsTrimmed(s: string, t: string)
    requires Bare(s)
    ensures !EndsWith(s, SUFFIX) && !StartsWith(s + t, PREFIX)
  {
    assert PREFIX[0] == 'c' && SUFFIX[4] == 'v' && (s + t)[0] == s[0];
    if |SUFFIX| <= |s| {
      assert s[|s| - |SUFFIX|..][4] == s[|s| - 1];
    }
  }

  lemma Enclosed(name: string, s: string)
    requires StartsWith(name, PREFIX) && EndsWith(name, SUFFIX)
    requires TrimEnd(TrimStart(name, PREFIX), SUFFIX) == s
    ensures ParseName(name) == ParseU64(s)
  {
  }

  lemma ParsesOnce(s: string)
    requires Bare(s)
    ensures ParseName(PREFIX + s + SUFFIX) == ParseU64(s)
  {
    var name := PREFIX + s + SUFFIX;
    BareIsTrimmed(s, SUFFIX);
    TrimRepeated(PREFIX, s + SUFFIX);
    EndRepeated(s, SUFFIX);
    Associate(PREFIX, s, SUFFIX);
    assert name[|name| - |SUFFIX|..] == SUFFIX;
    Enclosed(name, s);
  }

  lemma ParsesTwice(s: string)
    requires Bare(s)
    ensures ParseName(PREFIX + (PREFIX + (s + SUFFIX + SUFFIX))) == ParseU64(s)
  {
    var tail := s + SUFFIX + SUFFIX;
    var name := PREFIX + (PREFIX + tail);
    Associate(s, SUFFIX, SUFFIX);
    BareIsTrimmed(s, SUFFIX + SUFFIX);
    TrimRepeated(PREFIX, tail);
    EndRepeated(s, SUFFIX);
    assert name[|name| - |SUFFIX|..] == SUFFIX;
    Enclosed(name, s);
  }

  lemma DecimalIsBare(id: nat)
    ensures Bare(Decimal(id)) && Bare("+" + Decimal(id))
    ensures ParseU64(Decimal(id)) == ParseU64("+" + Decimal(id)) == if id < U64 then Some(id) else None
  {
    var s, plus := Decimal(id), "+" + Decimal(id);
    DecimalParses(id);
    assert IsDigit(s[0]) && IsDigit(s[|s| - 1]);
    assert plus[1..] == s && plus[|plus| - 1] == s[|s| - 1];
  }

  lemma NothingIsNoId()
    ensures ParseU64("") == None && ParseU64("+") == None
  {
    assert "+"[1..] == "";
  }

  /** Names need not be padded, may carry a plus sign, and may repeat prefix and suffix; an id beyond 64 bits, or
      nothing at all, is no id. */
  lemma LiberalNames(id: nat)
    ensures id < 0x1_0000_0000_0000_0000 ==>
              && ParseName(PREFIX + Decimal(id) + SUFFIX) == Some(id)
              && ParseName(PREFIX + ("+" + Decimal(id)) + SUFFIX) == Some(id)
              && ParseName(PREFIX + (PREFIX + (Decimal(id) + SUFFIX + SUFFIX))) == Some(id)
    ensures id >= 0x1_0000_0000_0000_0000 ==> ParseName(PREFIX + Decimal(id) + SUFFIX) == None
    ensures ParseU64("") == None && ParseU64("+") == None
  {
    DecimalIsBare(id);
    ParsesOnce(Decimal(id));
    ParsesOnce("+" + Decimal(id));
    ParsesTwice(Decimal(id));
    NothingIsNoId();
  }

  lemma NamesDiffer(a: nat, b: nat)
    requires a < U64 && b < U64
    ensures FileName(a) == FileName(b) <==> a == b
  {
    NameRoundTrip(a);
    NameRoundTrip(b);
  }

  // ----- a directory -----

  type Directory = map<string, Snapshot>

  function Checkpoints(d: Directory): set<string> {
    set name | name in d && ParseName(name).Some?
  }

  function IdOf(name: string): nat {
    match ParseName(name) case Some(id) => id case None => 0
  }

  /** `m` is the greatest checkpoint id in the directory, or zero if there is none. */
  ghost predicate IsLatest(d: Directory, m: nat) {
    && (forall name | name in Checkpoints(d) :: IdOf(name) <= m)
    && (m == 0 || exists name :: name in Checkpoints(d) && IdOf(name) == m)
  }

  /** What cleaning up leaves: other files untouched, at most `limit` checkpoints, none of them older than a
      removed one, and none removed needlessly. */
  ghost predicate Cleaned(before: Directory, after: Directory, limit: nat) {
    && (forall name | name in after :: name in before && after[name] == before[name])
    && (forall name | name in before && name !in after :: ParseName(name).Some?)
    && |Checkpoints(after)| == Min(|Checkpoints(before)|, limit)
    && (forall gone, kept | gone in before && gone !in after && kept in Checkpoints(after) :: IdOf(gone) <= IdOf(kept))
  }

  /** The saved snapshot is written under its id's file name. */
  function Written(d: Directory, id: nat, snapshot: Snapshot): Directory {
    d[FileName(id) := snapshot]
  }

  datatype LoadError = CheckpointNotFound(id: nat) | VersionMismatch(expected: nat, found: nat)

  datatype Loaded = Ok(snapshot: Option<Snapshot>) | Err(error: LoadError)

  function Load(d: Directory, id: nat): Loaded {
    if FileName(id) !in d then Err(CheckpointNotFound(id))
    else
      var s := d[FileName(id)];
      if s.version != CURRENT_VERSION then Err(VersionMismatch(CURRENT_VERSION, s.version)) else Ok(Some(s))
  }

  /** `r` is the outcome of loading the latest checkpoint. */
  ghost predicate LoadsLatest(d: Directory, r: Loaded) {
    forall latest: nat | IsLatest(d, latest) :: r == if latest == 0 then Ok(None) else Load(d, latest)
  }

  // ----- the store -----

  datatype Store = Store(files: Directory, counter: nat)

  /** A store opened on a directory numbers its checkpoints from the latest one on. */
  ghost predicate Opened(d: Directory, s: Store) {
    s.files == d && exists latest: nat :: IsLatest(d, latest) && s.counter == NextId(latest)
  }

  ghost predicate SaveStep(limit: nat, s: Store, snapshot: Snapshot, s': Store) {
    Cleaned(Written(s.files, s.counter, snapshot), s'.files, limit) && s'.counter == NextId(s.counter)
  }

  datatype Entry = Entry(id: nat, name: string)

  ghost predicate ById(s: seq<Entry>) {
    forall i, j | 0 <= i < j < |s| :: s[i].id <= s[j].id
  }

  lemma InsertedById(s: seq<Entry>, e: Entry, i: nat)
    requires ById(s) && i <= |s|
    requires forall j | 0 <= j < i :: s[j].id <= e.id
    requires forall j | i <= j < |s| :: e.id <= s[j].id
    ensures ById(s[..i] + [e] + s[i..])
  {
    var r := s[..i] + [e] + s[i..];
    forall a, b | 0 <= a < b < |r|
      ensures r[a].id <= r[b].id
    {
      assert r[a] == if a < i then s[a] else if a == i then e else s[a - 1];
      assert r[b] == if b < i then s[b] else if b == i then e else s[b - 1];
    }
  }

  lemma InsertedNoDup(s: seq<Entry>, e: Entry, i: nat)
    requires NoDup(s) && e !in s && i <= |s|
    ensures NoDup(s[..i] + [e] + s[i..])
    ensures forall x :: x in s[..i] + [e] + s[i..] <==> x in s || x == e
  {
    assert s == s[..i] + s[i..];
    NoDupConcat(s[..i], s[i..]);
    NoDupConcat(s[..i], [e]);
    NoDupConcat(s[..i] + [e], s[i..]);
  }

  /** Sorts entries by id; the order among equal ids is left open. */
  method SortById(s: seq<Entry>) returns (r: seq<Entry>)
    requires NoDup(s)
    ensures ById(r) && NoDup(r) && forall x :: x in r <==> x in s
  {
    r := [];
    for k := 0 to |s|
      invariant ById(r) && NoDup(r) && forall x :: x in r <==> x in s[..k]
    {
      var i := |r|;
      while i > 0 && s[k].id < r[i - 1].id
        invariant 0 <= i <= |r|
        invariant forall j | i <= j < |r| :: s[k].id < r[j].id
      {
        i := i - 1;
      }
      assert s[k] !in s[..k];
      InsertedById(r, s[k], i);
      InsertedNoDup(r, s[k], i);
      r := r[..i] + [s[k]] + r[i..];
      assert s[..k + 1] == s[..k] + [s[k]];
    }
    assert s[..|s|] == s;
  }

  function NamesOf(s: seq<Entry>): seq<string> {
    seq(|s|, i requires 0 <= i < |s| => s[i].name)
  }

  /** The entries are exactly the checkpoints of the directory, each once. */
  ghost predicate Listing(d: Directory, s: seq<Entry>) {
    NoDup(s) && forall e: Entry :: e in s <==> e.name in d && ParseName(e.name) == Some(e.id)
  }

  lemma ListingNames(d: Directory, s: seq<Entry>)
    requires Listing(d, s)
    ensures NoDup(NamesOf(s)) && ToSet(NamesOf(s)) == Checkpoints(d) && |s| == |Checkpoints(d)|
  {
    forall name | name in Checkpoints(d)
      ensures name in NamesOf(s)
    {
      var e := Entry(IdOf(name), name);
      assert e in s;
      var i :| 0 <= i < |s| && s[i] == e;
      assert NamesOf(s)[i] == name;
    }
    forall i | 0 <= i < |s|
      ensures s[i] == Entry(IdOf(s[i].name), s[i].name) && NamesOf(s)[i] in Checkpoints(d)
    {
      assert s[i] in s;
    }
    NoDupSize(NamesOf(s));
  }

  /** Removing the files of the first `k` entries leaves exactly the checkpoints of the others. */
  lemma DropFirst(d: Directory, s: seq<Entry>, k: nat)
    requires Listing(d, s) && k <= |s|
    ensures Checkpoints(d - ToSet(NamesOf(s[..k]))) == ToSet(NamesOf(s[k..]))
    ensures |ToSet(NamesOf(s[k..]))| == |s| - k
  {
    ListingNames(d, s);
    var names := NamesOf(s);
    assert NamesOf(s[..k]) == names[..k] && NamesOf(s[k..]) == names[k..];
    assert names == names[..k] + names[k..];
    NoDupSize(names[k..]);
    forall name
      ensures name in ToSet(names) - ToSet(names[..k]) <==> name in ToSet(names[k..])
    {
      assert name in names <==> name in names[..k] || name in names[k..];
    }
  }

  lemma EntryOf(d: Directory, s: seq<Entry>, name: string, from: nat, to: nat) returns (i: nat)
    requires Listing(d, s) && from <= to <= |s| && name in NamesOf(s[from..to])
    ensures from <= i < to && s[i] == Entry(IdOf(name), name) && ParseName(name).Some?
  {
    var k :| 0 <= k < to - from && NamesOf(s[from..to])[k] == name;
    i := from + k;
    assert s[i] in s;
  }

  lemma DropCleans(d: Directory, s: seq<Entry>, k: nat, limit: nat)
    requires Listing(d, s) && ById(s) && k <= |s|
    requires |s| - k == Min(|s|, limit)
    ensures Cleaned(d, d - ToSet(NamesOf(s[..k])), limit)
  {
    ListingNames(d, s);
    DropFirst(d, s, k);
    assert s[..k] == s[0..k] && s[k..] == s[k..|s|];
    var after := d - ToSet(NamesOf(s[..k]));
    forall gone, kept | gone in d && gone !in after && kept in Checkpoints(after)
      ensures IdOf(gone) <= IdOf(kept)
    {
      var i := EntryOf(d, s, gone, 0, k);
      var j := EntryOf(d, s, kept, k, |s|);
    }
    forall name | name in d && name !in after
      ensures ParseName(name).Some?
    {
      var i := EntryOf(d, s, name, 0, k);
    }
  }

  method FindLatestCheckpointId(d: Directory) returns (latest: nat)
    ensures IsLatest(d, latest)
  {
    latest := 0;
    var rest := d.Keys;
    while rest != {}
      invariant rest <= d.Keys
      invariant forall name | name in Checkpoints(d) && name !in rest :: IdOf(name) <= latest
      invariant latest == 0 || exists name :: name in Checkpoints(d) && IdOf(name) == latest
    {
      var name :| name in rest;
      rest := rest - {name};
      match ParseName(name)
      case Some(id) =>
        assert name in Checkpoints(d) && IdOf(name) == id;
        if id > latest {
          latest := id;
        }
      case None =>
    }
  }

  class StateStore {
    const maxCheckpoints: nat
    var files: Directory
    var counter: nat

    ghost function Current(): Store
      reads this
    {
      Store(files, counter)
    }

    constructor (files: Directory, maxCheckpoints: nat)
      ensures this.maxCheckpoints == maxCheckpoints && Opened(files, Current())
    {
      var latest := FindLatestCheckpointId(files);
      this.files := files;
      this.maxCheckpoints := maxCheckpoints;
      counter := NextId(latest);
    }

    method SaveCheckpoint(snapshot: Snapshot) returns (id: nat)
      modifies this
      ensures id == old(counter) && SaveStep(maxCheckpoints, old(Current()), snapshot, Current())
    {
      id := counter;
      counter := NextId(counter);
      files := Written(files, id, snapshot);
      CleanupOldCheckpoints();
    }

    method ListEntries() returns (entries: seq<Entry>)
      ensures Listing(files, entries)
    {
      entries := [];
      var rest := files.Keys;
      while rest != {}
        invariant rest <= files.Keys && NoDup(entries)
        invariant forall e: Entry :: e in entries <==> e.name in files && e.name !in rest && ParseName(e.name) == Some(e.id)
      {
        var name :| name in rest;
        rest := rest - {name};
        match ParseName(name)
        case Some(id) => entries := entries + [Entry(id, name)];
        case None =>
      }
    }

    method CleanupOldCheckpoints()
      modifies this`files
      ensures Cleaned(old(files), files, maxCheckpoints)
    {
      var entries := ListEntries();
      var checkpoints := SortById(entries);
      ghost var sorted, removed := checkpoints, 0;
      while |checkpoints| > maxCheckpoints
        invariant 0 <= removed <= |sorted| && checkpoints == sorted[removed..]
        invariant files == old(files) - ToSet(NamesOf(sorted[..removed]))
        invariant removed > 0 ==> |checkpoints| >= maxCheckpoints
        decreases |checkpoints|
      {
        assert NamesOf(sorted[..removed + 1]) == NamesOf(sorted[..removed]) + [checkpoints[0].name];
        files := files - {checkpoints[0].name};
        checkpoints, removed := checkpoints[1..], removed + 1;
      }
      DropCleans(old(files), sorted, removed, maxCheckpoints);
    }

    method LoadCheckpoint(id: nat) returns (r: Loaded)
      ensures r == Load(files, id)
    {
      if FileName(id) !in files {
        return Err(CheckpointNotFound(id));
      }
      var s := files[FileName(id)];
      if s.version != CURRENT_VERSION {
        return Err(VersionMismatch(CURRENT_VERSION, s.version));
      }
      return Ok(Some(s));
    }

    method LoadLatestCheckpoint() returns (r: Loaded)
      ensures LoadsLatest(files, r)
    {
      var latest := FindLatestCheckpointId(files);
      if latest == 0 {
        return Ok(None);
      }
      r := LoadCheckpoint(latest);
    }
  }

  // ----- runs of saves -----

  /** The states a store goes through while saving these snapshots. */
  ghost predicate Saves(limit: nat, states: seq<Store>, snapshots: seq<Snapshot>) {
    |states| == |snapshots| + 1 &&
    forall i | 0 <= i < |snapshots| :: SaveStep(limit, states[i], snapshots[i], states[i + 1])
  }

  /** All snapshots written under consecutive ids, nothing ever removed. */
  function AllWritten(d: Directory, first: nat, snapshots: seq<Snapshot>): Directory {
    if snapshots == [] then d
    else
      var n := |snapshots| - 1;
      Written(AllWritten(d, first, snapshots[..n]), first + n, snapshots[n])
  }

  ghost predicate IdsBelow(d: Directory, bound: nat) {
    forall name | name in Checkpoints(d) :: IdOf(name) < bound
  }

  lemma {:induction false} AllWrittenBelow(d: Directory, first: nat, snapshots: seq<Snapshot>)
    requires IdsBelow(d, first) && first + |snapshots| <= U64
    ensures IdsBelow(AllWritten(d, first, snapshots), first + |snapshots|)
  {
    if snapshots == [] {
    } else {
      var n := |snapshots| - 1;
      AllWrittenBelow(d, first, snapshots[..n]);
      NameRoundTrip(first + n);
    }
  }

  lemma WrittenCheckpoints(d: Directory, id: nat, snapshot: Snapshot)
    requires id < U64 && IdsBelow(d, id)
    ensures Checkpoints(Written(d, id, snapshot)) == Checkpoints(d) + {FileName(id)}
    ensures |Checkpoints(Written(d, id, snapshot))| == |Checkpoints(d)| + 1
  {
    NameRoundTrip(id);
    assert FileName(id) !in Checkpoints(d);
  }

  /** Cleaning up after each of two saves leaves what one clean-up at the end would. */
  lemma CleanedTwice(a: Directory, b: Directory, c: Directory, id: nat, snapshot: Snapshot, limit: nat)
    requires id < U64 && IdsBelow(a, id)
    requires Cleaned(a, b, limit) && Cleaned(Written(b, id, snapshot), c, limit)
    ensures Cleaned(Written(a, id, snapshot), c, limit)
  {
    NameRoundTrip(id);
    assert IdsBelow(b, id);
    WrittenCheckpoints(a, id, snapshot);
    WrittenCheckpoints(b, id, snapshot);
    var all := Written(a, id, snapshot);
    forall gone, kept | gone in all && gone !in c && kept in Checkpoints(c)
      ensures IdOf(gone) <= IdOf(kept)
    {
      assert kept in Written(b, id, snapshot);
      if gone !in Written(b, id, snapshot) {
        assert IdOf(gone) < id;
        assert kept == FileName(id) || kept in Checkpoints(b);
      }
    }
  }

  /** A store opened on a directory and saving these snapshots, without running out of 64-bit ids. */
  ghost predicate Run(d: Directory, limit: nat, states: seq<Store>, snapshots: seq<Snapshot>) {
    Saves(limit, states, snapshots) && Opened(d, states[0]) &&
    1 <= states[0].counter && states[0].counter + |snapshots| <= U64
  }

  lemma RunPrefix(d: Directory, limit: nat, states: seq<Store>, snapshots: seq<Snapshot>, n: nat)
    requires Run(d, limit, states, snapshots) && n + 1 == |snapshots|
    ensures Run(d, limit, states[..n + 1], snapshots[..n])
    ensures SaveStep(limit, states[n], snapshots[n], states[n + 1])
  {
  }

  lemma ParsedIsU64(name: string)
    ensures IdOf(name) < U64
  {
  }

  lemma OpenedBelow(d: Directory, s: Store)
    requires Opened(d, s) && 1 <= s.counter
    ensures IdsBelow(d, s.counter)
  {
  }

  lemma {:induction false} RunCounter(d: Directory, limit: nat, states: seq<Store>, snapshots: seq<Snapshot>)
    requires Run(d, limit, states, snapshots)
    ensures var next := states[0].counter + |snapshots|;
            states[|snapshots|].counter == if next < U64 then next else 0
  {
    if snapshots == [] {
    } else {
      var n := |snapshots| - 1;
      RunPrefix(d, limit, states, snapshots, n);
      RunCounter(d, limit, states[..n + 1], snapshots[..n]);
    }
  }

  lemma RunBelow(d: Directory, limit: nat, states: seq<Store>, snapshots: seq<Snapshot>)
    requires Run(d, limit, states, snapshots)
    ensures IdsBelow(AllWritten(d, states[0].counter, snapshots), states[0].counter + |snapshots|)
  {
    OpenedBelow(d, states[0]);
    AllWrittenBelow(d, states[0].counter, snapshots);
  }

  lemma AllWrittenOne(d: Directory, first: nat, snapshots: seq<Snapshot>)
    requires |snapshots| == 1
    ensures AllWritten(d, first, snapshots) == Written(d, first, snapshots[0])
  {
    assert AllWritten(d, first, snapshots[..0]) == d;
  }

  /** A run of saves keeps exactly what cleaning up once, at its end, would keep, whatever the directory held
      when the store was opened. */
  lemma {:induction false} RunIsOneCleanup(d: Directory, limit: nat, states: seq<Store>, snapshots: seq<Snapshot>)
    requires Run(d, limit, states, snapshots) && snapshots != []
    ensures Cleaned(AllWritten(d, states[0].counter, snapshots), states[|snapshots|].files, limit)
  {
    var n := |snapshots| - 1;
    if n == 0 {
      OneSave(d, limit, states, snapshots);
    } else {
      RunPrefix(d, limit, states, snapshots, n);
      RunIsOneCleanup(d, limit, states[..n + 1], snapshots[..n]);
      OneMoreSave(d, limit, states, snapshots);
    }
  }

  lemma OneSave(d: Directory, limit: nat, states: seq<Store>, snapshots: seq<Snapshot>)
    requires Run(d, limit, states, snapshots) && |snapshots| == 1
    ensures Cleaned(AllWritten(d, states[0].counter, snapshots), states[1].files, limit)
  {
    AllWrittenOne(d, states[0].counter, snapshots);
    RunPrefix(d, limit, states, snapshots, 0);
  }

  lemma OneMoreSave(d: Directory, limit: nat, states: seq<Store>, snapshots: seq<Snapshot>)
    requires Run(d, limit, states, snapshots) && |snapshots| > 1
    requires var n := |snapshots| - 1; Cleaned(AllWritten(d, states[0].counter, snapshots[..n]), states[n].files, limit)
    ensures Cleaned(AllWritten(d, states[0].counter, snapshots), states[|snapshots|].files, limit)
  {
    var first, n := states[0].counter, |snapshots| - 1;
    var states', snapshots' := states[..n + 1], snapshots[..n];
    RunPrefix(d, limit, states, snapshots, n);
    RunBelow(d, limit, states', snapshots');
    RunCounter(d, limit, states', snapshots');
    CleanedTwice(AllWritten(d, first, snapshots'), states[n].files, states[n + 1].files, first + n, snapshots[n], limit);
  }

  lemma CleanedBelow(before: Directory, after: Directory, bound: nat, limit: nat)
    requires Cleaned(before, after, limit) && IdsBelow(before, bound)
    ensures IdsBelow(after, bound)
  {
    forall name | name in Checkpoints(after)
      ensures IdOf(name) < bound
    {
      assert name in Checkpoints(before);
    }
  }

  /** With room for at least one checkpoint, the newest one survives a clean-up. */
  lemma NewestSurvives(d: Directory, after: Directory, id: nat, snapshot: Snapshot, limit: nat)
    requires 1 <= id < U64 && IdsBelow(d, id) && limit >= 1
    requires Cleaned(Written(d, id, snapshot), after, limit)
    ensures IsLatest(after, id) && FileName(id) in after && after[FileName(id)] == snapshot
  {
    var newest := FileName(id);
    NameRoundTrip(id);
    WrittenCheckpoints(d, id, snapshot);
    CleanedBelow(Written(d, id, snapshot), after, id + 1, limit);
    assert Checkpoints(after) != {};
    var kept :| kept in Checkpoints(after);
    assert kept in Checkpoints(d) + {newest};
    assert newest in Checkpoints(after);
  }

  lemma NoneSurvive(d: Directory, after: Directory)
    requires Cleaned(d, after, 0)
    ensures IsLatest(after, 0) && Checkpoints(after) == {}
  {
  }

  /** The state of the directory after a non-empty run: the last snapshot is its latest checkpoint, or there
      are no checkpoints at all. */
  lemma RunEnd(d: Directory, limit: nat, states: seq<Store>, snapshots: seq<Snapshot>)
    requires Run(d, limit, states, snapshots) && snapshots != []
    ensures var files, id := states[|snapshots|].files, states[0].counter + |snapshots| - 1;
            if limit == 0 then IsLatest(files, 0)
            else IsLatest(files, id) && FileName(id) in files && files[FileName(id)] == snapshots[|snapshots| - 1]
  {
    var n := |snapshots| - 1;
    var first := states[0].counter;
    if limit == 0 {
      RunIsOneCleanup(d, limit, states, snapshots);
      NoneSurvive(AllWritten(d, first, snapshots), states[n + 1].files);
    } else {
      RunIsOneCleanup(d, limit, states, snapshots);
      RunPrefix(d, limit, states, snapshots, n);
      RunBelow(d, limit, states[..n + 1], snapshots[..n]);
      NewestSurvives(AllWritten(d, first, snapshots[..n]), states[n + 1].files, first + n, snapshots[n], limit);
    }
  }

  /** After any run of saves, loading the latest checkpoint gives back the last snapshot saved, or reports its
      foreign version; with a limit of zero it finds nothing, as each save removes its own checkpoint. */
  lemma LatestIsLastSaved(d: Directory, limit: nat, states: seq<Store>, snapshots: seq<Snapshot>, r: Loaded)
    requires Run(d, limit, states, snapshots) && snapshots != []
    requires LoadsLatest(states[|snapshots|].files, r)
    ensures var last := snapshots[|snapshots| - 1];
            r == if limit == 0 then Ok(None)
                 else if last.version == 1 then Ok(Some(last))
                 else Err(VersionMismatch(1, last.version))
  {
    RunEnd(d, limit, states, snapshots);
  }

  /** Reopening the store after saving goes on with the next id exactly if checkpoints are retained at all. */
  lemma ReopenContinuesIff(d: Directory, limit: nat, states: seq<Store>, snapshots: seq<Snapshot>, reopened: Store)
    requires Run(d, limit, states, snapshots) && snapshots != []
    requires Opened(states[|snapshots|].files, reopened)
    ensures reopened == states[|snapshots|] <==> limit >= 1
  {
    RunEnd(d, limit, states, snapshots);
    RunCounter(d, limit, states, snapshots);
    OpenedCounter(states[|snapshots|].files, reopened, if limit == 0 then 0 else states[0].counter + |snapshots| - 1);
  }

  lemma OpenedCounter(d: Directory, s: Store, latest: nat)
    requires Opened(d, s) && IsLatest(d, latest)
    ensures s.files == d && s.counter == NextId(latest)
  {
  }

  /** An id that has wrapped around is not the latest: the checkpoint saved under it is never loaded while
      that of the greatest id is kept. */
  lemma WrappedIdIsNotLatest(limit: nat, s: Store, snapshot: Snapshot, s': Store)
    requires IsLatest(s.files, U64 - 1) && Opened(s.files, s) && SaveStep(limit, s, snapshot, s') && limit >= 1
    ensures s.counter == 0 && IsLatest(s'.files, U64 - 1)
  {
    OpenedCounter(s.files, s, U64 - 1);
    var all := Written(s.files, 0, snapshot);
    var top :| top in Checkpoints(s.files) && IdOf(top) == U64 - 1;
    NameRoundTrip(0);
    assert top in Checkpoints(all);
    TopSurvives(all, s'.files, top, limit);
  }

  lemma TopSurvives(d: Directory, after: Directory, top: string, limit: nat)
    requires Cleaned(d, after, limit) && limit >= 1 && top in Checkpoints(d) && IdOf(top) == U64 - 1
    ensures IsLatest(after, U64 - 1)
  {
    assert Checkpoints(after) != {};
    var kept :| kept in Checkpoints(after);
    assert IdOf(kept) == U64 - 1 || top in Checkpoints(after) by {
      ParsedIsU64(kept);
    }
    forall name | name in Checkpoints(after)
      ensures IdOf(name) <= U64 - 1
    {
      ParsedIsU64(name);
    }
  }

  /** Loading the latest checkpoint of an arbitrary directory misses it exactly when its file goes by another
      name than the one its id is written under. */
  lemma LatestNotFoundIff(d: Directory, m: nat, r: Loaded)
    requires IsLatest(d, m) && LoadsLatest(d, r)
    ensures r == Err(CheckpointNotFound(m)) <==> m > 0 && FileName(m) !in d
    ensures r.Ok? <==> m == 0 || (FileName(m) in d && d[FileName(m)].version == CURRENT_VERSION)
    ensures r.Err? && r.error.CheckpointNotFound? ==> r.error.id == m
  {
  }

  /** In particular the latest checkpoint is found in every directory whose checkpoints all go by canonical names. */
  lemma CanonicalIsFound(d: Directory, m: nat, r: Loaded)
    requires IsLatest(d, m) && LoadsLatest(d, r)
    requires forall name | name in Checkpoints(d) :: name == FileName(IdOf(name))
    ensures r.Ok? || r.error.VersionMismatch?
  {
    LatestNotFoundIff(d, m, r);
  }

  /** A checkpoint under a name without the leading zeros counts as the latest, yet is not found. */
  lemma ShortNameIsNotFound(snapshot: Snapshot, r: Loaded)
    requires LoadsLatest(map["checkpoint_7.rkyv" := snapshot], r)
    ensures r == Err(CheckpointNotFound(7))
  {
    var d: Directory := map["checkpoint_7.rkyv" := snapshot];
    DecimalParses(7);
    assert Decimal(7) == "7";
    TrimStartOnce("7");
    TrimEndOnce("7");
    assert "checkpoint_7.rkyv" == PREFIX + "7" + SUFFIX;
    assert ParseName("checkpoint_7.rkyv") == Some(7);
    assert "checkpoint_7.rkyv" in Checkpoints(d);
    assert IsLatest(d, 7);
    assert |FileName(7)| > |"checkpoint_7.rkyv"|;
    LatestNotFoundIff(d, 7, r);
  }

  // ----- which checkpoints are retained -----

  /** The names of the ids above `lo` up to `hi`. */
  function Names(lo: nat, hi: nat): set<string> {
    set j | lo < j <= hi :: FileName(j)
  }

  lemma NamesSnoc(lo: nat, hi: nat)
    requires lo <= hi
    ensures Names(lo, hi + 1) == Names(lo, hi) + {FileName(hi + 1)}
  {
    forall name
      ensures name in Names(lo, hi + 1) <==> name in Names(lo, hi) || name == FileName(hi + 1)
    {
      if name in Names(lo, hi + 1) {
        var j :| lo < j <= hi + 1 && name == FileName(j);
        assert j <= hi ==> name in Names(lo, hi);
      }
    }
  }

  lemma NotAmong(lo: nat, hi: nat, k: nat)
    requires hi < k < U64
    ensures FileName(k) !in Names(lo, hi)
  {
    forall j | lo < j <= hi
      ensures FileName(j) != FileName(k)
    {
      NamesDiffer(j, k);
    }
  }

  lemma {:induction false} NamesSize(lo: nat, hi: nat)
    requires lo <= hi < U64
    ensures |Names(lo, hi)| == hi - lo
  {
    if lo == hi {
    } else {
      NamesSize(lo, hi - 1);
      NamesSnoc(lo, hi - 1);
      NotAmong(lo, hi - 1, hi);
    }
  }

  lemma {:induction false} FreshNames(d: Directory, snapshots: seq<Snapshot>)
    requires Checkpoints(d) == {} && |snapshots| < U64
    ensures Checkpoints(AllWritten(d, 1, snapshots)) == Names(0, |snapshots|)
  {
    var n := |snapshots|;
    if n == 0 {
    } else {
      FreshNames(d, snapshots[..n - 1]);
      AllWrittenBelow(d, 1, snapshots[..n - 1]);
      WrittenCheckpoints(AllWritten(d, 1, snapshots[..n - 1]), n, snapshots[n - 1]);
      NamesSnoc(0, n - 1);
    }
  }

  lemma {:induction false} FreshContents(d: Directory, snapshots: seq<Snapshot>, j: nat)
    requires |snapshots| < U64 && 1 <= j <= |snapshots|
    ensures var all := AllWritten(d, 1, snapshots); FileName(j) in all && all[FileName(j)] == snapshots[j - 1]
  {
    var n := |snapshots|;
    if j == n {
    } else {
      FreshContents(d, snapshots[..n - 1], j);
      OtherIdKept(AllWritten(d, 1, snapshots[..n - 1]), n, snapshots[n - 1], j);
    }
  }

  lemma OtherIdKept(d: Directory, id: nat, snapshot: Snapshot, j: nat)
    requires id < U64 && j < U64 && j != id && FileName(j) in d
    ensures FileName(j) in Written(d, id, snapshot) && Written(d, id, snapshot)[FileName(j)] == d[FileName(j)]
  {
    NamesDiffer(j, id);
  }

  lemma {:induction false} OthersUntouched(d: Directory, first: nat, snapshots: seq<Snapshot>, name: string)
    requires first + |snapshots| <= U64 && ParseName(name).None?
    ensures var all := AllWritten(d, first, snapshots); (name in all <==> name in d) && (name in d ==> all[name] == d[name])
  {
    if snapshots == [] {
    } else {
      OthersUntouched(d, first, snapshots[..|snapshots| - 1], name);
      NameRoundTrip(first + |snapshots| - 1);
    }
  }

  lemma InNames(k: nat, n: nat)
    requires 0 < k <= n
    ensures FileName(k) in Names(0, n)
  {
  }

  lemma KeptUpward(all: Directory, after: Directory, n: nat, limit: nat, j: nat, k: nat)
    requires Checkpoints(all) == Names(0, n) && n < U64 && Cleaned(all, after, limit)
    requires 0 < j <= k <= n && FileName(j) in after
    ensures FileName(k) in Checkpoints(after)
  {
    var gone, kept := FileName(k), FileName(j);
    NameRoundTrip(j);
    NameRoundTrip(k);
    assert IdOf(gone) == k && IdOf(kept) == j;
    InNames(k, n);
    assert gone in Checkpoints(all) && kept in Checkpoints(after);
    assert gone !in after ==> IdOf(gone) <= IdOf(kept);
  }

  lemma KeptSubset(all: Directory, after: Directory, n: nat, limit: nat, name: string) returns (j: nat)
    requires Checkpoints(all) == Names(0, n) && Cleaned(all, after, limit)
    requires name in Checkpoints(after)
    ensures 0 < j <= n && name == FileName(j)
  {
    assert name in Checkpoints(all);
    j :| 0 < j <= n && name == FileName(j);
  }

  lemma KeptIsSomeRange(all: Directory, after: Directory, n: nat, limit: nat) returns (lo: nat)
    requires Checkpoints(all) == Names(0, n) && n < U64 && Cleaned(all, after, limit)
    ensures lo <= n && Checkpoints(after) == Names(lo, n)
  {
    var ids := set j: nat | 0 < j <= n && FileName(j) in after;
    lo := if ids == {} then n else Least(ids) - 1;
    forall name | name in Names(lo, n)
      ensures name in Checkpoints(after)
    {
      var j :| lo < j <= n && name == FileName(j);
      KeptUpward(all, after, n, limit, lo + 1, j);
    }
    forall name | name in Checkpoints(after)
      ensures name in Names(lo, n)
    {
      var j := KeptSubset(all, after, n, limit, name);
      assert j in ids;
    }
  }

  /** Out of the names 1 to n, what a clean-up keeps is the upper range of the size of the limit. */
  lemma KeptIsUpperRange(all: Directory, after: Directory, n: nat, limit: nat)
    requires Checkpoints(all) == Names(0, n) && n < U64
    requires Cleaned(all, after, limit)
    ensures Checkpoints(after) == Names(n - Min(n, limit), n)
  {
    var lo := KeptIsSomeRange(all, after, n, limit);
    NamesSize(lo, n);
    NamesSize(0, n);
  }

  lemma NoCheckpointsLatest(d: Directory, s: Store)
    requires Opened(d, s) && Checkpoints(d) == {}
    ensures s.counter == 1
  {
  }

  /** From a directory without checkpoints, any run of saves leaves exactly the newest checkpoints up to the
      limit, each with the snapshot saved under it, and every other file as it was. */
  lemma RetainsNewest(d: Directory, limit: nat, states: seq<Store>, snapshots: seq<Snapshot>)
    requires Run(d, limit, states, snapshots) && Checkpoints(d) == {}
    ensures var files, n := states[|snapshots|].files, |snapshots|;
      && Checkpoints(files) == Names(n - Min(n, limit), n)
      && |Checkpoints(files)| == Min(n, limit)
      && (forall j | n - Min(n, limit) < j <= n :: FileName(j) in files && files[FileName(j)] == snapshots[j - 1])
      && (forall name | ParseName(name).None? :: (name in files <==> name in d) && (name in d ==> files[name] == d[name]))
  {
    var files, n := states[|snapshots|].files, |snapshots|;
    NoCheckpointsLatest(d, states[0]);
    if n > 0 {
      RunIsOneCleanup(d, limit, states, snapshots);
      var all := AllWritten(d, 1, snapshots);
      FreshNames(d, snapshots);
      KeptIsUpperRange(all, files, n, limit);
      NamesSize(n - Min(n, limit), n);
      forall j | n - Min(n, limit) < j <= n
        ensures FileName(j) in files && files[FileName(j)] == snapshots[j - 1]
      {
        assert FileName(j) in Checkpoints(files);
        FreshContents(d, snapshots, j);
      }
      forall name | ParseName(name).None?
        ensures (name in files <==> name in d) && (name in d ==> files[name] == d[name])
      {
        OthersUntouched(d, 1, snapshots, name);
      }
    }
  }
}
