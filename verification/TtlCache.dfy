/** The two in-memory caches, Memory and Memory4xx: one table of entries with an expiry, read with a
    double-checked removal and swept from time to time. A 4xx entry carries no value of its own. */
module TtlCache {
  import opened Wrappers

  datatype Entry<V> = Entry(value: V, expiresAt: int)

  type Table<V> = map<string, Entry<V>>

  // ------------------------------------------------------------ one caller at a time

  // Get: an entry is live up to and including its expiry; a dead one is removed.
  function Lookup<V>(table: Table<V>, key: string, now: int): Option<V> {
    if key in table && now <= table[key].expiresAt then Some(table[key].value) else None
  }

  function AfterGet<V>(table: Table<V>, key: string, now: int): Table<V> {
    if key in table && now > table[key].expiresAt then table - {key} else table
  }

  // CleanupExpired: only what expires strictly later survives.
  function Swept<V>(table: Table<V>, now: int): Table<V> {
    map k | k in table && now < table[k].expiresAt :: table[k]
  }

  class Memory<V> {
    var data: Table<V>

    constructor ()
      ensures data == map[]
    {
      data := map[];
    }

    // The two clock readings of Get, the second taken under the write lock.
    method Get(key: string, checked: int, rechecked: int) returns (hit: Option<V>)
      requires checked <= rechecked
      modifies this
      ensures hit == Lookup(old(data), key, checked)
      ensures data == AfterGet(old(data), key, checked)
      ensures hit == if key in old(data) && checked <= old(data)[key].expiresAt then Some(old(data)[key].value) else None
      ensures key in data <==> key in old(data) && checked <= old(data)[key].expiresAt
      ensures forall k :: k != key ==> (k in data <==> k in old(data))
      ensures forall k :: k in data ==> data[k] == old(data)[k]
    {
      if key !in data { return None; }
      var entry := data[key];
      if checked > entry.expiresAt {
        if key in data && rechecked > data[key].expiresAt {
          data := data - {key};
        }
        return None;
      }
      return Some(entry.value);
    }

    method Set(key: string, entry: Entry<V>)
      modifies this
      ensures data == old(data)[key := entry]
    {
      data := data[key := entry];
    }

    method CleanupExpired(now: int)
      modifies this
      ensures data == Swept(old(data), now)
      ensures forall k :: k in data <==> k in old(data) && now < old(data)[k].expiresAt
      ensures forall k :: k in data ==> data[k] == old(data)[k]
    {
      var newMap: Table<V> := map[];
      var rest := data.Keys;
      while rest != {}
        invariant rest <= data.Keys
        invariant newMap == map k | k in data && k !in rest && now < data[k].expiresAt :: data[k]
      {
        var k :| k in rest;
        if now < data[k].expiresAt {
          newMap := newMap[k := data[k]];
        }
        rest := rest - {k};
      }
      data := newMap;
    }
  }

  // ------------------------------------------------------------ the map that never evicts

  datatype Op<V> =
    | SetOp(key: string, entry: Entry<V>)
    | GetOp(key: string)
    | SweepOp

  datatype Timed<V> = Timed(at: int, op: Op<V>)

  // `full` is the reference map, which never drops anything; `grazed` are the keys whose current
  // entry was swept at exactly its expiry.
  datatype Seq<V> = Seq(now: int, table: Table<V>, full: Table<V>, grazed: set<string>)

  function Apply<V>(s: Seq<V>, t: Timed<V>): Seq<V> {
    if t.at < s.now then s
    else match t.op
      case SetOp(key, entry) =>
        Seq(t.at, s.table[key := entry], s.full[key := entry], s.grazed - {key})
      case GetOp(key) => s.(now := t.at, table := AfterGet(s.table, key, t.at))
      case SweepOp =>
        s.(now := t.at, table := Swept(s.table, t.at),
           grazed := s.grazed + set k | k in s.table && s.table[k].expiresAt == t.at)
  }

  function Sequential<V>(ops: seq<Timed<V>>): Seq<V> {
    if ops == [] then Seq(0, map[], map[], {})
    else Apply(Sequential(ops[..|ops| - 1]), ops[|ops| - 1])
  }

  ghost predicate Faithful<V(!new)>(s: Seq<V>) {
    && (forall k :: k in s.table ==> k in s.full && s.full[k] == s.table[k] && k !in s.grazed)
    && (forall k :: k in s.grazed ==> k in s.full && s.full[k].expiresAt <= s.now)
    && (forall k :: k in s.full && k !in s.table ==>
          s.full[k].expiresAt < s.now || (k in s.grazed && s.full[k].expiresAt == s.now))
  }

  lemma {:induction false} SequentialIsFaithful<V(!new)>(ops: seq<Timed<V>>)
    ensures Faithful(Sequential(ops))
  {
    if ops != [] {
      SequentialIsFaithful(ops[..|ops| - 1]);
    }
  }

  /** The cache answers exactly like a map that never evicts, whatever was set, read and swept before,
      with one exception: a lookup at the very instant of the expiry, after a sweep at that instant. */
  lemma CacheRefinesMap<V(!new)>(ops: seq<Timed<V>>, key: string, at: int)
    requires at >= Sequential(ops).now
    ensures key in Sequential(ops).grazed ==> key in Sequential(ops).full
    ensures var s := Sequential(ops);
      Lookup(s.table, key, at) == Lookup(s.full, key, at) <==> !(key in s.grazed && at == s.full[key].expiresAt)
  {
    SequentialIsFaithful(ops);
  }

  /** Right after a sweep the cache holds exactly the part of the never-evicting map that expires later,
      whatever was set, read and swept before. */
  lemma SweepLeavesLive<V(!new)>(ops: seq<Timed<V>>, at: int)
    requires at >= Sequential(ops).now
    ensures var s := Sequential(ops + [Timed(at, SweepOp)]);
      && s.full == Sequential(ops).full
      && s.table == map k | k in s.full && at < s.full[k].expiresAt :: s.full[k]
  {
    SequentialIsFaithful(ops);
    assert (ops + [Timed(at, SweepOp)])[..|ops|] == ops;
  }

  // ------------------------------------------------------------ callers that interleave

  // A Get in progress: the entry it read, or on its way to the locked re-check, or finished.
  datatype Reader<V> =
    | Idle
    | Holding(key: string, entry: Option<Entry<V>>)
    | Rechecking(key: string)
    | Finished(hit: Option<V>)

  datatype Shared<V> = Shared(now: int, table: Table<V>, full: Table<V>, readers: map<nat, Reader<V>>)

  datatype Move<V> =
    | Pass(to: int)
    | Begin(r: nat, key: string)
    | CheckTime(r: nat)
    | Recheck(r: nat)
    | Put(key: string, entry: Entry<V>)
    | Sweep

  function ReaderOf<V>(s: Shared<V>, r: nat): Reader<V> {
    if r in s.readers then s.readers[r] else Idle
  }

  function Next<V>(s: Shared<V>, m: Move<V>): Shared<V> {
    match m
    case Pass(to) => if to < s.now then s else s.(now := to)
    case Begin(r, key) =>
      var entry := if key in s.table then Some(s.table[key]) else None;
      s.(readers := s.readers[r := Holding(key, entry)])
    case CheckTime(r) =>
      var reader := ReaderOf(s, r);
      if !reader.Holding? then s
      else if reader.entry.None? then s.(readers := s.readers[r := Finished(None)])
      else if s.now > reader.entry.value.expiresAt then s.(readers := s.readers[r := Rechecking(reader.key)])
      else s.(readers := s.readers[r := Finished(Some(reader.entry.value.value))])
    case Recheck(r) =>
      var reader := ReaderOf(s, r);
      if !reader.Rechecking? then s
      else s.(table := AfterGet(s.table, reader.key, s.now), readers := s.readers[r := Finished(None)])
    case Put(key, entry) => s.(table := s.table[key := entry], full := s.full[key := entry])
    case Sweep => s.(table := Swept(s.table, s.now))
  }

  function Moves<V>(s: Shared<V>, moves: seq<Move<V>>): Shared<V> {
    if moves == [] then s else Next(Moves(s, moves[..|moves| - 1]), moves[|moves| - 1])
  }

  function Fresh<V>(): Shared<V> {
    Shared(0, map[], map[], map[])
  }

  predicate SetsKey<V>(m: Move<V>, key: string) {
    m.Put? && m.key == key
  }

  predicate NoSet<V>(moves: seq<Move<V>>, key: string) {
    forall i :: 0 <= i < |moves| ==> !SetsKey(moves[i], key)
  }

  predicate NotBy<V>(m: Move<V>, r: nat) {
    !((m.Begin? || m.CheckTime? || m.Recheck?) && m.r == r)
  }

  // A table beside the map that never evicts: nothing foreign, and only what has expired is missing.
  ghost predicate Tracks<V(!new)>(table: Table<V>, full: Table<V>, now: int) {
    && (forall k :: k in table ==> k in full && full[k] == table[k])
    && (forall k :: k in full && k !in table ==> full[k].expiresAt <= now)
  }

  ghost predicate SharedOk<V(!new)>(s: Shared<V>) {
    Tracks(s.table, s.full, s.now)
  }

  lemma {:induction false} SharedStaysOk<V(!new)>(moves: seq<Move<V>>)
    ensures SharedOk(Moves(Fresh(), moves))
  {
    if moves != [] {
      SharedStaysOk<V>(moves[..|moves| - 1]);
      NextStaysOk(Moves(Fresh(), moves[..|moves| - 1]), moves[|moves| - 1]);
    }
  }

  lemma NextStaysOk<V(!new)>(s: Shared<V>, m: Move<V>)
    requires SharedOk(s)
    ensures SharedOk(Next(s, m))
  {}

  /** No interleaving of reads, re-checks, sets and sweeps removes an entry before its expiry: until
      then it stays unless it is replaced. */
  lemma {:induction false} NothingEvictedEarly<V(!new)>(s: Shared<V>, moves: seq<Move<V>>, key: string)
    requires key in s.table && NoSet(moves, key)
    ensures s.now <= Moves(s, moves).now
    ensures Moves(s, moves).now < s.table[key].expiresAt ==>
      key in Moves(s, moves).table && Moves(s, moves).table[key] == s.table[key]
  {
    if moves != [] {
      NothingEvictedEarly(s, moves[..|moves| - 1], key);
    }
  }

  /** And so it is in any interleaving. */
  lemma SharedSweepLeavesLive<V(!new)>(moves: seq<Move<V>>)
    ensures var s, s' := Moves(Fresh(), moves), Moves(Fresh(), moves + [Sweep]);
      s'.full == s.full && s'.table == map k | k in s.full && s.now < s.full[k].expiresAt :: s.full[k]
  {
    SharedStaysOk<V>(moves);
    MovesAppend(Fresh(), moves, Sweep);
  }

  /** A locked re-check leaves no expired entry under its key, and touches no other key. */
  lemma RecheckRemovesExpired<V>(s: Shared<V>, r: nat)
    requires ReaderOf(s, r).Rechecking?
    ensures var s', key := Next(s, Recheck(r)), ReaderOf(s, r).key;
      && ReaderOf(s', r) == Finished(None)
      && (key in s'.table <==> key in s.table && s.now <= s.table[key].expiresAt)
      && (forall k :: k != key ==> (k in s'.table <==> k in s.table))
      && (forall k :: k in s'.table ==> s'.table[k] == s.table[k])
  {}

  // What happens between a reader's read and its time check, as far as that reader is concerned.
  lemma {:induction false} Between<V(!new)>(s: Shared<V>, moves: seq<Move<V>>, r: nat, key: string)
    requires forall i :: 0 <= i < |moves| ==> NotBy(moves[i], r)
    ensures var s' := Moves(s, moves);
      s.now <= s'.now && ReaderOf(s', r) == ReaderOf(s, r)
      && (NoSet(moves, key) ==> (key in s'.full <==> key in s.full) && (key in s.full ==> s'.full[key] == s.full[key]))
  {
    hide Next;
    if moves != [] {
      var before, last := moves[..|moves| - 1], moves[|moves| - 1];
      Between(s, before, r, key);
      OneBetween(Moves(s, before), last, r, key);
      assert NoSet(moves, key) ==> !SetsKey(last, key);
    }
  }

  lemma OneBetween<V(!new)>(s: Shared<V>, m: Move<V>, r: nat, key: string)
    requires NotBy(m, r)
    ensures var s' := Next(s, m);
      s.now <= s'.now && ReaderOf(s', r) == ReaderOf(s, r)
      && (!SetsKey(m, key) ==> (key in s'.full <==> key in s.full) && (key in s.full ==> s'.full[key] == s.full[key]))
  {}

  // What the time check makes of a reader: a hit, or a miss, at once or after the locked re-check.
  predicate Hits<V(==)>(s: Shared<V>, r: nat, value: V) {
    ReaderOf(Next(s, CheckTime(r)), r) == Finished(Some(value))
  }

  predicate Misses<V>(s: Shared<V>, r: nat) {
    var reader := ReaderOf(Next(s, CheckTime(r)), r);
    reader.Rechecking? || (reader.Finished? && reader.hit.None?)
  }

  /** In any interleaving, a reader hits or misses; a hit returns the value that was current when the
      entry was read, and that was unexpired both then and at the time check. The misses are exactly
      those of the entry current at the read: it was absent, or has expired by the check, or its expiry
      is the very instant of both and a sweep at that instant had already dropped it. */
  lemma GetOutcome<V(!new)>(before: seq<Move<V>>, r: nat, key: string, between: seq<Move<V>>)
    requires forall i :: 0 <= i < |between| ==> NotBy(between[i], r)
    ensures var s := Moves(Fresh(), before);
      var s' := Moves(Next(s, Begin(r, key)), between);
      && (Misses(s', r) <==> !exists v :: Hits(s', r, v))
      && (forall v :: Hits(s', r, v) ==>
            key in s.table && key in s.full && s.full[key] == s.table[key]
            && v == s.table[key].value && s.now <= s'.now <= s.table[key].expiresAt)
      && (Misses(s', r) <==> GoneAtCheck(s, s', key))
  {
    var s := Moves(Fresh(), before);
    SharedStaysOk<V>(before);
    Between(Next(s, Begin(r, key)), between, r, key);
    var s' := Moves(Next(s, Begin(r, key)), between);
    if !Misses(s', r) {
      assert Hits(s', r, ReaderOf(s', r).entry.value.value);
    }
  }

  // What the reader found, s being the state of its read and s' that of its time check.
  predicate GoneAtCheck<V>(s: Shared<V>, s': Shared<V>, key: string) {
    || key !in s.full || s.full[key].expiresAt < s'.now
    || (key !in s.table && s.full[key].expiresAt == s.now == s'.now)
  }

  /** A miss is spurious (the map that never evicts has a live entry at the time check) exactly when, in
      addition, the key holds an entry then that has not expired; short of the instant of an expiry this
      takes a set between the read and the check. */
  lemma SpuriousExactly<V(!new)>(before: seq<Move<V>>, r: nat, key: string, between: seq<Move<V>>)
    requires forall i :: 0 <= i < |between| ==> NotBy(between[i], r)
    ensures var s := Moves(Fresh(), before);
      var s' := Moves(Next(s, Begin(r, key)), between);
      && (Misses(s', r) && Lookup(s'.full, key, s'.now).Some? <==>
            GoneAtCheck(s, s', key) && key in s'.full && s'.now <= s'.full[key].expiresAt)
      && (Misses(s', r) && NoSet(between, key) ==> key !in s'.full || s'.full[key].expiresAt <= s'.now)
  {
    var s := Moves(Fresh(), before);
    GetOutcome(before, r, key, between);
    SharedStaysOk<V>(before);
    Between(Next(s, Begin(r, key)), between, r, key);
  }

  lemma MovesAppend<V>(s: Shared<V>, moves: seq<Move<V>>, m: Move<V>)
    ensures Moves(s, moves + [m]) == Next(Moves(s, moves), m)
  {}

  function Readers<V>(was: V): map<nat, Reader<V>> {
    map[0 := Holding("k", Some(Entry(was, 10)))]
  }

  // An old entry about to expire is read; before the time check it is replaced by one that lives on.
  function Overtaken<V>(was: V, later: V): seq<Move<V>> {
    [Put("k", Entry(was, 10)), Pass(5), Begin(0, "k"), Pass(8), Put("k", Entry(later, 30)), Pass(11)]
  }

  function Stage<V>(was: V, later: V, n: nat): Shared<V> {
    var table := map["k" := Entry(if n < 5 then was else later, if n < 5 then 10 else 30)];
    if n == 0 then Fresh()
    else Shared(if n < 2 then 0 else if n < 4 then 5 else if n < 6 then 8 else 11, table, table,
                if n < 3 then map[] else Readers(was))
  }

  lemma {:induction false} StageReached<V>(was: V, later: V, n: nat)
    requires n <= 6
    ensures Moves(Fresh(), Overtaken(was, later)[..n]) == Stage(was, later, n)
  {
    var moves := Overtaken(was, later);
    if n > 0 {
      StageReached(was, later, n - 1);
      assert moves[..n] == moves[..n - 1] + [moves[n - 1]];
      MovesAppend(Fresh(), moves[..n - 1], moves[n - 1]);
      StageStep(was, later, n);
    }
  }

  lemma StageStep<V>(was: V, later: V, n: nat)
    requires 1 <= n <= 6
    ensures Next(Stage(was, later, n - 1), Overtaken(was, later)[n - 1]) == Stage(was, later, n)
  {}

  /** Such misses happen: here the key has a live entry at every moment from the first step on, and
      Get still misses. */
  lemma SpuriousMiss<V>(was: V, later: V)
    ensures Misses(Moves(Fresh(), Overtaken(was, later)), 0)
    ensures forall n :: 1 <= n <= 6 ==>
      var s := Moves(Fresh(), Overtaken(was, later)[..n]);
      Lookup(s.table, "k", s.now).Some?
  {
    var moves := Overtaken(was, later);
    forall n | 1 <= n <= 6
      ensures Moves(Fresh(), moves[..n]) == Stage(was, later, n)
    {
      StageReached(was, later, n);
    }
    assert moves[..6] == moves;
  }
}
