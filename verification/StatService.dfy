/** The statistics code as it runs: commands sent one by one to a store, loops over keys, fields and
    members. Every method is tied to the function of the store that StatSystem steps with. */
module StatService {
  import opened Wrappers
  import opened Strings
  import opened Redis
  import opened StatKeys
  import opened Clock
  import opened Decimal
  import opened Sorting
  import opened Sums
  import opened Recording
  import opened StatSystem
  import opened StatProofs
  import opened StatReads

  /** A connection to Redis, with the server's clock. */
  class Store {
    var db: Db
    var now: Time

    method HIncrBy(key: string, field: string)
      modifies this`db
      ensures db == Redis.HIncrBy(old(db), key, field)
    {
      db := Redis.HIncrBy(db, key, field);
    }

    method HDel(key: string, fields: set<string>)
      modifies this`db
      ensures db == Redis.HDel(old(db), key, fields)
    {
      db := Redis.HDel(db, key, fields);
    }

    method ZAdd(key: string, member: string, score: int)
      modifies this`db
      ensures db == Redis.ZAdd(old(db), key, member, score)
    {
      db := Redis.ZAdd(db, key, member, score);
    }

    method ZRemRangeByScore(key: string, max: int)
      modifies this`db
      ensures db == Redis.ZRemRangeByScore(old(db), key, max)
    {
      db := Redis.ZRemRangeByScore(db, key, max);
    }

    method Expire(key: string)
      modifies this`db
      ensures db == Redis.Expire(old(db), key, now + TTL)
    {
      db := Redis.Expire(db, key, now + TTL);
    }

    method Del(key: string)
      modifies this`db
      ensures db == Redis.Del(old(db), key)
    {
      db := Redis.Del(db, key);
    }

    // The members from `min` upwards, each once, in whatever order Redis returns them.
    method ZRangeByScore(key: string, min: int) returns (members: seq<string>)
      ensures multiset(members) == multiset(RangeFrom(Fetch(db, key), min))
    {
      members := [];
      var rest := RangeFrom(Fetch(db, key), min);
      ghost var all := rest;
      while rest != {}
        invariant rest <= all && multiset(members) == multiset(all - rest)
      {
        var m :| m in rest;
        assert all - (rest - {m}) == (all - rest) + {m};
        members, rest := members + [m], rest - {m};
      }
      assert all - rest == all;
    }
  }

  /** The bounded queue between the middleware and the workers. */
  class EventQueue {
    const capacity: nat
    var events: seq<Event>
    var dropped: nat

    constructor (capacity: nat)
      ensures this.capacity == capacity && events == [] && dropped == 0
    {
      this.capacity := capacity;
      events, dropped := [], 0;
    }

    // A full queue drops the event instead of making the request wait.
    method Enqueue(e: Event)
      requires |events| <= capacity
      modifies this
      ensures |events| <= capacity
      ensures old(|events|) < capacity ==> events == old(events) + [e] && dropped == old(dropped)
      ensures old(|events|) == capacity ==> events == old(events) && dropped == old(dropped) + 1
    {
      if |events| < capacity {
        events := events + [e];
      } else {
        dropped := dropped + 1;
      }
    }

    method Take() returns (e: Option<Event>)
      modifies this`events
      ensures old(events) == [] ==> e == None && events == []
      ensures old(events) != [] ==> e == Some(old(events)[0]) && events == old(events)[1..]
    {
      if events == [] {
        e := None;
      } else {
        e := Some(events[0]);
        events := events[1..];
      }
    }
  }

  // ------------------------------------------------------------ writing

  /** record: the whole pipeline, command by command. */
  method Record(store: Store, e: Event)
    modifies store`db
    ensures store.db == Recorded(old(store.db), e, store.now)
  {
    RecordForPath(store, e);
    if e.token != "" {
      RecordForToken(store, e);
    }
  }

  method RecordForPath(store: Store, e: Event)
    modifies store`db
    ensures store.db == RecordPath(old(store.db), e, store.now)
  {
    hide Redis.HIncrBy, Redis.HDel, Redis.ZAdd, Redis.Expire, Redis.ZRemRangeByScore, Name, FormatInt;
    var timestamp, hour := Unix(e.now), HourBucket(e.now);
    var hourField, staleField := FormatInt(hour), FormatInt(hour - WINDOW_HOURS);
    var sub := Path(e.path);
    store.HIncrBy(Name(Main(sub)), "count");
    store.HIncrBy(Name(Hours(sub)), hourField);
    store.HDel(Name(Hours(sub)), {staleField});
    store.ZAdd(Name(Ips(sub)), e.ip, timestamp);
    store.ZAdd(Name(Uas(sub)), e.ua, timestamp);
    store.Expire(Name(Main(sub)));
    store.Expire(Name(Ips(sub)));
    store.Expire(Name(Uas(sub)));
    store.Expire(Name(Hours(sub)));
    var cutoff := timestamp - WINDOW_SECONDS;
    store.ZRemRangeByScore(Name(Ips(sub)), cutoff);
    store.ZRemRangeByScore(Name(Uas(sub)), cutoff);
  }

  method RecordForToken(store: Store, e: Event)
    modifies store`db
    ensures store.db == RecordToken(old(store.db), e, store.now)
  {
    hide Redis.HIncrBy, Redis.HDel, Redis.ZAdd, Redis.Expire, Redis.ZRemRangeByScore, Name, FormatInt;
    var timestamp, hour := Unix(e.now), HourBucket(e.now);
    var hourField, staleField := FormatInt(hour), FormatInt(hour - WINDOW_HOURS);
    var sub := Token(e.token);
    store.ZAdd(Name(TokenIndex), e.token, timestamp);
    store.HIncrBy(Name(Main(sub)), "count");
    store.HIncrBy(Name(Hours(sub)), hourField);
    store.HDel(Name(Hours(sub)), {staleField});
    store.ZAdd(Name(Ips(sub)), e.ip, timestamp);
    store.ZAdd(Name(Uas(sub)), e.ua, timestamp);
    store.ZAdd(Name(TokenPaths(e.token)), e.path, timestamp);
    store.Expire(Name(TokenIndex));
    store.Expire(Name(Main(sub)));
    store.Expire(Name(Ips(sub)));
    store.Expire(Name(Uas(sub)));
    store.Expire(Name(TokenPaths(e.token)));
    store.Expire(Name(Hours(sub)));
    var cutoff := timestamp - WINDOW_SECONDS;
    store.ZRemRangeByScore(Name(Ips(sub)), cutoff);
    store.ZRemRangeByScore(Name(Uas(sub)), cutoff);
    store.ZRemRangeByScore(Name(TokenPaths(e.token)), cutoff);
    store.ZRemRangeByScore(Name(TokenIndex), cutoff);
  }

  // A worker's writes, in the order it takes the events.
  function RecordedAll(db: Db, events: seq<Event>, now: Time): Db {
    if events == [] then db else Recorded(RecordedAll(db, events[..|events| - 1], now), events[|events| - 1], now)
  }

  // runWorker until the queue is empty.
  method RunWorker(store: Store, queue: EventQueue)
    modifies store`db, queue`events
    ensures queue.events == [] && store.db == RecordedAll(old(store.db), old(queue.events), store.now)
  {
    hide Recorded;
    ghost var events := queue.events;
    ghost var n := 0;
    while queue.events != []
      invariant n <= |events| && queue.events == events[n..]
      invariant store.db == RecordedAll(old(store.db), events[..n], store.now)
      decreases |queue.events|
    {
      var e := queue.Take();
      Record(store, e.value);
      assert events[..n + 1][..n] == events[..n];
      n := n + 1;
    }
    assert events[..n] == events;
  }

  // ------------------------------------------------------------ methods as parts of runs

  // A run that goes on from any state.
  ghost function Steps(cfg: Config, s: State, actions: seq<Action>): State {
    if actions == [] then s
    else Step(cfg, Steps(cfg, s, actions[..|actions| - 1]), actions[|actions| - 1])
  }

  lemma {:induction false} StepsConcat(cfg: Config, s: State, a: seq<Action>, b: seq<Action>)
    ensures Steps(cfg, s, a + b) == Steps(cfg, Steps(cfg, s, a), b)
  {
    hide Step;
    if b == [] {
      assert a + b == a;
    } else {
      assert (a + b)[..|a + b| - 1] == a + b[..|b| - 1];
      StepsConcat(cfg, s, a, b[..|b| - 1]);
    }
  }

  /** Steps from a state that a run reaches are steps of a longer run, so what is proved of runs holds
      after them. */
  lemma {:induction false} StepsAreRun(cfg: Config, a: seq<Action>, b: seq<Action>)
    ensures Steps(cfg, Run(cfg, a), b) == Run(cfg, a + b)
  {
    hide Step;
    if b == [] {
      assert a + b == a;
    } else {
      assert (a + b)[..|a + b| - 1] == a + b[..|b| - 1];
      StepsAreRun(cfg, a, b[..|b| - 1]);
    }
  }

  // One worker on its own, n times: take an event, write it.
  function Rounds(n: nat): seq<Action> {
    if n == 0 then [] else Rounds(n - 1) + [Take, Write(0)]
  }

  lemma TakeStep(cfg: Config, s: State)
    requires s.queue != [] && |s.held| < cfg.workers
    ensures Step(cfg, s, Take) == s.(queue := s.queue[1..], held := s.held + [s.queue[0]])
  {}

  lemma WriteStep(cfg: Config, s: State)
    requires |s.held| == 1
    ensures var s' := Step(cfg, s, Write(0));
      && s'.db == Recorded(s.db, s.held[0], s.now) && s'.log == s.log + [s.held[0]]
      && s'.queue == s.queue && s'.held == [] && s'.now == s.now
  {
    hide Recorded, Credit, Renew;
    assert s.held[..0] + s.held[1..] == [];
  }

  lemma OneRound(cfg: Config, s: State)
    requires s.queue != [] && s.held == [] && cfg.workers >= 1
    ensures var s' := Steps(cfg, s, [Take, Write(0)]);
      && s'.db == Recorded(s.db, s.queue[0], s.now) && s'.log == s.log + [s.queue[0]]
      && s'.queue == s.queue[1..] && s'.held == [] && s'.now == s.now
  {
    hide Recorded, Step;
    assert [Take, Write(0)][..1] == [Take];
    assert [Take][..0] == [];
    var taken := Step(cfg, s, Take);
    TakeStep(cfg, s);
    WriteStep(cfg, taken);
    assert Steps(cfg, s, [Take]) == taken;
    assert Steps(cfg, s, [Take, Write(0)]) == Step(cfg, taken, Write(0));
  }

  /** What a worker leaves in the store is what the steps of the state machine leave, taking and writing
      each queued event once and in order. */
  lemma {:induction false} WorkerIsRun(cfg: Config, s: State, n: nat)
    requires n <= |s.queue| && s.held == [] && cfg.workers >= 1
    ensures var s' := Steps(cfg, s, Rounds(n));
      && s'.db == RecordedAll(s.db, s.queue[..n], s.now) && s'.log == s.log + s.queue[..n]
      && s'.queue == s.queue[n..] && s'.held == [] && s'.now == s.now
  {
    hide Step, Recorded;
    if n > 0 {
      WorkerIsRun(cfg, s, n - 1);
      var before := Steps(cfg, s, Rounds(n - 1));
      StepsConcat(cfg, s, Rounds(n - 1), [Take, Write(0)]);
      OneRound(cfg, before);
      assert s.queue[..n][..n - 1] == s.queue[..n - 1];
    }
  }

  // ------------------------------------------------------------ cleaning

  // The window cleanup of a batch of keys, one after the other.
  function CleanedAll(db: Db, keys: seq<string>, at: Time): Db {
    if keys == [] then db
    else Cleaned(CleanedAll(db, keys[..|keys| - 1], at), keys[|keys| - 1], at)
  }

  lemma PruneKeeps(db: Db, key: string, since: int)
    ensures var before, after := Fetch(db, key), Fetch(Pruned(db, key, since), key);
      && (before.Some? && before.value.value.Hash? ==>
            IsHash(after) && (after.Some? ==> after.value.expiry == before.value.expiry))
      && (forall f :: f in Fields(after) <==>
            f in Fields(before) && ParseInt(f).Some? && ParseInt(f).value >= since)
      && (forall f :: f in Fields(after) ==> Fields(after)[f] == Fields(before)[f])
    ensures forall other :: other != key ==> Fetch(Pruned(db, key, since), other) == Fetch(db, other)
  {
    hide ParseInt;
    var before := Fields(Fetch(db, key));
    var stale := StaleFields(before, since);
    forall f | f in before ensures f in stale <==> Stale(f, since) {}
    assert Fields(Fetch(Pruned(db, key, since), key)) == before - stale;
  }

  method PruneHourBuckets(store: Store, key: string, sinceHour: int)
    modifies store`db
    ensures store.db == Pruned(old(store.db), key, sinceHour)
    ensures var before, after := Fields(old(Fetch(store.db, key))), Fields(Fetch(store.db, key));
      && (forall f :: f in after <==> f in before && ParseInt(f).Some? && ParseInt(f).value >= sinceHour)
      && (forall f :: f in after ==> after[f] == before[f])
    ensures forall other :: other != key ==> Fetch(store.db, other) == old(Fetch(store.db, other))
  {
    hide ParseInt;
    PruneKeeps(store.db, key, sinceHour);
    var buckets := Fields(Fetch(store.db, key));
    var stale: set<string> := {};
    var rest := buckets.Keys;
    while rest != {}
      invariant rest <= buckets.Keys
      invariant stale == set f | f in buckets.Keys - rest && Stale(f, sinceHour)
    {
      var field :| field in rest;
      var h := ParseInt(field);
      if h.None? || h.value < sinceHour {
        stale := stale + {field};
      }
      rest := rest - {field};
    }
    assert stale == StaleFields(buckets, sinceHour);
    if |stale| > 0 {
      store.HDel(key, stale);
    }
  }

  /** The prune of an hour hash is its late HDEL when nothing comes in between. */
  lemma PruneIsDropStale(cfg: Config, s: State, sub: Subject, at: Time)
    requires Fields(Fetch(s.db, Name(Hours(sub)))) != map[] && at <= s.now
    ensures var key := Name(Hours(sub));
      Step(cfg, s, CleanWindow(key, at)).db ==
        Step(cfg, s, DropStale(key, StaleFields(Fields(Fetch(s.db, key)), FirstHour(at)), at)).db
  {
    hide Name;
    HoursIsPruned(sub);
    var fields := Fields(Fetch(s.db, Name(Hours(sub))));
    assert fields - {} == fields;
  }

  /** A window step keeps exactly what a reader can still ask for: in a sorted set the members of the last
      172800 seconds, in an hour hash the 48 hours up to the present one. It leaves every other hash and
      every other key alone. */
  lemma CleanWindowKeeps(cfg: Config, s: State, key: string, at: Time)
    requires at <= s.now
    ensures var before, db := Fetch(s.db, key), Step(cfg, s, CleanWindow(key, at)).db;
      var after := Fetch(db, key);
      && (before.Some? && before.value.value.ZSet? ==>
            && IsZSet(after) && (after.Some? ==> after.value.expiry == before.value.expiry)
            && (after.None? <==> Scores(after) == map[])
            && (forall m :: m in Scores(after) <==>
                  m in Scores(before) && !(0 <= Scores(before)[m] <= at / 1_000_000_000 - 172_800))
            && (forall m :: m in Scores(after) ==> Scores(after)[m] == Scores(before)[m]))
      && (before.Some? && before.value.value.Hash? && HasSuffix(key, "::hours") ==>
            && IsHash(after) && (after.Some? ==> after.value.expiry == before.value.expiry)
            && (forall f :: f in Fields(after) <==>
                  f in Fields(before) && ParseInt(f).Some? && ParseInt(f).value > at / 3_600_000_000_000 - 48)
            && (forall f :: f in Fields(after) ==> Fields(after)[f] == Fields(before)[f]))
      && (before.None? || (before.value.value.Hash? && !HasSuffix(key, "::hours")) ==> after == before)
      && (forall other :: other != key ==> Fetch(db, other) == Fetch(s.db, other))
  {
    hide ParseInt, HasSuffix;
    assert HourBucket(at) == at / 3_600_000_000_000;
    var before := Fetch(s.db, key);
    assert Step(cfg, s, CleanWindow(key, at)).db == Cleaned(s.db, key, at);
    if before.Some? && before.value.value.ZSet? {
      TrimKeeps(before, FirstSecond(at));
    } else {
      PruneKeeps(s.db, key, FirstHour(at));
    }
  }

  lemma TrimKeeps(slot: Option<Slot>, max: int)
    requires slot.Some? && slot.value.value.ZSet?
    ensures var after := TrimScores(slot, max);
      && IsZSet(after) && (after.Some? ==> after.value.expiry == slot.value.expiry)
      && (after.None? <==> Scores(after) == map[])
      && (forall m :: m in Scores(after) <==> m in Scores(slot) && !(0 <= Scores(slot)[m] <= max))
      && (forall m :: m in Scores(after) ==> Scores(after)[m] == Scores(slot)[m])
  {
    var rest := map m | m in Scores(slot) && !(0 <= Scores(slot)[m] <= max) :: Scores(slot)[m];
    assert rest == Scores(TrimScores(slot, max));
  }

  method CleanWindows(store: Store, keys: seq<string>)
    modifies store`db
    ensures store.db == CleanedAll(old(store.db), keys, store.now)
  {
    var cutoff, sinceHour := FirstSecond(store.now), FirstHour(store.now);
    for i := 0 to |keys|
      invariant store.db == CleanedAll(old(store.db), keys[..i], store.now)
    {
      assert keys[..i + 1][..i] == keys[..i];
      var slot := Fetch(store.db, keys[i]);
      if slot.None? { continue; }
      match ActionFor(slot.value.value.ZSet?, keys[i])
      case TrimWindow => store.ZRemRangeByScore(keys[i], cutoff);
      case PruneHours => PruneHourBuckets(store, keys[i], sinceHour);
      case Skip =>
    }
    assert keys[..|keys|] == keys;
  }

  function WindowActions(keys: seq<string>, at: Time): seq<Action> {
    seq(|keys|, i requires 0 <= i < |keys| => CleanWindow(keys[i], at))
  }

  /** The window cleaner's pass over its keys is that many CleanWindow steps, which touch nothing but the store. */
  lemma {:induction false} WindowsAreSteps(cfg: Config, s: State, keys: seq<string>)
    ensures Steps(cfg, s, WindowActions(keys, s.now)) == s.(db := CleanedAll(s.db, keys, s.now))
  {
    hide Cleaned;
    if keys != [] {
      var init := keys[..|keys| - 1];
      assert WindowActions(keys, s.now)[..|keys| - 1] == WindowActions(init, s.now);
      WindowsAreSteps(cfg, s, init);
    }
  }

  // The keys of a batch that pass the filter, in the order they came.
  function MainKeysOf(keys: seq<string>): (r: seq<string>)
    ensures forall key :: key in r <==> key in keys && IsMainKey(key)
  {
    if keys == [] then []
    else
      assert keys == keys[..|keys| - 1] + [keys[|keys| - 1]];
      MainKeysOf(keys[..|keys| - 1]) + (if IsMainKey(keys[|keys| - 1]) then [keys[|keys| - 1]] else [])
  }

  /** The filter looks at each key by itself and keeps the order. */
  lemma {:induction false} FilterSplits(a: seq<string>, b: seq<string>, key: string)
    ensures MainKeysOf([]) == []
    ensures MainKeysOf([key]) == if IsMainKey(key) then [key] else []
    ensures MainKeysOf(a + b) == MainKeysOf(a) + MainKeysOf(b)
  {
    hide IsMainKey;
    assert [key][..0] == [];
    if b == [] {
      assert a + b == a;
    } else {
      assert (a + b)[..|a + b| - 1] == a + b[..|b| - 1];
      FilterSplits(a, b[..|b| - 1], key);
    }
  }

  method FilterMainKeys(keys: seq<string>) returns (mainKeys: seq<string>)
    ensures mainKeys == MainKeysOf(keys)
  {
    mainKeys := [];
    for i := 0 to |keys|
      invariant mainKeys == MainKeysOf(keys[..i])
    {
      assert keys[..i + 1][..i] == keys[..i];
      if IsMainKey(keys[i]) {
        mainKeys := mainKeys + [keys[i]];
      }
    }
    assert keys[..|keys|] == keys;
  }

  lemma DeletedPathIs(db: Db, path: string)
    ensures DeletedPath(db, path) ==
      db - {"stats::" + path, "stats::" + path + "::ips", "stats::" + path + "::uas", "stats::" + path + "::hours"}
  {}

  method DeletePathKeys(store: Store, path: string)
    modifies store`db
    ensures store.db == DeletedPath(old(store.db), path)
    ensures store.db == old(store.db)
      - {"stats::" + path, "stats::" + path + "::ips", "stats::" + path + "::uas", "stats::" + path + "::hours"}
  {
    hide Redis.Del, Name;
    DeletedPathIs(store.db, path);
    store.Del(Name(Main(Path(path))));
    store.Del(Name(Ips(Path(path))));
    store.Del(Name(Uas(Path(path))));
    store.Del(Name(Hours(Path(path))));
  }

  lemma LatestIsUnique(fields: map<string, int>, r: int)
    requires r >= 0 && forall f :: f in fields && ParseInt(f).Some? ==> ParseInt(f).value <= r
    requires r == 0 || exists f :: f in fields && ParseInt(f) == Some(r)
    ensures r == LatestHour(fields)
  {}

  // The latest bucket is too old exactly when every bucket is, and with it the hour 0 that stands for none.
  lemma AbandonedExactly(fields: map<string, int>, now: Time, inactive: int)
    ensures Abandoned(fields, now, inactive) <==>
      || fields == map[]
      || (now > inactive && forall f :: f in fields && ParseInt(f).Some? ==> now - ParseInt(f).value * HOUR > inactive)
  {
    hide ParseInt;
  }

  // The verdict of checkAndCleanKey on a main key.
  ghost predicate Condemned(db: Db, mainKey: string, cfg: Config, now: Time) {
    && LowCount(Fetch(db, mainKey), cfg.minCount)
    && Abandoned(Fields(Fetch(db, Name(Hours(Path(TrimPrefix(mainKey, "stats::")))))), now, cfg.inactive)
  }

  // The store after checkAndCleanKey, when nothing comes between its commands.
  ghost function Checked(db: Db, mainKey: string, cfg: Config, now: Time): Db {
    if Condemned(db, mainKey, cfg, now) then DeletedPath(db, TrimPrefix(mainKey, "stats::")) else db
  }

  method CheckAndCleanKey(store: Store, cfg: Config, mainKey: string) returns (cleaned: bool)
    modifies store`db
    ensures store.db == Checked(old(store.db), mainKey, cfg, store.now)
    ensures cleaned == Condemned(old(store.db), mainKey, cfg, store.now)
    ensures var main, path := old(Fields(Fetch(store.db, mainKey))), TrimPrefix(mainKey, "stats::");
      var buckets := old(Fields(Fetch(store.db, "stats::" + path + "::hours")));
      cleaned <==>
        && cfg.minCount > 0 && "count" in main && main["count"] < cfg.minCount
        && (buckets == map[]
            || (store.now > cfg.inactive
                && forall f :: f in buckets && ParseInt(f).Some? ==> store.now - ParseInt(f).value * HOUR > cfg.inactive))
    ensures !cleaned ==> store.db == old(store.db)
  {
    AbandonedExactly(Fields(Fetch(store.db, Name(Hours(Path(TrimPrefix(mainKey, "stats::")))))), store.now, cfg.inactive);
    assert Name(Hours(Path(TrimPrefix(mainKey, "stats::")))) == "stats::" + TrimPrefix(mainKey, "stats::") + "::hours";
    hide DeletedPath, Name, ParseInt;
    if cfg.minCount <= 0 { return false; }
    var main := Fields(Fetch(store.db, mainKey));
    if "count" !in main { return false; }
    if main["count"] >= cfg.minCount { return false; }

    var path := TrimPrefix(mainKey, "stats::");
    var buckets := Fields(Fetch(store.db, Name(Hours(Path(path)))));
    if |buckets| == 0 {
      DeletePathKeys(store, path);
      return true;
    }
    var lastHour := 0;
    var rest := buckets.Keys;
    while rest != {}
      invariant rest <= buckets.Keys && lastHour >= 0
      invariant forall f :: f in buckets.Keys - rest && ParseInt(f).Some? ==> ParseInt(f).value <= lastHour
      invariant lastHour == 0 || exists f :: f in buckets && ParseInt(f) == Some(lastHour)
    {
      var field :| field in rest;
      var h := ParseInt(field);
      if h.Some? && h.value > lastHour {
        lastHour := h.value;
      }
      rest := rest - {field};
    }
    LatestIsUnique(buckets, lastHour);
    if store.now - lastHour * HOUR <= cfg.inactive { return false; }
    DeletePathKeys(store, path);
    return true;
  }

  /** With nothing in between, checkAndCleanKey is the three cleaner steps of StatSystem, so every
      guarantee over its runs covers whole batches. */
  lemma CheckIsThreeSteps(cfg: Config, s: State, key: string)
    requires s.cleaner.Idle? && IsMainKey(key)
    ensures var s1 := Step(cfg, s, ReadCount(key));
      var s2 := Step(cfg, s1, ReadHours);
      var s3 := Step(cfg, s2, Delete);
      s3.db == Checked(s.db, key, cfg, s.now) && s3.cleaner.Idle?
  {
    hide Step, Name, DeletedPath, Abandoned, LowCount, TrimPrefix, IsMainKey;
    ReadCountStep(cfg, s, key);
    var s1 := Step(cfg, s, ReadCount(key));
    ReadHoursStep(cfg, s1);
    DeleteStep(cfg, Step(cfg, s1, ReadHours));
  }

  ghost function CheckedAll(db: Db, mainKeys: seq<string>, cfg: Config, now: Time): Db {
    if mainKeys == [] then db
    else Checked(CheckedAll(db, mainKeys[..|mainKeys| - 1], cfg, now), mainKeys[|mainKeys| - 1], cfg, now)
  }

  // How many keys of a batch are deleted.
  ghost function CondemnedCount(db: Db, mainKeys: seq<string>, cfg: Config, now: Time): nat {
    if mainKeys == [] then 0
    else
      var before := mainKeys[..|mainKeys| - 1];
      CondemnedCount(db, before, cfg, now)
        + (if Condemned(CheckedAll(db, before, cfg, now), mainKeys[|mainKeys| - 1], cfg, now) then 1 else 0)
  }

  function CheckActions(key: string): seq<Action> {
    [ReadCount(key), ReadHours, Delete]
  }

  function ChecksActions(keys: seq<string>): seq<Action> {
    if keys == [] then [] else ChecksActions(keys[..|keys| - 1]) + CheckActions(keys[|keys| - 1])
  }

  // The check of the i-th key, begun after those before it, comes to a deletion.
  ghost predicate Dooms(cfg: Config, s: State, keys: seq<string>, i: nat)
    requires i < |keys|
  {
    Steps(cfg, s, ChecksActions(keys[..i]) + [ReadCount(keys[i]), ReadHours]).cleaner.Doomed?
  }

  lemma OneCheck(cfg: Config, s: State, key: string)
    requires s.cleaner.Idle? && IsMainKey(key)
    ensures var s' := Steps(cfg, s, CheckActions(key));
      s'.db == Checked(s.db, key, cfg, s.now) && s'.cleaner.Idle? && s'.now == s.now
    ensures Steps(cfg, s, [ReadCount(key), ReadHours]).cleaner.Doomed? <==> Condemned(s.db, key, cfg, s.now)
  {
    hide Step, Name, DeletedPath, Abandoned, LowCount, TrimPrefix, IsMainKey;
    var actions := CheckActions(key);
    assert actions[..2] == [ReadCount(key), ReadHours];
    assert actions[..2][..1] == [ReadCount(key)];
    assert [ReadCount(key)][..0] == [];
    ReadCountStep(cfg, s, key);
    var s1 := Step(cfg, s, ReadCount(key));
    assert Steps(cfg, s, [ReadCount(key)]) == s1;
    ReadHoursStep(cfg, s1);
    var s2 := Step(cfg, s1, ReadHours);
    assert Steps(cfg, s, [ReadCount(key), ReadHours]) == s2;
    DeleteStep(cfg, s2);
    assert Steps(cfg, s, actions) == Step(cfg, s2, Delete);
  }

  /** The checks of a batch are steps of the state machine. */
  lemma {:induction false} ChecksAreSteps(cfg: Config, s: State, keys: seq<string>)
    requires s.cleaner.Idle? && forall i :: 0 <= i < |keys| ==> IsMainKey(keys[i])
    ensures var s' := Steps(cfg, s, ChecksActions(keys));
      s'.db == CheckedAll(s.db, keys, cfg, s.now) && s'.cleaner.Idle? && s'.now == s.now
  {
    hide Step, Checked, IsMainKey;
    if keys != [] {
      var init, last := keys[..|keys| - 1], keys[|keys| - 1];
      ChecksAreSteps(cfg, s, init);
      StepsConcat(cfg, s, ChecksActions(init), CheckActions(last));
      OneCheck(cfg, Steps(cfg, s, ChecksActions(init)), last);
    }
  }

  lemma DoomsIsCondemned(cfg: Config, s: State, keys: seq<string>, i: nat)
    requires s.cleaner.Idle? && i < |keys| && forall j :: 0 <= j < |keys| ==> IsMainKey(keys[j])
    ensures Dooms(cfg, s, keys, i) <==> Condemned(CheckedAll(s.db, keys[..i], cfg, s.now), keys[i], cfg, s.now)
  {
    hide Step, Steps, ChecksActions, CheckedAll, Condemned, IsMainKey;
    ChecksAreSteps(cfg, s, keys[..i]);
    StepsConcat(cfg, s, ChecksActions(keys[..i]), [ReadCount(keys[i]), ReadHours]);
    OneCheck(cfg, Steps(cfg, s, ChecksActions(keys[..i])), keys[i]);
  }

  lemma DoomsEarly(cfg: Config, s: State, keys: seq<string>, n: nat, i: nat)
    requires i < n <= |keys|
    ensures Dooms(cfg, s, keys, i) <==> Dooms(cfg, s, keys[..n], i)
  {
    hide Step, Steps, ChecksActions;
    assert keys[..i] == keys[..n][..i] && keys[i] == keys[..n][i];
  }

  /** As many paths are reported as deleted as there are checks that come to a deletion. */
  lemma {:induction false} DeletionsAreCounted(cfg: Config, s: State, keys: seq<string>)
    requires s.cleaner.Idle? && forall i :: 0 <= i < |keys| ==> IsMainKey(keys[i])
    ensures CondemnedCount(s.db, keys, cfg, s.now) == |set i | 0 <= i < |keys| && Dooms(cfg, s, keys, i)|
  {
    hide Dooms, Condemned, Checked, CheckedAll, IsMainKey, Steps, Step;
    var doomed := set i | 0 <= i < |keys| && Dooms(cfg, s, keys, i);
    if keys == [] {
      assert doomed == {};
    } else {
      var n := |keys| - 1;
      var init := keys[..n];
      DeletionsAreCounted(cfg, s, init);
      DoomsIsCondemned(cfg, s, keys, n);
      forall i | 0 <= i < n ensures Dooms(cfg, s, keys, i) <==> Dooms(cfg, s, init, i) {
        DoomsEarly(cfg, s, keys, n, i);
      }
      var earlier := set i | 0 <= i < n && Dooms(cfg, s, init, i);
      assert doomed == if Dooms(cfg, s, keys, n) then earlier + {n} else earlier;
    }
  }

  /** A whole batch, when nothing comes in between, is a list of cleaner steps. */
  lemma BatchIsRun(cfg: Config, s: State, keys: seq<string>)
    requires s.cleaner.Idle?
    ensures var s' := Steps(cfg, s, WindowActions(keys, s.now) + ChecksActions(MainKeysOf(keys)));
      && s'.db == CheckedAll(CleanedAll(s.db, keys, s.now), MainKeysOf(keys), cfg, s.now)
      && s'.cleaner.Idle? && s'.now == s.now
    ensures var trimmed := Steps(cfg, s, WindowActions(keys, s.now));
      CondemnedCount(trimmed.db, MainKeysOf(keys), cfg, s.now) ==
        |set i | 0 <= i < |MainKeysOf(keys)| && Dooms(cfg, trimmed, MainKeysOf(keys), i)|
  {
    hide Step, CleanedAll, CheckedAll, IsMainKey;
    var mainKeys := MainKeysOf(keys);
    WindowsAreSteps(cfg, s, keys);
    StepsConcat(cfg, s, WindowActions(keys, s.now), ChecksActions(mainKeys));
    forall i | 0 <= i < |mainKeys| ensures IsMainKey(mainKeys[i]) {
      assert mainKeys[i] in mainKeys;
    }
    ChecksAreSteps(cfg, Steps(cfg, s, WindowActions(keys, s.now)), mainKeys);
    DeletionsAreCounted(cfg, Steps(cfg, s, WindowActions(keys, s.now)), mainKeys);
  }

  // One scanned batch of doCleanup: trim and prune first, then look at the main keys.
  method CleanBatch(store: Store, cfg: Config, keys: seq<string>) returns (pathsDeleted: nat)
    modifies store`db
    ensures var trimmed := CleanedAll(old(store.db), keys, store.now);
      && store.db == CheckedAll(trimmed, MainKeysOf(keys), cfg, store.now)
      && pathsDeleted == CondemnedCount(trimmed, MainKeysOf(keys), cfg, store.now)
  {
    hide Checked, Condemned;
    CleanWindows(store, keys);
    ghost var trimmed := store.db;
    var mainKeys := FilterMainKeys(keys);
    pathsDeleted := 0;
    for i := 0 to |mainKeys|
      invariant store.db == CheckedAll(trimmed, mainKeys[..i], cfg, store.now)
      invariant pathsDeleted == CondemnedCount(trimmed, mainKeys[..i], cfg, store.now)
    {
      assert mainKeys[..i + 1][..i] == mainKeys[..i];
      var cleaned := CheckAndCleanKey(store, cfg, mainKeys[i]);
      if cleaned {
        pathsDeleted := pathsDeleted + 1;
      }
    }
    assert mainKeys[..|mainKeys|] == mainKeys;
  }

  // ------------------------------------------------------------ reading

  // The members with a score of at least `since`, each once, in byte order.
  ghost predicate Lists(members: seq<string>, scores: map<string, int>, since: int) {
    && (forall m :: m in members <==> m in scores && scores[m] >= since)
    && (forall i, j :: 0 <= i < j < |members| ==> LessEq(members[i], members[j]) && members[i] != members[j])
  }

  lemma AscendingLists(slot: Option<Slot>, since: int)
    ensures Lists(Ascending(RangeFrom(slot, since)), Scores(slot), since)
  {
    hide Ascending, LessEq;
    forall m ensures m in Ascending(RangeFrom(slot, since)) <==> m in Scores(slot) && Scores(slot)[m] >= since {
      AscendingMembers(RangeFrom(slot, since), m);
    }
    AscendingIsDistinct(RangeFrom(slot, since));
  }

  method ReadMembers(store: Store, key: string, since: int) returns (members: seq<string>)
    ensures members == Ascending(RangeFrom(Fetch(store.db, key), since))
    ensures Lists(members, Scores(Fetch(store.db, key)), since)
  {
    AscendingLists(Fetch(store.db, key), since);
    var found := store.ZRangeByScore(key, since);
    members := SortStrings(found);
    SortEnumeration(RangeFrom(Fetch(store.db, key), since), found);
  }

  /** A report, spelled out: the running count, the 48 hourly totals and their sum, and for each sorted set
      the members seen in the last 172800 seconds. */
  lemma ReportShows(db: Db, sub: Subject, at: Time)
    ensures var main, report := Fields(Fetch(db, Name(Main(sub)))), ReadSubject(db, sub, at);
      && report.count == (if "count" in main then main["count"] else 0)
      && report.count48h == SumSeq(report.hourly) && |report.hourly| == 48
      && (forall i :: 0 <= i < 48 ==>
            report.hourly[i] == HourTotal(HGetAll(Fetch(db, Name(Hours(sub)))), at / 3_600_000_000_000 - 47 + i))
      && Lists(report.ips, Scores(Fetch(db, Name(Ips(sub)))), at / 1_000_000_000 - 172_800)
      && Lists(report.uas, Scores(Fetch(db, Name(Uas(sub)))), at / 1_000_000_000 - 172_800)
      && match sub
         case Path(_) => report.paths == []
         case Token(t) => Lists(report.paths, Scores(Fetch(db, Name(TokenPaths(t)))), at / 1_000_000_000 - 172_800)
  {
    hide Ascending, RangeFrom, Lists, SumSeq, HourTotal, HGetAll, Name, Fetch, Scores;
    assert HourBucket(at) == at / 3_600_000_000_000;
    AscendingLists(Fetch(db, Name(Ips(sub))), FirstSecond(at));
    AscendingLists(Fetch(db, Name(Uas(sub))), FirstSecond(at));
    if sub.Token? {
      AscendingLists(Fetch(db, Name(TokenPaths(sub.name))), FirstSecond(at));
    }
  }

  method ReadReport(store: Store, sub: Subject, at: Time) returns (report: Report)
    ensures report == ReadSubject(store.db, sub, at)
  {
    hide Histogram, Ascending, RangeFrom, Lists;
    var main := Fields(Fetch(store.db, Name(Main(sub))));
    var count := if "count" in main then main["count"] else 0;
    var since := FirstSecond(at);
    var ips := ReadMembers(store, Name(Ips(sub)), since);
    var uas := ReadMembers(store, Name(Uas(sub)), since);
    var paths: seq<string> := [];
    if sub.Token? {
      paths := ReadMembers(store, Name(TokenPaths(sub.name)), since);
    }
    var count48h, hourly := SummarizeHours(HGetAll(Fetch(store.db, Name(Hours(sub)))), HourBucket(at));
    report := Report(count, count48h, ips, uas, paths, hourly);
  }

  /** pathStats over the keys of a scan: one report for each listed path. */
  method PathStats(store: Store, keys: seq<string>, at: Time) returns (result: map<string, Report>)
    ensures result.Keys == ListedPaths(keys)
    ensures forall p :: p in result ==> result[p] == ReadSubject(store.db, Path(p), at)
  {
    hide ReadSubject, IsMainKey, MainKeysOf, Lists, HGetAll, HourTotal, SumSeq, Fetch, Fields, Scores, Name, TrimPrefix;
    var mainKeys := FilterMainKeys(keys);
    result := map[];
    for i := 0 to |mainKeys|
      invariant result.Keys == set j | 0 <= j < i :: TrimPrefix(mainKeys[j], "stats::")
      invariant forall p :: p in result ==> result[p] == ReadSubject(store.db, Path(p), at)
    {
      var path := TrimPrefix(mainKeys[i], "stats::");
      var report := ReadReport(store, Path(path), at);
      result := result[path := report];
    }
    forall p ensures p in result.Keys <==> p in ListedPaths(keys) {
      if p in ListedPaths(keys) {
        var i :| 0 <= i < |keys| && IsMainKey(keys[i]) && p == TrimPrefix(keys[i], "stats::");
        assert keys[i] in mainKeys;
      }
      if p in result.Keys {
        var j :| 0 <= j < |mainKeys| && p == TrimPrefix(mainKeys[j], "stats::");
        assert mainKeys[j] in keys && IsMainKey(mainKeys[j]);
      }
    }
  }

  method ReadTokens(store: Store, at: Time) returns (tokens: seq<string>)
    ensures tokens == Ascending(ListedTokens(store.db, at))
  {
    tokens := ReadMembers(store, Name(TokenIndex), FirstSecond(at));
  }

  lemma ListedTokensAre(db: Db, at: Time)
    ensures var index := Scores(Fetch(db, Name(TokenIndex)));
      forall t :: t in ListedTokens(db, at) <==> t in index && index[t] >= at / 1_000_000_000 - 172_800
  {}

  /** tokenStats: one report for each token the index lists. */
  method TokenStats(store: Store, at: Time) returns (result: map<string, Report>)
    ensures result.Keys == ListedTokens(store.db, at)
    ensures var index := Scores(Fetch(store.db, Name(TokenIndex)));
      forall t :: t in result <==> t in index && index[t] >= at / 1_000_000_000 - 172_800
    ensures forall t :: t in result ==> result[t] == ReadSubject(store.db, Token(t), at)
  {
    hide ReadSubject, ListedTokens, Ascending, Name, Lists, HGetAll, HourTotal, SumSeq;
    ListedTokensAre(store.db, at);
    var tokens := ReadTokens(store, at);
    result := map[];
    for i := 0 to |tokens|
      invariant result.Keys == set j | 0 <= j < i :: tokens[j]
      invariant forall t :: t in result ==> result[t] == ReadSubject(store.db, Token(t), at)
    {
      var report := ReadReport(store, Token(tokens[i]), at);
      result := result[tokens[i] := report];
    }
    forall t ensures t in result.Keys <==> t in ListedTokens(store.db, at) {
      AscendingMembers(ListedTokens(store.db, at), t);
      assert t in tokens <==> exists j :: 0 <= j < |tokens| && tokens[j] == t;
    }
  }
}
