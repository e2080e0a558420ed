/** Every action keeps the invariant of StatSystem, and so every run does. */
module StatProofs {
  import opened Wrappers
  import opened Strings
  import opened Redis
  import opened StatKeys
  import opened Clock
  import opened Decimal
  import opened Recording
  import opened StatSystem

  // ------------------------------------------------------------ one more event

  lemma TallyAppend(events: seq<Event>, e: Event, hour: int)
    ensures Tally(events + [e], hour) == Tally(events, hour) + (if HourBucket(e.now) == hour then 1 else 0)
  {}

  lemma AboutAppend(log: seq<Event>, e: Event, sub: Subject)
    ensures About(log + [e], sub) == About(log, sub) + (if Concerns(e, sub) then [e] else [])
  {}

  lemma LastSeenAppend(events: seq<Event>, e: Event, col: Column, m: string)
    ensures LastSeen(events + [e], col, m) == if Member(e, col) == m then Some(Unix(e.now)) else LastSeen(events, col, m)
  {}

  lemma {:induction false} TallyWithin(events: seq<Event>, hour: int, lo: int, hi: int)
    requires forall e :: e in events ==> lo <= HourBucket(e.now) <= hi
    requires hour < lo || hour > hi
    ensures Tally(events, hour) == 0
  {
    if events != [] {
      assert events[|events| - 1] in events;
      TallyWithin(events[..|events| - 1], hour, lo, hi);
    }
  }

  lemma {:induction false} TallySplit(a: seq<Event>, b: seq<Event>, hour: int)
    ensures Tally(a + b, hour) == Tally(a, hour) + Tally(b, hour)
  {
    if b == [] {
      assert a + b == a;
    } else {
      assert (a + b)[..|a + b| - 1] == a + b[..|b| - 1];
      TallySplit(a, b[..|b| - 1], hour);
    }
  }

  // ------------------------------------------------------------ single keys

  lemma BucketBumped(slot: Option<Slot>, e: Event, now: Time, h: int)
    requires IsHash(slot)
    ensures Bucket(BumpHour(slot, e, now), h) ==
      if h == HourBucket(e.now) then Bucket(slot, h) + 1
      else if h == HourBucket(e.now) - WINDOW_HOURS then 0
      else Bucket(slot, h)
  {
    var hour := HourBucket(e.now);
    if FormatInt(h) == FormatInt(hour) { FormatInjective(h, hour); }
    if FormatInt(h) == FormatInt(hour - WINDOW_HOURS) { FormatInjective(h, hour - WINDOW_HOURS); }
    if FormatInt(hour) == FormatInt(hour - WINDOW_HOURS) { FormatInjective(hour, hour - WINDOW_HOURS); }
  }

  lemma HoursBumped(slot: Option<Slot>, kept: seq<Event>, expiry: int, e: Event, now: Time)
    requires HoursOk(slot, kept, expiry, now) && e.now <= now
    ensures HoursOk(BumpHour(slot, e, now), kept + [e], now + TTL, now)
  {
    var after, hour := BumpHour(slot, e, now), HourBucket(e.now);
    ParseInverse(hour);
    forall h ensures 0 <= Bucket(after, h) <= Tally(kept + [e], h) && (h >= FirstHour(now) ==> Bucket(after, h) == Tally(kept + [e], h)) {
      BucketBumped(slot, e, now, h);
      TallyAppend(kept, e, h);
    }
    forall f | f in Fields(after) ensures HourField(f, now) && Fields(after)[f] >= 1 {
      if f != FormatInt(hour) {
        assert f in Fields(slot);
      }
    }
  }

  lemma HoursPruned(slot: Option<Slot>, kept: seq<Event>, expiry: int, at: Time, now: Time)
    requires HoursOk(slot, kept, expiry, now) && at <= now
    ensures HoursOk(DropFields(slot, StaleFields(Fields(slot), FirstHour(at))), kept, expiry, now)
  {
    HoursDropped(slot, kept, expiry, StaleFields(Fields(slot), FirstHour(at)), at, now);
  }

  lemma HoursDropped(slot: Option<Slot>, kept: seq<Event>, expiry: int, fields: set<string>, at: Time, now: Time)
    requires HoursOk(slot, kept, expiry, now) && at <= now && AllStale(fields, FirstHour(at))
    ensures HoursOk(DropFields(slot, fields), kept, expiry, now)
  {
    var after := DropFields(slot, fields);
    forall h ensures Bucket(after, h) == Bucket(slot, h) || (h < FirstHour(at) && Bucket(after, h) == 0) {
      ParseInverse(h);
    }
    ClockMonotone(at, now);
  }

  lemma SightAdded(slot: Option<Slot>, col: Column, kept: seq<Event>, e: Event, now: Time)
    requires SightOk(slot, col, kept, now) && e.now <= now
    ensures SightOk(Sight(slot, Member(e, col), e, now), col, kept + [e], now)
    ensures Member(e, col) in Scores(Sight(slot, Member(e, col), e, now))
    ensures ExpiresAt(Sight(slot, Member(e, col), e, now), now + TTL)
  {
    hide LastSeen, Unix, SightOk;
    var added := SetExpiry(AddMember(slot, Member(e, col), Unix(e.now)), now + TTL);
    MemberAdded(slot, col, kept, e, now);
    SightTrimmed(added, col, kept + [e], e.now, now);
    NewestStays(added, Member(e, col), Unix(e.now));
  }

  lemma MemberAdded(slot: Option<Slot>, col: Column, kept: seq<Event>, e: Event, now: Time)
    requires SightOk(slot, col, kept, now)
    ensures var added := SetExpiry(AddMember(slot, Member(e, col), Unix(e.now)), now + TTL);
      && SightOk(added, col, kept + [e], now) && ExpiresAt(added, now + TTL)
      && Member(e, col) in Scores(added) && Scores(added)[Member(e, col)] == Unix(e.now)
  {
    hide LastSeen, Unix;
    forall m ensures LastSeen(kept + [e], col, m) == if Member(e, col) == m then Some(Unix(e.now)) else LastSeen(kept, col, m) {
      LastSeenAppend(kept, e, col, m);
    }
  }

  lemma NewestStays(slot: Option<Slot>, m: string, score: int)
    requires m in Scores(slot) && Scores(slot)[m] == score
    ensures m in Scores(TrimScores(slot, score - WINDOW_SECONDS))
    ensures forall expiry :: ExpiresAt(slot, expiry) ==> ExpiresAt(TrimScores(slot, score - WINDOW_SECONDS), expiry)
  {}

  lemma SightTrimmed(slot: Option<Slot>, col: Column, kept: seq<Event>, at: Time, now: Time)
    requires SightOk(slot, col, kept, now) && at <= now
    ensures SightOk(TrimScores(slot, FirstSecond(at)), col, kept, now)
  {}

  lemma SightLater(slot: Option<Slot>, col: Column, kept: seq<Event>, now: Time, to: Time)
    requires SightOk(slot, col, kept, now) && now <= to
    ensures SightOk(slot, col, kept, to)
  {}

  lemma HoursLater(slot: Option<Slot>, kept: seq<Event>, expiry: int, now: Time, to: Time)
    requires HoursOk(slot, kept, expiry, now) && now <= to
    ensures HoursOk(slot, kept, expiry, to)
  {}

  // ------------------------------------------------------------ the keys of one subject

  lemma GroupRecorded(w: World, db: Db, now: Time, sub: Subject, kept: seq<Event>, expiry: int, e: Event)
    requires sub in w && EventIn(w, e) && e.now <= now
    requires GroupOk(db, now, sub, kept, expiry) && forall d :: d in kept ==> d.now <= now
    ensures Concerns(e, sub) ==> GroupOk(Recorded(db, e, now), now, sub, kept + [e], now + TTL)
    ensures !Concerns(e, sub) ==> GroupOk(Recorded(db, e, now), now, sub, kept, expiry)
  {
    hide Recorded, Name, HoursOk, SightOk, MainOk, BumpCount, BumpHour, Sight;
    RecordedAt(w, db, e, now, Main(sub));
    RecordedAt(w, db, e, now, Hours(sub));
    RecordedAt(w, db, e, now, Ips(sub));
    RecordedAt(w, db, e, now, Uas(sub));
    if sub.Token? {
      RecordedAt(w, db, e, now, TokenPaths(sub.name));
    }
    if Concerns(e, sub) {
      GroupBumped(db, now, sub, kept, expiry, e);
    }
  }

  lemma NothingKept(col: Column, now: Time)
    ensures HoursOk(None, [], 0, now) && SightOk(None, col, [], now)
  {}

  lemma CountBumped(slot: Option<Slot>, sub: Subject, kept: seq<Event>, expiry: int, now: Time)
    requires if kept == [] then slot.None? else MainOk(slot, sub, |kept|, expiry)
    ensures MainOk(BumpCount(slot, now), sub, |kept| + 1, now + TTL)
  {
    hide Steady;
    assert map["count" := |kept|]["count" := |kept| + 1] == map["count" := |kept| + 1];
    assert map[]["count" := 1] == map["count" := 1];
  }

  lemma GroupBumped(db: Db, now: Time, sub: Subject, kept: seq<Event>, expiry: int, e: Event)
    requires Concerns(e, sub) && e.now <= now && GroupOk(db, now, sub, kept, expiry)
    ensures MainOk(BumpCount(Fetch(db, Name(Main(sub))), now), sub, |kept| + 1, now + TTL)
    ensures HoursOk(BumpHour(Fetch(db, Name(Hours(sub))), e, now), kept + [e], now + TTL, now)
    ensures var ips, uas := Fetch(db, Name(Ips(sub))), Fetch(db, Name(Uas(sub)));
      && SightOk(Sight(ips, e.ip, e, now), ByIp, kept + [e], now) && ExpiresAt(Sight(ips, e.ip, e, now), now + TTL)
      && SightOk(Sight(uas, e.ua, e, now), ByUa, kept + [e], now) && ExpiresAt(Sight(uas, e.ua, e, now), now + TTL)
    ensures sub.Token? ==>
      var paths := Fetch(db, Name(TokenPaths(sub.name)));
      && SightOk(Sight(paths, e.path, e, now), ByPath, kept + [e], now) && ExpiresAt(Sight(paths, e.path, e, now), now + TTL)
  {
    hide Name, HoursOk, SightOk, MainOk, BumpCount, BumpHour, Sight;
    NothingKept(ByIp, now);
    NothingKept(ByUa, now);
    NothingKept(ByPath, now);
    CountBumped(Fetch(db, Name(Main(sub))), sub, kept, expiry, now);
    HoursBumped(Fetch(db, Name(Hours(sub))), kept, if kept == [] then 0 else expiry, e, now);
    SightAdded(Fetch(db, Name(Ips(sub))), ByIp, kept, e, now);
    SightAdded(Fetch(db, Name(Uas(sub))), ByUa, kept, e, now);
    if sub.Token? {
      SightAdded(Fetch(db, Name(TokenPaths(sub.name))), ByPath, kept, e, now);
    }
  }

  // The hashes that the window cleaner prunes: the hour hashes, and the counters of unsteady subjects.
  predicate TakenForHours(k: StatKey) {
    k.Hours? || (k.Main? && !Steady(k.sub))
  }

  // What the window cleaner does to the key of a given kind.
  lemma CleanedAt(db: Db, key: string, at: Time, k: StatKey)
    requires IsZSet(Fetch(db, Name(k))) || (IsHash(Fetch(db, Name(k))) && (k.Main? || k.Hours?))
    ensures var slot := Fetch(db, Name(k));
      Fetch(Cleaned(db, key, at), Name(k)) ==
        if key != Name(k) || slot.None? then slot
        else if slot.value.value.ZSet? then TrimScores(slot, FirstSecond(at))
        else if TakenForHours(k) && StaleFields(Fields(slot), FirstHour(at)) != {}
        then DropFields(slot, StaleFields(Fields(slot), FirstHour(at)))
        else slot
  {
    hide Name, HasSuffix;
    if key == Name(k) && k.Hours? {
      HoursIsPruned(k.sub);
    }
  }

  lemma MainDropped(slot: Option<Slot>, sub: Subject, count: nat, expiry: int, fields: set<string>)
    requires MainOk(slot, sub, count, expiry) && !Steady(sub)
    ensures MainOk(DropFields(slot, fields), sub, count, expiry)
  {
    hide Steady;
  }

  lemma GroupCleaned(db: Db, now: Time, sub: Subject, kept: seq<Event>, expiry: int, key: string, at: Time)
    requires at <= now && GroupOk(db, now, sub, kept, expiry)
    ensures GroupOk(Cleaned(db, key, at), now, sub, kept, expiry)
  {
    hide Name, HoursOk, Cleaned, SightOk, MainOk, StaleFields, Steady;
    CleanedGroupKeys(db, now, sub, kept, expiry, key, at);
    if kept != [] {
      HoursPruned(Fetch(db, Name(Hours(sub))), kept, expiry, at, now);
      SightTrimmed(Fetch(db, Name(Ips(sub))), ByIp, kept, at, now);
      SightTrimmed(Fetch(db, Name(Uas(sub))), ByUa, kept, at, now);
      if !Steady(sub) {
        var main := Fetch(db, Name(Main(sub)));
        MainDropped(main, sub, |kept|, expiry, StaleFields(Fields(main), FirstHour(at)));
      }
      if sub.Token? {
        SightTrimmed(Fetch(db, Name(TokenPaths(sub.name))), ByPath, kept, at, now);
      }
    }
  }

  lemma CleanedGroupKeys(db: Db, now: Time, sub: Subject, kept: seq<Event>, expiry: int, key: string, at: Time)
    requires GroupOk(db, now, sub, kept, expiry)
    ensures var slot := Fetch(db, Name(Main(sub)));
      Fetch(Cleaned(db, key, at), Name(Main(sub))) in
        if Steady(sub) then {slot} else {slot, DropFields(slot, StaleFields(Fields(slot), FirstHour(at)))}
    ensures var slot := Fetch(db, Name(Hours(sub)));
      Fetch(Cleaned(db, key, at), Name(Hours(sub))) in {slot, DropFields(slot, StaleFields(Fields(slot), FirstHour(at)))}
    ensures var slot := Fetch(db, Name(Ips(sub)));
      Fetch(Cleaned(db, key, at), Name(Ips(sub))) in {slot, TrimScores(slot, FirstSecond(at))}
    ensures var slot := Fetch(db, Name(Uas(sub)));
      Fetch(Cleaned(db, key, at), Name(Uas(sub))) in {slot, TrimScores(slot, FirstSecond(at))}
    ensures sub.Token? ==> var slot := Fetch(db, Name(TokenPaths(sub.name)));
      Fetch(Cleaned(db, key, at), Name(TokenPaths(sub.name))) in {slot, TrimScores(slot, FirstSecond(at))}
  {
    hide Name, Cleaned, StaleFields, DropFields, TrimScores, Steady;
    CleanedAt(db, key, at, Main(sub));
    CleanedAt(db, key, at, Hours(sub));
    CleanedAt(db, key, at, Ips(sub));
    CleanedAt(db, key, at, Uas(sub));
    if sub.Token? {
      CleanedAt(db, key, at, TokenPaths(sub.name));
    }
  }

  // A late HDEL of stale fields reaches the same hashes only.
  lemma DroppedAt(db: Db, key: string, fields: set<string>, k: StatKey)
    requires HasSuffix(key, "::hours")
    requires IsZSet(Fetch(db, Name(k))) || (IsHash(Fetch(db, Name(k))) && (k.Main? || k.Hours?))
    ensures Fetch(HDel(db, key, fields), Name(k)) in
      if TakenForHours(k) then {Fetch(db, Name(k)), DropFields(Fetch(db, Name(k)), fields)} else {Fetch(db, Name(k))}
  {
    hide Name, HasSuffix;
  }

  lemma GroupDropped(db: Db, now: Time, sub: Subject, kept: seq<Event>, expiry: int, key: string, fields: set<string>, at: Time)
    requires at <= now && GroupOk(db, now, sub, kept, expiry)
    requires HasSuffix(key, "::hours") && AllStale(fields, FirstHour(at))
    ensures GroupOk(HDel(db, key, fields), now, sub, kept, expiry)
  {
    hide Name, HoursOk, SightOk, MainOk, AllStale, HDel, DropFields, HasSuffix, Steady;
    GroupTypes(db, now, sub, kept, expiry);
    DroppedAt(db, key, fields, Main(sub));
    DroppedAt(db, key, fields, Hours(sub));
    DroppedAt(db, key, fields, Ips(sub));
    DroppedAt(db, key, fields, Uas(sub));
    if sub.Token? {
      DroppedAt(db, key, fields, TokenPaths(sub.name));
    }
    if kept != [] {
      HoursDropped(Fetch(db, Name(Hours(sub))), kept, expiry, fields, at, now);
      if !Steady(sub) {
        MainDropped(Fetch(db, Name(Main(sub))), sub, |kept|, expiry, fields);
      }
    } else {
      assert DropFields(None, fields) == None by { NothingToDrop(fields); }
    }
  }

  lemma GroupTypes(db: Db, now: Time, sub: Subject, kept: seq<Event>, expiry: int)
    requires GroupOk(db, now, sub, kept, expiry)
    ensures IsHash(Fetch(db, Name(Main(sub)))) && IsHash(Fetch(db, Name(Hours(sub))))
    ensures IsZSet(Fetch(db, Name(Ips(sub)))) && IsZSet(Fetch(db, Name(Uas(sub))))
    ensures sub.Token? ==> IsZSet(Fetch(db, Name(TokenPaths(sub.name))))
  {
    hide Name;
  }

  lemma NothingToDrop(fields: set<string>)
    ensures DropFields(None, fields) == None
  {}

  // The keys of a subject expire together, and only when its events are out of both windows.
  lemma GroupPurged(db: Db, now: Time, to: Time, sub: Subject, kept: seq<Event>, expiry: int)
    requires now <= to && GroupOk(db, now, sub, kept, expiry)
    ensures GroupOk(Purge(db, to), to, sub, if to < expiry then kept else [], expiry)
    ensures to < expiry || forall e :: e in kept ==> HourBucket(e.now) < FirstHour(to)
  {
    hide Name, HoursOk, SightOk;
    if kept != [] {
      HoursExpiry(Fetch(db, Name(Hours(sub))), kept, expiry, now);
      if to < expiry {
        HoursLater(Fetch(db, Name(Hours(sub))), kept, expiry, now, to);
        SightLater(Fetch(db, Name(Ips(sub))), ByIp, kept, now, to);
        SightLater(Fetch(db, Name(Uas(sub))), ByUa, kept, now, to);
        if sub.Token? {
          SightLater(Fetch(db, Name(TokenPaths(sub.name))), ByPath, kept, now, to);
        }
      } else {
        forall e | e in kept ensures HourBucket(e.now) < FirstHour(to) {
          ExpiredIsOutside(e.now, to);
        }
      }
    }
  }

  lemma HoursExpiry(slot: Option<Slot>, kept: seq<Event>, expiry: int, now: Time)
    requires HoursOk(slot, kept, expiry, now)
    ensures ExpiresAt(slot, expiry)
  {}

  // ------------------------------------------------------------ the whole store

  lemma KeysRecorded(w: World, db: Db, e: Event, now: Time)
    requires KeysOk(w, db) && EventIn(w, e)
    ensures KeysOk(w, Recorded(db, e, now))
  {
    hide Recorded, Name, WrittenKeys;
    forall key | key in Recorded(db, e, now) ensures IsKey(w, key) {
      RecordedKeys(db, e, now, key);
      if key !in db {
        var k :| k in WrittenKeys(e) && Name(k) == key;
        WrittenInWorld(w, e, k);
        assert Spells(w, k, key);
      }
    }
  }

  lemma WrittenInWorld(w: World, e: Event, k: StatKey)
    requires EventIn(w, e) && k in WrittenKeys(e)
    ensures KeyIn(w, k)
  {}

  function WrittenKeys(e: Event): set<StatKey> {
    var p, t := Path(e.path), Token(e.token);
    {Main(p), Ips(p), Uas(p), Hours(p)} +
    if e.token == "" then {} else {Main(t), Ips(t), Uas(t), Hours(t), TokenPaths(e.token), TokenIndex}
  }

  lemma RecordedKeys(db: Db, e: Event, now: Time, key: string)
    requires key in Recorded(db, e, now)
    ensures key in db || exists k :: k in WrittenKeys(e) && Name(k) == key
  {
    hide Name, Incr, DropFields, AddMember, TrimScores, SetExpiry;
    var db1 := RecordPath(db, e, now);
    if key in db1 && key !in db {
      PathKeys(db, e, now, key);
    } else if key !in db {
      TokenKeys(db1, e, now, key);
    }
  }

  lemma PathKeys(db: Db, e: Event, now: Time, key: string)
    requires key in RecordPath(db, e, now) && key !in db
    ensures exists k :: k in WrittenKeys(e) && Name(k) == key
  {
    hide Name, Incr, DropFields, AddMember, TrimScores, SetExpiry;
    var sub := Path(e.path);
    assert key in {Name(Main(sub)), Name(Ips(sub)), Name(Uas(sub)), Name(Hours(sub))};
    var k :| k in {Main(sub), Ips(sub), Uas(sub), Hours(sub)} && Name(k) == key;
    assert k in WrittenKeys(e);
  }

  function TokenNames(token: string): set<string> {
    var sub := Token(token);
    {Name(Main(sub)), Name(Ips(sub)), Name(Uas(sub)), Name(Hours(sub)), Name(TokenPaths(token)), Name(TokenIndex)}
  }

  lemma TokenWriteKeys(db: Db, e: Event, key: string)
    ensures key in TokenWrites(db, e) ==> key in db || key in TokenNames(e.token)
  {}

  lemma TokenExpiryKeys(db: Db, e: Event, at: int, key: string)
    ensures key in TokenExpiries(db, e, at) ==> key in db || key in TokenNames(e.token)
  {
    hide Name, SetExpiry;
  }

  lemma TokenTrimKeys(db: Db, e: Event, cutoff: int, key: string)
    ensures key in TokenTrims(db, e, cutoff) ==> key in db || key in TokenNames(e.token)
  {
    hide Name, TrimScores;
  }

  lemma TokenKeys(db: Db, e: Event, now: Time, key: string)
    requires e.token != "" && key in RecordToken(db, e, now) && key !in db
    ensures exists k :: k in WrittenKeys(e) && Name(k) == key
  {
    hide Name, TokenWrites, TokenExpiries, TokenTrims, TokenNames;
    var db1 := TokenWrites(db, e);
    TokenExpiryKeys(db1, e, now + TTL, key);
    TokenTrimKeys(TokenExpiries(db1, e, now + TTL), e, Unix(e.now) - WINDOW_SECONDS, key);
    TokenWriteKeys(db, e, key);
    NamedKey(e, key);
  }

  lemma NamedKey(e: Event, key: string)
    requires e.token != "" && key in TokenNames(e.token)
    ensures exists k :: k in WrittenKeys(e) && Name(k) == key
  {}

  lemma IndexRecorded(w: World, db: Db, log: seq<Event>, e: Event, now: Time)
    requires EventIn(w, e) && e.now <= now && IndexOk(Fetch(db, Name(TokenIndex)), log, now)
    requires forall d :: d in log ==> d.now <= now
    ensures IndexOk(Fetch(Recorded(db, e, now), Name(TokenIndex)), log + [e], now)
  {
    hide Name, Recorded;
    RecordedAt(w, db, e, now, TokenIndex);
    var slot := Fetch(db, Name(TokenIndex));
    forall t ensures LastSeen(log + [e], ByToken, t) == if e.token == t then Some(Unix(e.now)) else LastSeen(log, ByToken, t) {
      LastSeenAppend(log, e, ByToken, t);
    }
    if e.token != "" {
      IndexSighted(slot, log, e, now);
    }
  }

  lemma IndexSighted(slot: Option<Slot>, log: seq<Event>, e: Event, now: Time)
    requires e.now <= now && IndexOk(slot, log, now) && e.token != ""
    requires forall d :: d in log ==> d.now <= now
    ensures IndexOk(Sight(slot, e.token, e, now), log + [e], now)
  {
    ClockMonotone(e.now, now);
    forall t ensures LastSeen(log + [e], ByToken, t) == if e.token == t then Some(Unix(e.now)) else LastSeen(log, ByToken, t) {
      LastSeenAppend(log, e, ByToken, t);
    }
  }

  lemma IndexCleaned(db: Db, log: seq<Event>, now: Time, key: string, at: Time)
    requires at <= now && IndexOk(Fetch(db, Name(TokenIndex)), log, now)
    ensures IndexOk(Fetch(Cleaned(db, key, at), Name(TokenIndex)), log, now)
  {
    hide Name, Cleaned;
    CleanedAt(db, key, at, TokenIndex);
    ClockMonotone(at, now);
  }

  lemma {:induction false} LastSeenIsOf(log: seq<Event>, col: Column, m: string)
    requires LastSeen(log, col, m).Some?
    ensures exists e :: e in log && Member(e, col) == m && LastSeen(log, col, m) == Some(Unix(e.now))
  {
    if Member(log[|log| - 1], col) != m {
      LastSeenIsOf(log[..|log| - 1], col, m);
    }
  }

  lemma IndexPurged(db: Db, log: seq<Event>, now: Time, to: Time)
    requires now <= to && IndexOk(Fetch(db, Name(TokenIndex)), log, now)
    ensures IndexOk(Fetch(Purge(db, to), Name(TokenIndex)), log, to)
  {
    hide Name;
    ClockMonotone(now, to);
    var slot := Fetch(db, Name(TokenIndex));
    if slot.Some? && slot.value.expiry.value <= to {
      forall t | t != "" && LastSeen(log, ByToken, t).Some? ensures LastSeen(log, ByToken, t).value <= FirstSecond(to) {
        LastSeenIsOf(log, ByToken, t);
        var e :| e in log && Member(e, ByToken) == t && LastSeen(log, ByToken, t) == Some(Unix(e.now));
        ExpiredIsOutside(e.now, to);
      }
    }
  }

  // ------------------------------------------------------------ the steps

  lemma KeptTimes(w: World, cfg: Config, s: State, sub: Subject)
    requires Inv(w, cfg, s) && sub in w
    ensures forall e :: e in Of(s.kept, sub) ==> e.now <= s.now
    ensures forall e :: e in s.log ==> e.now <= s.now
  {}

  lemma KeptCredited(kept: History, e: Event, sub: Subject)
    ensures Of(Credit(kept, e), sub) == if Concerns(e, sub) then Of(kept, sub) + [e] else Of(kept, sub)
  {}

  lemma UntilRenewed(until: map<Subject, int>, e: Event, expiry: int, sub: Subject)
    ensures Until(Renew(until, e, expiry), sub) == if Concerns(e, sub) then expiry else Until(until, sub)
  {}

  lemma WriteKeeps(w: World, cfg: Config, s: State, i: nat)
    requires Inv(w, cfg, s) && i < |s.held|
    ensures Inv(w, cfg, Written(s, i))
  {
    hide SubjectOk, IndexOk, KeysOk, Recorded, Name, Credit, Renew;
    var e, s' := s.held[i], Written(s, i);
    assert EventIn(w, e) && e.now <= s.now;
    KeysRecorded(w, s.db, e, s.now);
    IndexRecorded(w, s.db, s.log, e, s.now);
    forall sub | sub in w ensures SubjectOk(PatientConfig(cfg), s', sub) {
      KeptTimes(w, cfg, s, sub);
      SubjectWritten(w, PatientConfig(cfg), s, i, sub);
    }
    if s.cleaner.Doomed? {
      var kept := Of(s.kept, Path(s.cleaner.path));
      KeptCredited(s.kept, e, Path(s.cleaner.path));
      assert (kept + [e])[..s.cleaner.seen] == kept[..s.cleaner.seen];
    }
  }

  lemma SubjectWritten(w: World, patient: bool, s: State, i: nat, sub: Subject)
    requires i < |s.held| && sub in w && EventIn(w, s.held[i]) && s.held[i].now <= s.now
    requires SubjectOk(patient, s, sub) && forall d :: d in Of(s.kept, sub) ==> d.now <= s.now
    ensures SubjectOk(patient, Written(s, i), sub)
  {
    hide GroupOk, LinkOk, RacedOk, Recorded, Credit, Renew;
    var e := s.held[i];
    KeptCredited(s.kept, e, sub);
    UntilRenewed(s.until, e, s.now + TTL, sub);
    GroupRecorded(w, s.db, s.now, sub, Of(s.kept, sub), Until(s.until, sub), e);
    LinkWritten(s.log, s.now, sub, Of(s.kept, sub), Of(s.deleted, sub), e);
  }

  lemma LinkWritten(log: seq<Event>, now: Time, sub: Subject, kept: seq<Event>, deleted: seq<Event>, e: Event)
    requires LinkOk(log, now, sub, kept, deleted)
    ensures LinkOk(log + [e], now, sub, if Concerns(e, sub) then kept + [e] else kept, deleted)
  {
    hide Balanced, About, FirstHour;
    AboutAppend(log, e, sub);
    var all := About(log, sub);
    assert all + [] == all;
    BalancedAppend(all, kept, deleted, e, FirstHour(now));
    assert (all + [e])[|all| - |kept|..] == all[|all| - |kept|..] + [e];
  }

  lemma BalancedAppend(all: seq<Event>, kept: seq<Event>, raced: seq<Event>, e: Event, first: int)
    requires Balanced(all, kept, raced, first)
    ensures Balanced(all + [e], kept + [e], raced, first)
  {}

  lemma CleanKeeps(w: World, cfg: Config, s: State, key: string, at: Time)
    requires Inv(w, cfg, s) && at <= s.now
    ensures Inv(w, cfg, s.(db := Cleaned(s.db, key, at)))
  {
    hide GroupOk, IndexOk, LinkOk, KeysOk, Cleaned, Name;
    var s' := s.(db := Cleaned(s.db, key, at));
    IndexCleaned(s.db, s.log, s.now, key, at);
    KeysCleaned(w, s.db, key, at);
    forall sub | sub in w ensures SubjectOk(PatientConfig(cfg), s', sub) {
      GroupCleaned(s.db, s.now, sub, Of(s.kept, sub), Until(s.until, sub), key, at);
    }
  }

  lemma KeysCleaned(w: World, db: Db, key: string, at: Time)
    requires KeysOk(w, db)
    ensures KeysOk(w, Cleaned(db, key, at))
  {
    hide IsKey;
  }

  lemma DropKeeps(w: World, cfg: Config, s: State, key: string, fields: set<string>, at: Time)
    requires Inv(w, cfg, s) && at <= s.now && HasSuffix(key, "::hours") && AllStale(fields, FirstHour(at))
    ensures Inv(w, cfg, s.(db := HDel(s.db, key, fields)))
  {
    hide GroupOk, LinkOk, AllStale, HDel, Name, HasSuffix, KeysOk;
    var s' := s.(db := HDel(s.db, key, fields));
    DroppedAt(s.db, key, fields, TokenIndex);
    KeysDropped(w, s.db, key, fields);
    forall sub | sub in w ensures SubjectOk(PatientConfig(cfg), s', sub) {
      GroupDropped(s.db, s.now, sub, Of(s.kept, sub), Until(s.until, sub), key, fields, at);
    }
  }

  lemma KeysDropped(w: World, db: Db, key: string, fields: set<string>)
    requires KeysOk(w, db)
    ensures KeysOk(w, HDel(db, key, fields))
  {
    hide IsKey;
  }

  lemma TickKeeps(w: World, cfg: Config, s: State, to: Time)
    requires Inv(w, cfg, s) && s.now <= to
    ensures Inv(w, cfg, Ticked(s, to))
  {
    hide GroupOk, LinkOk, IndexOk, Name, IsKey;
    var s' := Ticked(s, to);
    IndexPurged(s.db, s.log, s.now, to);
    ClockMonotone(s.now, to);
    forall sub | sub in w ensures SubjectOk(PatientConfig(cfg), s', sub) {
      KeptTicked(s, to, sub);
      assert SubjectOk(PatientConfig(cfg), s, sub);
      GroupPurged(s.db, s.now, to, sub, Of(s.kept, sub), Until(s.until, sub));
      LinkTicked(s.log, s.now, to, sub, Of(s.kept, sub), Of(s'.kept, sub), Of(s.deleted, sub));
      RacedTicked(PatientConfig(cfg), s.now, to, Of(s.deleted, sub), Of(s.raced, sub));
    }
  }

  lemma KeptTicked(s: State, to: Time, sub: Subject)
    ensures Of(Ticked(s, to).kept, sub) == if to < Until(s.until, sub) then Of(s.kept, sub) else []
  {}

  lemma LinkTicked(log: seq<Event>, now: Time, to: Time, sub: Subject, kept: seq<Event>, left: seq<Event>, deleted: seq<Event>)
    requires LinkOk(log, now, sub, kept, deleted) && now <= to
    requires left == kept || (left == [] && forall e :: e in kept ==> HourBucket(e.now) < FirstHour(to))
    ensures LinkOk(log, to, sub, left, deleted)
  {
    ClockMonotone(now, to);
    forall h | h >= FirstHour(to) ensures Tally(About(log, sub), h) == Tally(left, h) + Tally(deleted, h) {
      if left != kept {
        TallyWithin(kept, h, 0, FirstHour(to) - 1);
      }
    }
  }

  lemma RacedTicked(patient: bool, now: Time, to: Time, deleted: seq<Event>, raced: seq<Event>)
    requires RacedOk(patient, now, deleted, raced) && now <= to
    ensures RacedOk(patient, to, deleted, raced)
  {
    ClockMonotone(now, to);
  }

  // The verdict to delete is only reached when nothing kept lies in the hour window.
  lemma AbandonedIsOutside(slot: Option<Slot>, kept: seq<Event>, expiry: int, now: Time, inactive: int)
    requires HoursOk(slot, kept, expiry, now) && inactive >= TTL - 1
    requires Abandoned(Fields(slot), now, inactive)
    ensures forall h :: h >= FirstHour(now) ==> Tally(kept, h) == 0
  {
    forall h | h >= FirstHour(now) ensures Tally(kept, h) == 0 {
      var fields := Fields(slot);
      if FormatInt(h) in fields {
        ParseInverse(h);
        InactiveIsOutside(LatestHour(fields), now, inactive);
      }
      assert Bucket(slot, h) == Tally(kept, h);
    }
  }

  lemma ReadHoursKeeps(w: World, cfg: Config, s: State)
    requires Inv(w, cfg, s) && s.cleaner.Counted?
    ensures Inv(w, cfg, HoursRead(cfg, s))
  {
    hide SubjectOk, KeysOk, IndexOk, EventsOk, Abandoned, Name;
    var kept, s' := Of(s.kept, Path(s.cleaner.path)), HoursRead(cfg, s);
    SameEventsOk(w, s, s'.cleaner);
    forall sub | sub in w ensures SubjectOk(PatientConfig(cfg), s', sub) {
      SameSubject(PatientConfig(cfg), s, s', sub);
    }
    if s'.cleaner.Doomed? {
      if PatientConfig(cfg) {
        DoomedIsOutside(w, cfg, s);
      }
      assert kept[..|kept|] == kept;
    }
  }

  lemma SameEventsOk(w: World, s: State, cleaner: Cleaner)
    ensures EventsOk(w, s.(cleaner := cleaner)) <==> EventsOk(w, s)
  {}

  // What a subject's keys stand for does not depend on the queue or the cleaner.
  lemma SameSubject(patient: bool, s: State, s': State, sub: Subject)
    requires s'.db == s.db && s'.now == s.now && s'.log == s.log
    requires s'.kept == s.kept && s'.until == s.until && s'.deleted == s.deleted && s'.raced == s.raced
    ensures SubjectOk(patient, s', sub) <==> SubjectOk(patient, s, sub)
  {}

  lemma DoomedIsOutside(w: World, cfg: Config, s: State)
    requires Inv(w, cfg, s) && PatientConfig(cfg) && s.cleaner.Counted? && HoursRead(cfg, s).cleaner.Doomed?
    ensures forall h :: h >= FirstHour(s.now) ==> Tally(Of(s.kept, Path(s.cleaner.path)), h) == 0
  {
    hide HoursOk, SightOk, Name, KeysOk, EventsOk, IndexOk, LinkOk, Abandoned;
    var sub := Path(s.cleaner.path);
    assert SubjectOk(PatientConfig(cfg), s, sub);
    if Of(s.kept, sub) != [] {
      AbandonedIsOutside(Fetch(s.db, Name(Hours(sub))), Of(s.kept, sub), Until(s.until, sub), s.now, cfg.inactive);
    }
  }

  // A main key in the store is the counter hash of a path of the world.
  lemma MainKeyInWorld(w: World, db: Db, key: string)
    requires KeysOk(w, db) && key in db && IsMainKey(key)
    ensures var sub := Path(TrimPrefix(key, "stats::")); sub in w && Steady(sub) && Name(Main(sub)) == key
  {
    hide Name, IsMainKey, Steady;
    var k :| Spells(w, k, key);
    MainKeyIsPath(k);
  }

  lemma ReadCountKeeps(w: World, cfg: Config, s: State, key: string)
    requires Inv(w, cfg, s) && s.cleaner.Idle? && IsMainKey(key) && LowCount(Fetch(s.db, key), cfg.minCount)
    ensures Inv(w, cfg, s.(cleaner := Counted(TrimPrefix(key, "stats::"))))
  {
    hide SubjectOk, HoursOk, SightOk, Name, EventIn, IndexOk, LinkOk, KeysOk, IsMainKey, Steady;
    var s' := s.(cleaner := Counted(TrimPrefix(key, "stats::")));
    MainKeyInWorld(w, s.db, key);
    var sub := Path(TrimPrefix(key, "stats::"));
    SteadyCount(PatientConfig(cfg), s, sub);
    forall sub | sub in w ensures SubjectOk(PatientConfig(cfg), s', sub) {
      SameSubject(PatientConfig(cfg), s, s', sub);
    }
  }

  // The running count of a steady subject is the number of its kept events.
  lemma SteadyCount(patient: bool, s: State, sub: Subject)
    requires SubjectOk(patient, s, sub) && Steady(sub)
    ensures var fields, n := Fields(Fetch(s.db, Name(Main(sub)))), |Of(s.kept, sub)|;
      fields == if n == 0 then map[] else map["count" := n]
  {
    hide Name, HoursOk, SightOk, LinkOk, Steady;
  }

  lemma DeletedPathAt(w: World, db: Db, path: string, k: StatKey)
    requires Path(path) in w && KeyIn(w, k)
    ensures Fetch(DeletedPath(db, path), Name(k)) == if OfSubject(k, Path(path)) then None else Fetch(db, Name(k))
  {
    hide Name;
    NamesOf(w, k, Path(path));
  }

  lemma GroupDeleted(w: World, db: Db, now: Time, path: string, sub: Subject, kept: seq<Event>, expiry: int)
    requires Path(path) in w && sub in w && GroupOk(db, now, sub, kept, expiry)
    ensures GroupOk(DeletedPath(db, path), now, sub, if sub == Path(path) then [] else kept, expiry)
  {
    hide Name, HoursOk, SightOk, MainOk, DeletedPath;
    DeletedPathAt(w, db, path, Main(sub));
    DeletedPathAt(w, db, path, Hours(sub));
    DeletedPathAt(w, db, path, Ips(sub));
    DeletedPathAt(w, db, path, Uas(sub));
    if sub.Token? {
      DeletedPathAt(w, db, path, TokenPaths(sub.name));
    }
  }

  lemma LinkDeleted(log: seq<Event>, now: Time, sub: Subject, kept: seq<Event>, deleted: seq<Event>)
    requires sub.Path? && LinkOk(log, now, sub, kept, deleted)
    ensures LinkOk(log, now, sub, [], deleted + kept)
  {
    hide About;
    forall h | h >= FirstHour(now) ensures Tally(About(log, sub), h) == Tally(deleted + kept, h) {
      TallySplit(deleted, kept, h);
    }
  }

  lemma RacedDeleted(patient: bool, now: Time, kept: seq<Event>, seen: nat, deleted: seq<Event>, raced: seq<Event>)
    requires seen <= |kept| && RacedOk(patient, now, deleted, raced)
    requires patient ==> forall h :: h >= FirstHour(now) ==> Tally(kept[..seen], h) == 0
    ensures RacedOk(patient, now, deleted + kept, raced + kept[seen..])
  {
    assert kept == kept[..seen] + kept[seen..];
    forall h ensures Tally(deleted + kept, h) == Tally(deleted, h) + Tally(kept[..seen], h) + Tally(kept[seen..], h)
      && Tally(raced + kept[seen..], h) == Tally(raced, h) + Tally(kept[seen..], h)
    {
      TallySplit(deleted, kept, h);
      TallySplit(kept[..seen], kept[seen..], h);
      TallySplit(raced, kept[seen..], h);
    }
  }

  lemma DeleteKeeps(w: World, cfg: Config, s: State)
    requires Inv(w, cfg, s) && s.cleaner.Doomed?
    ensures Inv(w, cfg, PathDeleted(s))
  {
    hide GroupOk, IndexOk, DeletedPath, KeysOk, Name, LinkOk, RacedOk;
    var p, s' := s.cleaner.path, PathDeleted(s);
    DeletedPathAt(w, s.db, p, TokenIndex);
    KeysDeleted(w, s.db, p);
    forall sub | sub in w ensures SubjectOk(PatientConfig(cfg), s', sub) {
      assert SubjectOk(PatientConfig(cfg), s, sub);
      GroupDeleted(w, s.db, s.now, p, sub, Of(s.kept, sub), Until(s.until, sub));
      if sub == Path(p) {
        LinkDeleted(s.log, s.now, sub, Of(s.kept, sub), Of(s.deleted, sub));
        RacedDeleted(PatientConfig(cfg), s.now, Of(s.kept, sub), s.cleaner.seen, Of(s.deleted, sub), Of(s.raced, sub));
      } else {
        assert Of(s'.kept, sub) == Of(s.kept, sub) && Of(s'.deleted, sub) == Of(s.deleted, sub) && Of(s'.raced, sub) == Of(s.raced, sub);
      }
    }
  }

  lemma KeysDeleted(w: World, db: Db, path: string)
    requires KeysOk(w, db)
    ensures KeysOk(w, DeletedPath(db, path))
  {
    hide IsKey;
  }

  lemma QueueKeeps(w: World, cfg: Config, s: State, a: Action)
    requires Inv(w, cfg, s) && (a.Offer? ==> EventIn(w, a.e)) && (a.Offer? || a.Take?)
    ensures Inv(w, cfg, Step(cfg, s, a))
  {
    hide SubjectOk, KeysOk, IndexOk, EventsOk, PatientConfig, Step;
    var s' := Step(cfg, s, a);
    QueueEvents(w, cfg, s, a);
    QueueFrame(cfg, s, a);
    forall sub | sub in w ensures SubjectOk(PatientConfig(cfg), s', sub) {
      SameSubject(PatientConfig(cfg), s, s', sub);
    }
  }

  lemma QueueFrame(cfg: Config, s: State, a: Action)
    requires a.Offer? || a.Take?
    ensures var s' := Step(cfg, s, a);
      s' == s.(offered := s'.offered, refused := s'.refused, queue := s'.queue, held := s'.held)
  {
    hide Ticked, Written, HoursRead, PathDeleted, Cleaned, LowCount, IsMainKey, HDel, AllStale, HasSuffix, TrimPrefix;
  }

  lemma QueueEvents(w: World, cfg: Config, s: State, a: Action)
    requires EventsOk(w, s) && (a.Offer? ==> EventIn(w, a.e)) && (a.Offer? || a.Take?)
    ensures EventsOk(w, Step(cfg, s, a))
  {
    hide EventIn;
  }

  lemma StepKeeps(w: World, cfg: Config, s: State, a: Action)
    requires Inv(w, cfg, s) && (a.Offer? ==> EventIn(w, a.e))
    ensures Inv(w, cfg, Step(cfg, s, a))
  {
    hide Inv, Ticked, Written, HoursRead, Cleaned, Name, PatientConfig;
    match a {
      case Tick(to) => if s.now <= to { TickKeeps(w, cfg, s, to); }
      case Offer(e) => QueueKeeps(w, cfg, s, a);
      case Take => QueueKeeps(w, cfg, s, a);
      case Write(i) => if i < |s.held| { WriteKeeps(w, cfg, s, i); }
      case CleanWindow(key, at) => if at <= s.now { CleanKeeps(w, cfg, s, key, at); }
      case DropStale(key, fields, at) =>
        if at <= s.now && HasSuffix(key, "::hours") && AllStale(fields, FirstHour(at)) { DropKeeps(w, cfg, s, key, fields, at); }
      case ReadCount(key) =>
        if s.cleaner.Idle? && IsMainKey(key) && LowCount(Fetch(s.db, key), cfg.minCount) { ReadCountKeeps(w, cfg, s, key); }
      case ReadHours => if s.cleaner.Counted? { ReadHoursKeeps(w, cfg, s); }
      case Delete =>
        if s.cleaner.Doomed? && s.cleaner.seen <= |Of(s.kept, Path(s.cleaner.path))| { DeleteKeeps(w, cfg, s); }
    }
  }

  // ------------------------------------------------------------ what a step leaves alone

  lemma TickedFrame(s: State, to: Time)
    ensures var s' := Ticked(s, to);
      && s'.now == to
      && s'.offered == s.offered && s'.refused == s.refused && s'.queue == s.queue && s'.held == s.held && s'.log == s.log
      && (s'.cleaner == s.cleaner || (s.cleaner.Doomed? && s'.cleaner.Doomed? && s'.cleaner.path == s.cleaner.path))
  {
    hide Purge, Until;
  }

  lemma WrittenFrame(s: State, i: nat)
    requires i < |s.held|
    ensures var s' := Written(s, i);
      && s'.now == s.now && s'.offered == s.offered && s'.refused == s.refused && s'.queue == s.queue
      && s'.log == s.log + [s.held[i]] && s'.cleaner == s.cleaner
  {
    hide Recorded, Credit, Renew;
  }

  lemma HoursReadFrame(cfg: Config, s: State)
    requires s.cleaner.Counted?
    ensures var s' := HoursRead(cfg, s);
      s' == s.(cleaner := s'.cleaner) && !s'.cleaner.Counted? && (s'.cleaner.Doomed? ==> s'.cleaner.path == s.cleaner.path)
  {
    hide Abandoned, Name;
  }

  lemma PathDeletedFrame(s: State)
    requires s.cleaner.Doomed? && s.cleaner.seen <= |Of(s.kept, Path(s.cleaner.path))|
    ensures var s' := PathDeleted(s);
      && s'.now == s.now && s'.cleaner.Idle?
      && s'.offered == s.offered && s'.refused == s.refused && s'.queue == s.queue && s'.held == s.held && s'.log == s.log
  {
    hide DeletedPath;
  }

  // Time goes on, the log grows by written events, only a full queue refuses, and the cleaner moves on only
  // by its own steps.
  lemma StepFrame(cfg: Config, s: State, a: Action)
    ensures var s' := Step(cfg, s, a);
      && s.now <= s'.now
      && (s'.log == s.log || (a.Write? && a.worker < |s.held| && s'.log == s.log + [s.held[a.worker]]))
      && (s'.refused == s.refused || (a.Offer? && |s.queue| >= cfg.capacity && s'.refused == s.refused + [a.e]))
    ensures var c, c' := s.cleaner, Step(cfg, s, a).cleaner;
      && (c'.Counted? ==> c' == c || (c.Idle? && a.ReadCount? && c' == Counted(TrimPrefix(a.key, "stats::"))))
      && (c'.Doomed? ==> (c.Doomed? && c'.path == c.path) || (c == Counted(c'.path) && a == ReadHours))
  {
    hide Ticked, Written, HoursRead, PathDeleted, Cleaned, LowCount, IsMainKey, HDel, AllStale, HasSuffix, TrimPrefix;
    match a {
      case Tick(to) => TickedFrame(s, to);
      case Write(i) => if i < |s.held| { WrittenFrame(s, i); }
      case ReadHours => if s.cleaner.Counted? { HoursReadFrame(cfg, s); }
      case Delete =>
        if s.cleaner.Doomed? && s.cleaner.seen <= |Of(s.kept, Path(s.cleaner.path))| { PathDeletedFrame(s); }
      case _ =>
    }
  }

  // The cleaner's three steps.

  lemma ReadCountStep(cfg: Config, s: State, key: string)
    ensures Step(cfg, s, ReadCount(key)) ==
      if s.cleaner.Idle? && IsMainKey(key) && LowCount(Fetch(s.db, key), cfg.minCount)
      then s.(cleaner := Counted(TrimPrefix(key, "stats::"))) else s
  {
    hide IsMainKey, LowCount, TrimPrefix;
  }

  lemma ReadHoursStep(cfg: Config, s: State)
    ensures Step(cfg, s, ReadHours) == if s.cleaner.Counted? then HoursRead(cfg, s) else s
  {
    hide HoursRead;
  }

  lemma DeleteStep(cfg: Config, s: State)
    ensures Step(cfg, s, Delete) ==
      if s.cleaner.Doomed? && s.cleaner.seen <= |Of(s.kept, Path(s.cleaner.path))| then PathDeleted(s) else s
  {
    hide PathDeleted;
  }

  lemma RunAppend(cfg: Config, actions: seq<Action>, a: Action)
    ensures Run(cfg, actions + [a]) == Step(cfg, Run(cfg, actions), a)
  {}

  predicate RunsIn(w: World, actions: seq<Action>) {
    forall i :: 0 <= i < |actions| && actions[i].Offer? ==> EventIn(w, actions[i].e)
  }

  lemma StartOk(w: World, cfg: Config)
    ensures Run(cfg, []) == Start && Inv(w, cfg, Start)
  {}

  /** Whatever the requests, workers, clock and cleaner do, the keys of every path and token of
      a world stand for exactly the events kept for it, and the window of the log is covered by them. */
  lemma {:induction false} RunKeeps(w: World, cfg: Config, actions: seq<Action>)
    requires RunsIn(w, actions)
    ensures Inv(w, cfg, Run(cfg, actions))
  {
    hide Inv, Step, EventIn, Run;
    if actions == [] {
      StartOk(w, cfg);
    } else {
      var before, last := actions[..|actions| - 1], actions[|actions| - 1];
      assert actions == before + [last];
      RunKeeps(w, cfg, before);
      RunAppend(cfg, before, last);
      StepKeeps(w, cfg, Run(cfg, before), last);
    }
  }
}
