/** Clock readings in nanoseconds, and the two 48-hour windows: 48 hour buckets for the counts
    and 172800 seconds for the sorted sets. */
module Clock {
  const NANOS := 1_000_000_000
  const WINDOW_HOURS := 48
  const WINDOW_SECONDS := 172_800
  const HOUR := 3_600 * NANOS
  const TTL := WINDOW_HOURS * HOUR

  type Time = nat

  function Unix(t: int): int {
    t / NANOS
  }

  function HourBucket(t: Time): nat {
    Unix(t) / 3_600
  }

  // The oldest bucket of the hour window at t.
  function FirstHour(t: Time): int {
    HourBucket(t) - WINDOW_HOURS + 1
  }

  // The oldest second of the second window at t.
  function FirstSecond(t: Time): int {
    Unix(t) - WINDOW_SECONDS
  }

  lemma ClockMonotone(a: Time, b: Time)
    requires a <= b
    ensures Unix(a) <= Unix(b) && HourBucket(a) <= HourBucket(b)
  {}

  // Whatever has outlived its 48-hour expiry lies outside both windows.
  lemma ExpiredIsOutside(e: Time, now: Time)
    requires e + TTL <= now
    ensures HourBucket(e) < FirstHour(now) && Unix(e) <= FirstSecond(now)
  {}

  // The hour window lies strictly inside the second window.
  lemma HourWindowInside(e: Time, now: Time)
    requires HourBucket(e) >= FirstHour(now)
    ensures Unix(e) > FirstSecond(now)
  {}

  // The second window reaches at most one bucket further back.
  lemma SecondWindowReach(e: Time, now: Time)
    requires Unix(e) >= FirstSecond(now)
    ensures HourBucket(e) >= FirstHour(now) - 1
  {}

  // time.Now().Add(-TTL).Unix() is the same cutoff.
  lemma CutoffAgrees(t: Time)
    ensures Unix(t - TTL) == FirstSecond(t)
  {}

  // A bucket whose start is more than `inactive` ago, at the smallest safe threshold.
  lemma InactiveIsOutside(hour: int, now: Time, inactive: int)
    requires now - hour * HOUR > inactive >= TTL - 1
    ensures hour < FirstHour(now)
  {}
}

/** record: one event written to the path's keys and, when it carries a token, to the token's. */
module Recording {
  import opened Wrappers
  import opened Redis
  import opened StatKeys
  import opened Clock
  import opened Decimal

  datatype Event = Event(path: string, token: string, ip: string, ua: string, now: Time)

  predicate EventIn(w: set<Subject>, e: Event) {
    Path(e.path) in w && (e.token != "" ==> Token(e.token) in w)
  }

  predicate Concerns(e: Event, sub: Subject) {
    match sub
    case Path(p) => e.path == p
    case Token(t) => e.token == t && t != ""
  }

  predicate Touches(e: Event, k: StatKey) {
    match k
    case TokenPaths(t) => Concerns(e, Token(t))
    case TokenIndex => e.token != ""
    case _ => Concerns(e, k.sub)
  }

  // The commands of the pipeline in source order, in the runs they come in: counters, sightings,
  // expiries, trims. Every run names its keys as strings, as the source does.

  function Counters(db: Db, main: string, hours: string, hour: nat): Db {
    var db := HIncrBy(db, main, "count");
    var db := HIncrBy(db, hours, FormatInt(hour));
    HDel(db, hours, {FormatInt(hour - WINDOW_HOURS)})
  }

  function Sightings(db: Db, ips: string, uas: string, e: Event): Db {
    var db := ZAdd(db, ips, e.ip, Unix(e.now));
    ZAdd(db, uas, e.ua, Unix(e.now))
  }

  function Expiries(db: Db, main: string, ips: string, uas: string, at: int): Db {
    var db := Expire(db, main, at);
    var db := Expire(db, ips, at);
    Expire(db, uas, at)
  }

  function Trims(db: Db, ips: string, uas: string, cutoff: int): Db {
    var db := ZRemRangeByScore(db, ips, cutoff);
    ZRemRangeByScore(db, uas, cutoff)
  }

  function RecordPath(db: Db, e: Event, now: Time): Db {
    var sub := Path(e.path);
    var main, ips, uas, hours := Name(Main(sub)), Name(Ips(sub)), Name(Uas(sub)), Name(Hours(sub));
    var db := Counters(db, main, hours, HourBucket(e.now));
    var db := Sightings(db, ips, uas, e);
    var db := Expiries(db, main, ips, uas, now + TTL);
    var db := Expire(db, hours, now + TTL);
    Trims(db, ips, uas, Unix(e.now) - WINDOW_SECONDS)
  }

  function TokenWrites(db: Db, e: Event): Db {
    var sub := Token(e.token);
    var db := ZAdd(db, Name(TokenIndex), e.token, Unix(e.now));
    var db := Counters(db, Name(Main(sub)), Name(Hours(sub)), HourBucket(e.now));
    var db := Sightings(db, Name(Ips(sub)), Name(Uas(sub)), e);
    ZAdd(db, Name(TokenPaths(e.token)), e.path, Unix(e.now))
  }

  function TokenExpiries(db: Db, e: Event, at: int): Db {
    var sub := Token(e.token);
    var db := Expire(db, Name(TokenIndex), at);
    var db := Expiries(db, Name(Main(sub)), Name(Ips(sub)), Name(Uas(sub)), at);
    var db := Expire(db, Name(TokenPaths(e.token)), at);
    Expire(db, Name(Hours(sub)), at)
  }

  function TokenTrims(db: Db, e: Event, cutoff: int): Db {
    var sub := Token(e.token);
    var db := Trims(db, Name(Ips(sub)), Name(Uas(sub)), cutoff);
    var db := ZRemRangeByScore(db, Name(TokenPaths(e.token)), cutoff);
    ZRemRangeByScore(db, Name(TokenIndex), cutoff)
  }

  function RecordToken(db: Db, e: Event, now: Time): Db {
    var db := TokenWrites(db, e);
    var db := TokenExpiries(db, e, now + TTL);
    TokenTrims(db, e, Unix(e.now) - WINDOW_SECONDS)
  }

  function Recorded(db: Db, e: Event, now: Time): Db {
    var db := RecordPath(db, e, now);
    if e.token == "" then db else RecordToken(db, e, now)
  }

  lemma CountersAt(db: Db, main: string, hours: string, hour: nat, key: string)
    requires main != hours
    ensures Fetch(Counters(db, main, hours, hour), key) ==
      if key == main then Incr(Fetch(db, key), "count")
      else if key == hours then DropFields(Incr(Fetch(db, key), FormatInt(hour)), {FormatInt(hour - WINDOW_HOURS)})
      else Fetch(db, key)
  {}

  lemma SightingsAt(db: Db, ips: string, uas: string, e: Event, key: string)
    requires ips != uas
    ensures Fetch(Sightings(db, ips, uas, e), key) ==
      if key == ips then AddMember(Fetch(db, key), e.ip, Unix(e.now))
      else if key == uas then AddMember(Fetch(db, key), e.ua, Unix(e.now))
      else Fetch(db, key)
  {}

  lemma ExpiriesAt(db: Db, main: string, ips: string, uas: string, at: int, key: string)
    requires main != ips && main != uas && ips != uas
    ensures Fetch(Expiries(db, main, ips, uas, at), key) ==
      if key == main || key == ips || key == uas then SetExpiry(Fetch(db, key), at) else Fetch(db, key)
  {}

  lemma TrimsAt(db: Db, ips: string, uas: string, cutoff: int, key: string)
    requires ips != uas
    ensures Fetch(Trims(db, ips, uas, cutoff), key) ==
      if key == ips || key == uas then TrimScores(Fetch(db, key), cutoff) else Fetch(db, key)
  {}

  // What one event does to each kind of key it touches.

  function BumpCount(slot: Option<Slot>, now: Time): Option<Slot> {
    SetExpiry(Incr(slot, "count"), now + TTL)
  }

  function BumpHour(slot: Option<Slot>, e: Event, now: Time): Option<Slot> {
    SetExpiry(DropFields(Incr(slot, FormatInt(HourBucket(e.now))), {FormatInt(HourBucket(e.now) - WINDOW_HOURS)}), now + TTL)
  }

  function Sight(slot: Option<Slot>, member: string, e: Event, now: Time): Option<Slot> {
    TrimScores(SetExpiry(AddMember(slot, member, Unix(e.now)), now + TTL), Unix(e.now) - WINDOW_SECONDS)
  }

  function Effect(slot: Option<Slot>, k: StatKey, e: Event, now: Time): Option<Slot> {
    if !Touches(e, k) then slot
    else match k
      case Main(_) => BumpCount(slot, now)
      case Hours(_) => BumpHour(slot, e, now)
      case Ips(_) => Sight(slot, e.ip, e, now)
      case Uas(_) => Sight(slot, e.ua, e, now)
      case TokenPaths(_) => Sight(slot, e.path, e, now)
      case TokenIndex => Sight(slot, e.token, e, now)
  }

  predicate OfSubject(k: StatKey, sub: Subject) {
    !k.TokenPaths? && !k.TokenIndex? && k.sub == sub
  }

  lemma NamesOf(w: World, k: StatKey, sub: Subject)
    requires KeyIn(w, k) && sub in w
    ensures Name(k) == Name(Main(sub)) <==> k == Main(sub)
    ensures Name(k) == Name(Ips(sub)) <==> k == Ips(sub)
    ensures Name(k) == Name(Uas(sub)) <==> k == Uas(sub)
    ensures Name(k) == Name(Hours(sub)) <==> k == Hours(sub)
    ensures Name(Main(sub)) != Name(Hours(sub)) && Name(Main(sub)) != Name(Ips(sub))
    ensures Name(Main(sub)) != Name(Uas(sub)) && Name(Ips(sub)) != Name(Uas(sub))
  {
    hide Name;
    NamesApart(w, k, Main(sub));
    NamesApart(w, k, Ips(sub));
    NamesApart(w, k, Uas(sub));
    NamesApart(w, k, Hours(sub));
    NamesApart(w, Main(sub), Hours(sub));
    NamesApart(w, Main(sub), Ips(sub));
    NamesApart(w, Main(sub), Uas(sub));
    NamesApart(w, Ips(sub), Uas(sub));
  }

  lemma RecordPathAt(w: World, db: Db, e: Event, now: Time, k: StatKey)
    requires EventIn(w, e) && KeyIn(w, k)
    ensures Fetch(RecordPath(db, e, now), Name(k)) ==
      if OfSubject(k, Path(e.path)) then Effect(Fetch(db, Name(k)), k, e, now) else Fetch(db, Name(k))
  {
    hide Name, Incr, DropFields, AddMember, TrimScores, SetExpiry, Counters, Sightings, Expiries, Trims;
    var sub, key := Path(e.path), Name(k);
    NamesOf(w, k, sub);
    var main, ips, uas, hours := Name(Main(sub)), Name(Ips(sub)), Name(Uas(sub)), Name(Hours(sub));
    var db1 := Counters(db, main, hours, HourBucket(e.now));
    CountersAt(db, main, hours, HourBucket(e.now), key);
    var db2 := Sightings(db1, ips, uas, e);
    SightingsAt(db1, ips, uas, e, key);
    var db3 := Expiries(db2, main, ips, uas, now + TTL);
    ExpiriesAt(db2, main, ips, uas, now + TTL, key);
    var db4 := Expire(db3, hours, now + TTL);
    TrimsAt(db4, ips, uas, Unix(e.now) - WINDOW_SECONDS, key);
  }

  lemma NamesOfToken(w: World, k: StatKey, token: string)
    requires KeyIn(w, k) && Token(token) in w
    ensures Name(k) == Name(TokenPaths(token)) <==> k == TokenPaths(token)
    ensures Name(k) == Name(TokenIndex) <==> k == TokenIndex
  {
    hide Name;
    NamesApart(w, k, TokenPaths(token));
    NamesApart(w, k, TokenIndex);
  }

  // The same effect, split into what the three runs of the token pipeline contribute.

  function WriteEffect(slot: Option<Slot>, k: StatKey, e: Event): Option<Slot> {
    if !Touches(e, k) then slot
    else match k
      case Main(_) => Incr(slot, "count")
      case Hours(_) => DropFields(Incr(slot, FormatInt(HourBucket(e.now))), {FormatInt(HourBucket(e.now) - WINDOW_HOURS)})
      case Ips(_) => AddMember(slot, e.ip, Unix(e.now))
      case Uas(_) => AddMember(slot, e.ua, Unix(e.now))
      case TokenPaths(_) => AddMember(slot, e.path, Unix(e.now))
      case TokenIndex => AddMember(slot, e.token, Unix(e.now))
  }

  predicate OfToken(k: StatKey, token: string) {
    OfSubject(k, Token(token)) || k == TokenPaths(token) || k == TokenIndex
  }

  lemma TokenWritesAt(w: World, db: Db, e: Event, k: StatKey)
    requires EventIn(w, e) && KeyIn(w, k) && e.token != ""
    ensures Fetch(TokenWrites(db, e), Name(k)) ==
      if OfToken(k, e.token) then WriteEffect(Fetch(db, Name(k)), k, e) else Fetch(db, Name(k))
  {
    hide Name, Incr, DropFields, AddMember, Counters, Sightings;
    var sub, key := Token(e.token), Name(k);
    NamesOf(w, k, sub);
    NamesOfToken(w, k, e.token);
    var db1 := ZAdd(db, Name(TokenIndex), e.token, Unix(e.now));
    var db2 := Counters(db1, Name(Main(sub)), Name(Hours(sub)), HourBucket(e.now));
    CountersAt(db1, Name(Main(sub)), Name(Hours(sub)), HourBucket(e.now), key);
    SightingsAt(db2, Name(Ips(sub)), Name(Uas(sub)), e, key);
  }

  lemma TokenExpiriesAt(w: World, db: Db, e: Event, at: int, k: StatKey)
    requires EventIn(w, e) && KeyIn(w, k) && e.token != ""
    ensures Fetch(TokenExpiries(db, e, at), Name(k)) ==
      if OfToken(k, e.token) then SetExpiry(Fetch(db, Name(k)), at) else Fetch(db, Name(k))
  {
    hide Name, SetExpiry, Expiries;
    var sub, key := Token(e.token), Name(k);
    NamesOf(w, k, sub);
    NamesOfToken(w, k, e.token);
    var db1 := Expire(db, Name(TokenIndex), at);
    ExpiriesAt(db1, Name(Main(sub)), Name(Ips(sub)), Name(Uas(sub)), at, key);
  }

  lemma TokenTrimsAt(w: World, db: Db, e: Event, cutoff: int, k: StatKey)
    requires EventIn(w, e) && KeyIn(w, k) && e.token != ""
    ensures Fetch(TokenTrims(db, e, cutoff), Name(k)) ==
      if OfToken(k, e.token) && !k.Main? && !k.Hours? then TrimScores(Fetch(db, Name(k)), cutoff) else Fetch(db, Name(k))
  {
    hide Name, TrimScores, Trims;
    var sub, key := Token(e.token), Name(k);
    NamesOf(w, k, sub);
    NamesOfToken(w, k, e.token);
    TrimsAt(db, Name(Ips(sub)), Name(Uas(sub)), cutoff, key);
  }

  lemma RecordTokenAt(w: World, db: Db, e: Event, now: Time, k: StatKey)
    requires EventIn(w, e) && KeyIn(w, k) && e.token != ""
    ensures Fetch(RecordToken(db, e, now), Name(k)) ==
      if OfToken(k, e.token) then Effect(Fetch(db, Name(k)), k, e, now) else Fetch(db, Name(k))
  {
    hide Name, Incr, DropFields, AddMember, TrimScores, SetExpiry, TokenWrites, TokenExpiries, TokenTrims;
    var db1 := TokenWrites(db, e);
    TokenWritesAt(w, db, e, k);
    var db2 := TokenExpiries(db1, e, now + TTL);
    TokenExpiriesAt(w, db1, e, now + TTL, k);
    TokenTrimsAt(w, db2, e, Unix(e.now) - WINDOW_SECONDS, k);
  }

  /** The pipeline changes each key it touches by that key's own effect, and no other key. */
  lemma RecordedAt(w: World, db: Db, e: Event, now: Time, k: StatKey)
    requires EventIn(w, e) && KeyIn(w, k)
    ensures Fetch(Recorded(db, e, now), Name(k)) == Effect(Fetch(db, Name(k)), k, e, now)
  {
    hide Name, BumpCount, BumpHour, Sight, RecordPath, RecordToken;
    RecordPathAt(w, db, e, now, k);
    if e.token != "" {
      RecordTokenAt(w, RecordPath(db, e, now), e, now, k);
    }
  }

  // ------------------------------------------------------------ the effects, spelled out

  lemma EffectOnCounter(slot: Option<Slot>, sub: Subject, e: Event, now: Time)
    requires Concerns(e, sub) && IsHash(slot)
    ensures Effect(slot, Main(sub), e, now) == Some(Slot(
        Hash(Fields(slot)["count" := (if "count" in Fields(slot) then Fields(slot)["count"] else 0) + 1]),
        Some(now + 172_800 * 1_000_000_000)))
  {}

  lemma EffectOnHours(slot: Option<Slot>, sub: Subject, e: Event, now: Time)
    requires Concerns(e, sub) && IsHash(slot)
    ensures var hour := e.now / 3_600_000_000_000;
      var count := if FormatInt(hour) in Fields(slot) then Fields(slot)[FormatInt(hour)] else 0;
      Effect(slot, Hours(sub), e, now) == Some(Slot(
        Hash(Fields(slot)[FormatInt(hour) := count + 1] - {FormatInt(hour - 48)}),
        Some(now + 172_800 * 1_000_000_000)))
  {
    hide FormatInt;
    var hour: int := HourBucket(e.now);
    assert hour == e.now / 3_600_000_000_000;
    if FormatInt(hour) == FormatInt(hour - 48) {
      FormatInjective(hour, hour - 48);
      assert false;
    }
    assert FormatInt(hour) in Fields(Incr(slot, FormatInt(hour))) - {FormatInt(hour - 48)};
  }

  // The member that an event puts into a sorted set.
  function Shown(e: Event, k: StatKey): string
    requires !k.Main? && !k.Hours?
  {
    match k
    case Ips(_) => e.ip
    case Uas(_) => e.ua
    case TokenPaths(_) => e.path
    case TokenIndex => e.token
  }

  lemma EffectOnSet(slot: Option<Slot>, k: StatKey, e: Event, now: Time)
    requires Touches(e, k) && IsZSet(slot) && !k.Main? && !k.Hours?
    ensures var second, after := e.now / 1_000_000_000, Effect(slot, k, e, now);
      && after.Some? && after.value.value.ZSet? && after.value.expiry == Some(now + 172_800 * 1_000_000_000)
      && Shown(e, k) in Scores(after) && Scores(after)[Shown(e, k)] == second
      && (forall m :: m != Shown(e, k) ==>
            (m in Scores(after) <==> m in Scores(slot) && !(0 <= Scores(slot)[m] <= second - 172_800)))
      && (forall m :: m != Shown(e, k) && m in Scores(after) ==> Scores(after)[m] == Scores(slot)[m])
  {
    var member := Shown(e, k);
    SightEffect(slot, member, e, now);
  }

  lemma SightEffect(slot: Option<Slot>, member: string, e: Event, now: Time)
    requires IsZSet(slot)
    ensures var after := Sight(slot, member, e, now);
      && after.Some? && after.value.value.ZSet? && after.value.expiry == Some(now + TTL)
      && member in Scores(after) && Scores(after)[member] == Unix(e.now)
      && (forall m :: m != member ==>
            (m in Scores(after) <==> m in Scores(slot) && !(0 <= Scores(slot)[m] <= Unix(e.now) - WINDOW_SECONDS)))
      && (forall m :: m != member && m in Scores(after) ==> Scores(after)[m] == Scores(slot)[m])
  {
    var added := SetExpiry(AddMember(slot, member, Unix(e.now)), now + TTL);
    assert Scores(added) == Scores(slot)[member := Unix(e.now)];
    var rest := map m | m in Scores(added) && !(0 <= Scores(added)[m] <= Unix(e.now) - WINDOW_SECONDS) :: Scores(added)[m];
    assert member in rest;
  }

  /** What one event leaves in the store, key by key: a counter gains one, the hour's field gains one and
      the field 48 hours before it goes, a set holds the event's member at the event's second and loses
      what is 48 hours older or more, and each of these keys expires 48 hours after the write. */
  lemma RecordedIs(w: World, db: Db, e: Event, now: Time, k: StatKey)
    requires EventIn(w, e) && KeyIn(w, k)
    ensures var before, after := Fetch(db, Name(k)), Fetch(Recorded(db, e, now), Name(k));
      var second, hour := e.now / 1_000_000_000, e.now / 3_600_000_000_000;
      if !Touches(e, k) then after == before
      else if k.Main? then
        IsHash(before) ==> after == Some(Slot(
          Hash(Fields(before)["count" := (if "count" in Fields(before) then Fields(before)["count"] else 0) + 1]),
          Some(now + 172_800 * 1_000_000_000)))
      else if k.Hours? then
        IsHash(before) ==>
          var count := if FormatInt(hour) in Fields(before) then Fields(before)[FormatInt(hour)] else 0;
          after == Some(Slot(
            Hash(Fields(before)[FormatInt(hour) := count + 1] - {FormatInt(hour - 48)}),
            Some(now + 172_800 * 1_000_000_000)))
      else
        IsZSet(before) ==>
          && after.Some? && after.value.value.ZSet? && after.value.expiry == Some(now + 172_800 * 1_000_000_000)
          && Shown(e, k) in Scores(after) && Scores(after)[Shown(e, k)] == second
          && (forall m :: m != Shown(e, k) ==>
                (m in Scores(after) <==> m in Scores(before) && !(0 <= Scores(before)[m] <= second - 172_800)))
          && (forall m :: m != Shown(e, k) && m in Scores(after) ==> Scores(after)[m] == Scores(before)[m])
  {
    hide Name, Recorded, FormatInt, BumpCount, BumpHour, Sight, Concerns, Shown;
    var before := Fetch(db, Name(k));
    RecordedAt(w, db, e, now, k);
    if Touches(e, k) {
      if k.Main? {
        if IsHash(before) { EffectOnCounter(before, k.sub, e, now); }
      } else if k.Hours? {
        if IsHash(before) { EffectOnHours(before, k.sub, e, now); }
      } else if IsZSet(before) {
        EffectOnSet(before, k, e, now);
      }
    }
  }
}
