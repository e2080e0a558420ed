/** The statistics as one system: requests offer events to a bounded queue, workers take them and
    write them in any order, keys expire, and the cleaner trims, prunes and deletes. A run is any
    list of actions; an action that cannot happen leaves the state as it is. CleanWindow is the window
    cleaner's work on one key without interruption; DropStale is an HDEL that comes some time after the
    HGETALL of its prune, which may be that of any instance cleaning the same store.

    `kept`, `until`, `deleted` and `raced` are history: for each subject, the events recorded since its
    keys were last dropped, when these keys expire, the events that deletions have dropped, and those of
    them that were recorded after the cleaner had made up its mind. */
module StatSystem {
  import opened Wrappers
  import opened Strings
  import opened Redis
  import opened StatKeys
  import opened Clock
  import opened Decimal
  import opened Recording

  datatype Config = Config(capacity: nat, workers: nat, minCount: int, inactive: int)

  // checkAndCleanKey between its steps: the count was low, or the path is about to be deleted and
  // `seen` of its kept events were there when the hours were read.
  datatype Cleaner = Idle | Counted(path: string) | Doomed(path: string, seen: nat)

  type History = map<Subject, seq<Event>>

  datatype State = State(
    now: Time,
    db: Db,
    offered: seq<Event>,
    refused: seq<Event>,
    queue: seq<Event>,
    held: seq<Event>,
    log: seq<Event>,
    cleaner: Cleaner,
    kept: History,
    until: map<Subject, int>,
    deleted: History,
    raced: History)

  datatype Action =
    | Tick(to: Time)
    | Offer(e: Event)
    | Take
    | Write(worker: nat)
    | CleanWindow(key: string, at: Time)
    | DropStale(key: string, fields: set<string>, at: Time)
    | ReadCount(key: string)
    | ReadHours
    | Delete

  const Start := State(0, map[], [], [], [], [], [], Idle, map[], map[], map[], map[])

  function Of(m: History, sub: Subject): seq<Event> {
    if sub in m then m[sub] else []
  }

  function Append(m: History, sub: Subject, e: Event): History {
    m[sub := Of(m, sub) + [e]]
  }

  function Credit(kept: History, e: Event): History {
    var kept := Append(kept, Path(e.path), e);
    if e.token == "" then kept else Append(kept, Token(e.token), e)
  }

  function Until(until: map<Subject, int>, sub: Subject): int {
    if sub in until then until[sub] else 0
  }

  function Renew(until: map<Subject, int>, e: Event, expiry: int): map<Subject, int> {
    var until := until[Path(e.path) := expiry];
    if e.token == "" then until else until[Token(e.token) := expiry]
  }

  // ------------------------------------------------------------ the cleaner's readings

  predicate Stale(field: string, since: int) {
    ParseInt(field).None? || ParseInt(field).value < since
  }

  function StaleFields(fields: map<string, int>, since: int): set<string> {
    set f | f in fields && Stale(f, since)
  }

  // What an HDEL sent some time after its HGETALL may name: stale fields, whatever the hash holds by now.
  predicate AllStale(fields: set<string>, since: int) {
    forall f :: f in fields ==> Stale(f, since)
  }

  // pruneHourBuckets sends HDEL only when some field is stale.
  function Pruned(db: Db, key: string, since: int): Db {
    var stale := StaleFields(Fields(Fetch(db, key)), since);
    if stale == {} then db else HDel(db, key, stale)
  }

  // Both cutoffs of cleanWindows come from a clock reading taken before the command runs.
  function Cleaned(db: Db, key: string, at: Time): Db {
    var slot := Fetch(db, key);
    if slot.None? then db
    else match ActionFor(slot.value.value.ZSet?, key)
      case TrimWindow => ZRemRangeByScore(db, key, FirstSecond(at))
      case PruneHours => Pruned(db, key, FirstHour(at))
      case Skip => db
  }

  // The largest bucket that parses, and 0 when there is none above it.
  ghost function LatestHour(fields: map<string, int>): (r: int)
    ensures r >= 0
    ensures forall f :: f in fields && ParseInt(f).Some? ==> ParseInt(f).value <= r
    ensures r == 0 || exists f :: f in fields && ParseInt(f) == Some(r)
  {
    if fields == map[] then 0
    else
      var f :| f in fields;
      var rest := LatestHour(fields - {f});
      if ParseInt(f).Some? && ParseInt(f).value > rest then ParseInt(f).value else rest
  }

  // checkAndCleanKey's verdict once the count is known to be low.
  ghost predicate Abandoned(fields: map<string, int>, now: Time, inactive: int) {
    fields == map[] || now - LatestHour(fields) * HOUR > inactive
  }

  predicate LowCount(slot: Option<Slot>, minCount: int) {
    minCount > 0 && "count" in Fields(slot) && Fields(slot)["count"] < minCount
  }

  function DeletedPath(db: Db, path: string): Db {
    var db := Del(db, Name(Main(Path(path))));
    var db := Del(db, Name(Ips(Path(path))));
    var db := Del(db, Name(Uas(Path(path))));
    Del(db, Name(Hours(Path(path))))
  }

  // ------------------------------------------------------------ steps and runs

  function Ticked(s: State, to: Time): State {
    var db := Purge(s.db, to);
    var kept := map sub | sub in s.kept && to < Until(s.until, sub) :: s.kept[sub];
    var cleaner := if s.cleaner.Doomed? && Path(s.cleaner.path) !in kept then Doomed(s.cleaner.path, 0) else s.cleaner;
    s.(now := to, db := db, kept := kept, cleaner := cleaner)
  }

  function Written(s: State, i: nat): State
    requires i < |s.held|
  {
    var e := s.held[i];
    s.(db := Recorded(s.db, e, s.now), held := s.held[..i] + s.held[i + 1..],
       log := s.log + [e], kept := Credit(s.kept, e), until := Renew(s.until, e, s.now + TTL))
  }

  ghost function HoursRead(cfg: Config, s: State): State
    requires s.cleaner.Counted?
  {
    var p := s.cleaner.path;
    if Abandoned(Fields(Fetch(s.db, Name(Hours(Path(p))))), s.now, cfg.inactive)
    then s.(cleaner := Doomed(p, |Of(s.kept, Path(p))|))
    else s.(cleaner := Idle)
  }

  function PathDeleted(s: State): State
    requires s.cleaner.Doomed? && s.cleaner.seen <= |Of(s.kept, Path(s.cleaner.path))|
  {
    var sub := Path(s.cleaner.path);
    s.(db := DeletedPath(s.db, s.cleaner.path), cleaner := Idle,
       kept := s.kept - {sub},
       deleted := s.deleted[sub := Of(s.deleted, sub) + Of(s.kept, sub)],
       raced := s.raced[sub := Of(s.raced, sub) + Of(s.kept, sub)[s.cleaner.seen..]])
  }

  ghost function Step(cfg: Config, s: State, a: Action): State {
    match a
    case Tick(to) => if to < s.now then s else Ticked(s, to)
    case Offer(e) =>
      if e.now > s.now then s
      else if |s.queue| < cfg.capacity then s.(offered := s.offered + [e], queue := s.queue + [e])
      else s.(offered := s.offered + [e], refused := s.refused + [e])
    case Take =>
      if s.queue == [] || |s.held| >= cfg.workers then s
      else s.(queue := s.queue[1..], held := s.held + [s.queue[0]])
    case Write(i) => if i < |s.held| then Written(s, i) else s
    case CleanWindow(key, at) => if at > s.now then s else s.(db := Cleaned(s.db, key, at))
    case DropStale(key, fields, at) =>
      if at > s.now || !HasSuffix(key, "::hours") || !AllStale(fields, FirstHour(at)) then s
      else s.(db := HDel(s.db, key, fields))
    case ReadCount(key) =>
      if !s.cleaner.Idle? || !IsMainKey(key) || !LowCount(Fetch(s.db, key), cfg.minCount) then s
      else s.(cleaner := Counted(TrimPrefix(key, "stats::")))
    case ReadHours => if s.cleaner.Counted? then HoursRead(cfg, s) else s
    case Delete =>
      if s.cleaner.Doomed? && s.cleaner.seen <= |Of(s.kept, Path(s.cleaner.path))| then PathDeleted(s) else s
  }

  ghost function Run(cfg: Config, actions: seq<Action>): State {
    if actions == [] then Start
    else Step(cfg, Run(cfg, actions[..|actions| - 1]), actions[|actions| - 1])
  }

  // The configurations under which the cleaner never deletes a path it should keep: it deletes
  // nothing at all, or waits for 48 hours (one clock tick less makes no difference).
  predicate PatientConfig(cfg: Config) {
    cfg.minCount <= 1 || cfg.inactive >= TTL - 1
  }

  // ------------------------------------------------------------ what the events say

  function Tally(events: seq<Event>, hour: int): nat {
    if events == [] then 0
    else Tally(events[..|events| - 1], hour) + (if HourBucket(events[|events| - 1].now) == hour then 1 else 0)
  }

  function About(log: seq<Event>, sub: Subject): seq<Event> {
    if log == [] then []
    else About(log[..|log| - 1], sub) + (if Concerns(log[|log| - 1], sub) then [log[|log| - 1]] else [])
  }

  datatype Column = ByIp | ByUa | ByPath | ByToken

  function Member(e: Event, col: Column): string {
    match col
    case ByIp => e.ip
    case ByUa => e.ua
    case ByPath => e.path
    case ByToken => e.token
  }

  // The timestamp of the last event, in writing order, that shows the member.
  function LastSeen(events: seq<Event>, col: Column, m: string): Option<int> {
    if events == [] then None
    else
      var e := events[|events| - 1];
      if Member(e, col) == m then Some(Unix(e.now)) else LastSeen(events[..|events| - 1], col, m)
  }

  function Bucket(slot: Option<Slot>, hour: int): int {
    if FormatInt(hour) in Fields(slot) then Fields(slot)[FormatInt(hour)] else 0
  }

  // ------------------------------------------------------------ the invariant

  ghost predicate HoursOk(slot: Option<Slot>, kept: seq<Event>, expiry: int, now: Time) {
    && (slot.Some? ==> slot.value.value.Hash? && slot.value.expiry == Some(expiry))
    && (forall f :: f in Fields(slot) ==> HourField(f, now) && Fields(slot)[f] >= 1)
    && (forall h {:trigger Tally(kept, h)} {:trigger Bucket(slot, h)} ::
          0 <= Bucket(slot, h) <= Tally(kept, h) && (h >= FirstHour(now) ==> Bucket(slot, h) == Tally(kept, h)))
  }

  predicate HourField(f: string, now: Time) {
    && ParseInt(f).Some? && 0 <= ParseInt(f).value <= HourBucket(now)
    && f == FormatInt(ParseInt(f).value)
  }

  ghost predicate SightOk(slot: Option<Slot>, col: Column, kept: seq<Event>, now: Time) {
    && IsZSet(slot)
    && (forall m :: m in Scores(slot) ==> LastSeen(kept, col, m) == Some(Scores(slot)[m]))
    && (forall m :: LastSeen(kept, col, m).Some? && LastSeen(kept, col, m).value > FirstSecond(now) ==> m in Scores(slot))
  }

  predicate ExpiresAt(slot: Option<Slot>, expiry: int) {
    slot.Some? ==> slot.value.expiry == Some(expiry)
  }

  // The counter hash, for a subject whose counter the window cleaner leaves alone.
  predicate MainOk(slot: Option<Slot>, sub: Subject, count: nat, expiry: int) {
    && IsHash(slot) && ExpiresAt(slot, expiry)
    && (Steady(sub) ==> slot.Some? && slot.value.value == Hash(map["count" := count]))
  }

  // The keys of one subject against the events they still stand for.
  ghost predicate GroupOk(db: Db, now: Time, sub: Subject, kept: seq<Event>, expiry: int) {
    var main, hours := Fetch(db, Name(Main(sub))), Fetch(db, Name(Hours(sub)));
    var ips, uas := Fetch(db, Name(Ips(sub))), Fetch(db, Name(Uas(sub)));
    if kept == [] then
      && main.None? && hours.None? && ips.None? && uas.None?
      && (sub.Token? ==> Fetch(db, Name(TokenPaths(sub.name))).None?)
    else
      && now < expiry
      && (forall e :: e in kept ==> e.now + TTL <= expiry)
      && MainOk(main, sub, |kept|, expiry)
      && HoursOk(hours, kept, expiry, now)
      && SightOk(ips, ByIp, kept, now) && ExpiresAt(ips, expiry)
      && SightOk(uas, ByUa, kept, now) && ExpiresAt(uas, expiry)
      && (sub.Token? ==>
            && SightOk(Fetch(db, Name(TokenPaths(sub.name))), ByPath, kept, now)
            && ExpiresAt(Fetch(db, Name(TokenPaths(sub.name))), expiry))
  }

  ghost predicate IndexOk(slot: Option<Slot>, log: seq<Event>, now: Time) {
    && IsZSet(slot)
    && (slot.Some? ==> slot.value.expiry.Some? && now < slot.value.expiry.value)
    && (forall e :: slot.Some? && e in log && e.token != "" ==> e.now + TTL <= slot.value.expiry.value)
    && (forall t :: t in Scores(slot) ==> t != "" && LastSeen(log, ByToken, t) == Some(Scores(slot)[t]))
    && (forall t :: t != "" && LastSeen(log, ByToken, t).Some? && LastSeen(log, ByToken, t).value > FirstSecond(now)
          ==> t in Scores(slot))
  }

  ghost predicate KeysOk(w: World, db: Db) {
    forall key :: key in db ==> IsKey(w, key)
  }

  ghost predicate Balanced(all: seq<Event>, kept: seq<Event>, lost: seq<Event>, first: int) {
    forall h :: h >= first ==> Tally(all, h) == Tally(kept, h) + Tally(lost, h)
  }

  predicate EndsWith(all: seq<Event>, tail: seq<Event>) {
    |tail| <= |all| && all[|all| - |tail|..] == tail
  }

  // In the window, the log is what is kept plus what deletions have dropped; none drops events of a token.
  ghost predicate LinkOk(log: seq<Event>, now: Time, sub: Subject, kept: seq<Event>, deleted: seq<Event>) {
    && Balanced(About(log, sub), kept, deleted, FirstHour(now))
    && EndsWith(About(log, sub), kept)
    && (forall e :: e in kept ==> e in log && Concerns(e, sub))
    && (sub.Token? ==> deleted == [])
  }

  // A patient cleaner drops nothing of the window but what came after its verdict.
  ghost predicate RacedOk(patient: bool, now: Time, deleted: seq<Event>, raced: seq<Event>) {
    && (patient ==> forall h :: h >= FirstHour(now) ==> Tally(deleted, h) == Tally(raced, h))
    && (forall h :: Tally(raced, h) <= Tally(deleted, h))
    && (deleted == [] ==> raced == [])
  }

  ghost predicate CleanerOk(w: World, cfg: Config, s: State) {
    && (s.cleaner.Counted? ==> Path(s.cleaner.path) in w && cfg.minCount >= 2)
    && (s.cleaner.Doomed? ==>
          && Path(s.cleaner.path) in w && cfg.minCount >= 2
          && var kept := Of(s.kept, Path(s.cleaner.path));
          && s.cleaner.seen <= |kept|
          && (PatientConfig(cfg) ==> forall h :: h >= FirstHour(s.now) ==> Tally(kept[..s.cleaner.seen], h) == 0))
  }

  ghost predicate EventsOk(w: World, s: State) {
    && (forall e :: e in s.queue || e in s.held || e in s.log ==> e in s.offered)
    && (forall e :: e in s.offered ==> EventIn(w, e) && e.now <= s.now)
  }

  ghost predicate StoreOk(w: World, patient: bool, s: State) {
    && KeysOk(w, s.db)
    && IndexOk(Fetch(s.db, Name(TokenIndex)), s.log, s.now)
    && (forall sub :: sub in w ==> SubjectOk(patient, s, sub))
  }

  ghost predicate SubjectOk(patient: bool, s: State, sub: Subject) {
    && GroupOk(s.db, s.now, sub, Of(s.kept, sub), Until(s.until, sub))
    && LinkOk(s.log, s.now, sub, Of(s.kept, sub), Of(s.deleted, sub))
    && RacedOk(patient, s.now, Of(s.deleted, sub), Of(s.raced, sub))
  }

  ghost predicate Inv(w: World, cfg: Config, s: State) {
    EventsOk(w, s) && StoreOk(w, PatientConfig(cfg), s) && CleanerOk(w, cfg, s)
  }
}
