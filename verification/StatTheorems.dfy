/** The guarantees of the 48-hour statistics, over every run. */
module StatTheorems {
  import opened Wrappers
  import opened Strings
  import opened Redis
  import opened StatKeys
  import opened Clock
  import opened Decimal
  import opened Sorting
  import opened Sums
  import opened Recording
  import opened StatSystem
  import opened StatProofs
  import opened StatReads

  // The events recorded for a subject in one hour, those of them that deletions dropped, and those that
  // were dropped although they came after the verdict.
  ghost function Recordings(s: State, sub: Subject, hour: int): nat {
    Tally(About(s.log, sub), hour)
  }

  ghost function Dropped(s: State, sub: Subject, hour: int): nat {
    Tally(Of(s.deleted, sub), hour)
  }

  ghost function Lost(s: State, sub: Subject, hour: int): nat {
    Tally(Of(s.raced, sub), hour)
  }

  lemma SubjectHolds(w: World, cfg: Config, actions: seq<Action>, sub: Subject)
    requires RunsIn(w, actions) && sub in w
    ensures SubjectOk(PatientConfig(cfg), Run(cfg, actions), sub)
  {
    hide SubjectOk, Run;
    RunKeeps(w, cfg, actions);
  }

  // ------------------------------------------------------------ time

  lemma {:induction false} ClockAdvances(cfg: Config, actions: seq<Action>, k: nat)
    requires k <= |actions|
    ensures Run(cfg, actions[..k]).now <= Run(cfg, actions).now
    decreases |actions|
  {
    hide Run, Step;
    if k == |actions| {
      assert actions[..k] == actions;
    } else {
      var before, last := actions[..|actions| - 1], actions[|actions| - 1];
      assert before[..k] == actions[..k] && actions == before + [last];
      ClockAdvances(cfg, before, k);
      RunAppend(cfg, before, last);
      ClockStep(cfg, Run(cfg, before), last);
    }
  }

  lemma ClockStep(cfg: Config, s: State, a: Action)
    ensures s.now <= Step(cfg, s, a).now
  {
    hide Step;
    StepFrame(cfg, s, a);
  }

  // ------------------------------------------------------------ the histogram

  lemma SlotReads(db: Db, sub: Subject, at: Time, i: nat)
    requires i < WINDOW_HOURS
    ensures ReadSubject(db, sub, at).hourly[i] == HourTotal(HGetAll(Fetch(db, Name(Hours(sub)))), FirstHour(at) + i)
  {
    hide HourTotal, HGetAll, Name, Ascending, SumSeq, RangeFrom, Fields, Fetch, Unix;
  }

  // Each slot of a report is the bucket of its hour.
  lemma SlotIsBucket(w: World, cfg: Config, actions: seq<Action>, sub: Subject, at: Time, i: nat)
    requires RunsIn(w, actions) && sub in w && i < WINDOW_HOURS
    ensures var s, h := Run(cfg, actions), FirstHour(at) + i;
      var kept, slot := Of(s.kept, sub), ReadSubject(s.db, sub, at).hourly[i];
      && slot == Bucket(Fetch(s.db, Name(Hours(sub))), h)
      && 0 <= slot <= Tally(kept, h) && (h >= FirstHour(s.now) ==> slot == Tally(kept, h))
  {
    hide Name, SightOk, LinkOk, Run, ReadSubject, ParseInt, FormatInt;
    var s, h := Run(cfg, actions), FirstHour(at) + i;
    SubjectHolds(w, cfg, actions, sub);
    SlotReads(s.db, sub, at, i);
    HourTotalIsBucket(Fetch(s.db, Name(Hours(sub))), s.now, h);
  }

  lemma {:induction false} TallyOfTail(all: seq<Event>, tail: seq<Event>, h: int)
    requires EndsWith(all, tail)
    ensures Tally(tail, h) <= Tally(all, h)
  {
    assert all == all[..|all| - |tail|] + tail;
    TallySplit(all[..|all| - |tail|], tail, h);
  }

  /** The window refines the event list, over every run and under any cleaner. A reader whose clock
      reading is `at` reports, for every hour still in the window when the read is served, exactly the
      recorded events of that hour less those that deletions dropped; for no hour does it report more
      than were recorded. A patient cleaner drops only what was recorded after its verdict, and no
      cleaner ever drops events of a token. */
  lemma HistogramIsEventList(w: World, cfg: Config, actions: seq<Action>, sub: Subject, at: Time, i: nat)
    requires RunsIn(w, actions) && sub in w && i < WINDOW_HOURS
    ensures var s, h := Run(cfg, actions), FirstHour(at) + i;
      var slot := ReadSubject(s.db, sub, at).hourly[i];
      && 0 <= slot <= Recordings(s, sub, h)
      && (h >= FirstHour(s.now) ==> slot + Dropped(s, sub, h) == Recordings(s, sub, h))
      && (h >= FirstHour(s.now) && PatientConfig(cfg) ==> Dropped(s, sub, h) == Lost(s, sub, h))
      && (sub.Token? ==> Dropped(s, sub, h) == Lost(s, sub, h) == 0)
  {
    hide Name, GroupOk, ReadSubject, About, Run;
    var s, h := Run(cfg, actions), FirstHour(at) + i;
    SubjectHolds(w, cfg, actions, sub);
    SlotIsBucket(w, cfg, actions, sub, at, i);
    TallyOfTail(About(s.log, sub), Of(s.kept, sub), h);
  }

  // ------------------------------------------------------------ deletion races

  // No event is written for a path between the cleaner's verdict on it and its deletion.
  ghost predicate Quiet(cfg: Config, actions: seq<Action>) {
    forall k :: 0 <= k < |actions| ==> QuietAt(Run(cfg, actions[..k]), actions[k])
  }

  predicate QuietAt(s: State, a: Action) {
    s.cleaner.Doomed? && a.Write? && a.worker < |s.held| ==> s.held[a.worker].path != s.cleaner.path
  }

  ghost predicate NothingLost(s: State) {
    && (forall sub :: Of(s.raced, sub) == [])
    && (s.cleaner.Doomed? ==> s.cleaner.seen == |Of(s.kept, Path(s.cleaner.path))|)
  }

  lemma QuietStep(cfg: Config, s: State, a: Action)
    requires NothingLost(s) && QuietAt(s, a)
    ensures NothingLost(Step(cfg, s, a))
  {
    hide NothingLost, Cleaned, LowCount, Ticked, Written, HoursRead, PathDeleted, IsMainKey;
    match a {
      case Tick(to) => if s.now <= to { QuietTick(s, to); }
      case Write(i) => if i < |s.held| { QuietWrite(s, i); }
      case ReadHours => if s.cleaner.Counted? { QuietVerdict(cfg, s); }
      case Delete => if s.cleaner.Doomed? && s.cleaner.seen <= |Of(s.kept, Path(s.cleaner.path))| { QuietDelete(s); }
      case _ => QuietRest(cfg, s, a);
    }
  }

  lemma QuietTick(s: State, to: Time)
    requires NothingLost(s)
    ensures NothingLost(Ticked(s, to))
  {}

  lemma QuietWrite(s: State, i: nat)
    requires NothingLost(s) && i < |s.held| && QuietAt(s, Write(i))
    ensures NothingLost(Written(s, i))
  {}

  lemma QuietVerdict(cfg: Config, s: State)
    requires NothingLost(s) && s.cleaner.Counted?
    ensures NothingLost(HoursRead(cfg, s))
  {}

  lemma QuietDelete(s: State)
    requires NothingLost(s) && s.cleaner.Doomed?
    ensures NothingLost(PathDeleted(s))
  {
    hide DeletedPath;
    var sub, kept := Path(s.cleaner.path), Of(s.kept, Path(s.cleaner.path));
    var s' := PathDeleted(s);
    assert Of(s.raced, sub) + kept[s.cleaner.seen..] == [];
    forall x ensures Of(s'.raced, x) == [] {
      assert Of(s'.raced, x) == if x == sub then Of(s.raced, sub) + kept[s.cleaner.seen..] else Of(s.raced, x);
    }
  }

  lemma QuietRest(cfg: Config, s: State, a: Action)
    requires NothingLost(s) && (a.Offer? || a.Take? || a.CleanWindow? || a.DropStale? || a.ReadCount?)
    ensures NothingLost(Step(cfg, s, a))
  {}

  lemma {:induction false} QuietLosesNothing(cfg: Config, actions: seq<Action>)
    requires Quiet(cfg, actions)
    ensures NothingLost(Run(cfg, actions))
  {
    hide Step, QuietAt;
    if actions != [] {
      var before := actions[..|actions| - 1];
      assert forall k :: 0 <= k < |before| ==> before[..k] == actions[..k] && before[k] == actions[k];
      QuietLosesNothing(cfg, before);
      QuietStep(cfg, Run(cfg, before), actions[|actions| - 1]);
    }
  }

  // ------------------------------------------------------------ counts

  predicate HourIn(e: Event, lo: int, hi: int) {
    lo <= HourBucket(e.now) < hi
  }

  function Between(events: seq<Event>, lo: int, hi: int): nat {
    if events == [] then 0
    else Between(events[..|events| - 1], lo, hi) + (if HourIn(events[|events| - 1], lo, hi) then 1 else 0)
  }

  lemma {:induction false} BetweenStep(events: seq<Event>, lo: int, hi: int)
    requires lo <= hi
    ensures Between(events, lo, lo) == 0
    ensures Between(events, lo, hi + 1) == Between(events, lo, hi) + Tally(events, hi)
    ensures Between(events, lo, hi) <= |events|
  {
    if events != [] {
      BetweenStep(events[..|events| - 1], lo, hi);
    }
  }

  lemma {:induction false} SlotsAddUp(hourly: seq<int>, events: seq<Event>, lo: int)
    requires forall i :: 0 <= i < |hourly| ==> hourly[i] <= Tally(events, lo + i)
    ensures SumSeq(hourly) <= Between(events, lo, lo + |hourly|)
    ensures (forall i :: 0 <= i < |hourly| ==> hourly[i] == Tally(events, lo + i)) ==>
      SumSeq(hourly) == Between(events, lo, lo + |hourly|)
  {
    if hourly == [] {
      BetweenStep(events, lo, lo);
    } else {
      SlotsAddUp(hourly[..|hourly| - 1], events, lo);
      BetweenStep(events, lo, lo + |hourly| - 1);
    }
  }

  /** A path's or token's 48-hour count never exceeds its running count: the two hashes are
      written, expired and deleted together. This needs no patience of the cleaner, only that it does not
      take the counter hash for an hour hash (see StatEdges.CounterIsPruned). */
  lemma WindowWithinCount(w: World, cfg: Config, actions: seq<Action>, sub: Subject, at: Time)
    requires RunsIn(w, actions) && sub in w && Steady(sub)
    ensures var report := ReadSubject(Run(cfg, actions).db, sub, at);
      0 <= report.count48h <= report.count
  {
    hide Run, ReadSubject, Between, SumSeq, Tally;
    var s := Run(cfg, actions);
    var hourly := ReadSubject(s.db, sub, at).hourly;
    ReportShape(s.db, sub, at);
    CountIsKept(w, cfg, actions, sub, at);
    forall i | 0 <= i < WINDOW_HOURS ensures 0 <= hourly[i] <= Tally(Of(s.kept, sub), FirstHour(at) + i) {
      SlotIsBucket(w, cfg, actions, sub, at, i);
    }
    SlotsAddUp(hourly, Of(s.kept, sub), FirstHour(at));
    BetweenStep(Of(s.kept, sub), FirstHour(at), FirstHour(at) + WINDOW_HOURS);
    SumNonNegative(hourly);
  }

  lemma ReportShape(db: Db, sub: Subject, at: Time)
    ensures var report := ReadSubject(db, sub, at);
      report.count48h == SumSeq(report.hourly) && |report.hourly| == WINDOW_HOURS
  {}

  lemma CountIsKept(w: World, cfg: Config, actions: seq<Action>, sub: Subject, at: Time)
    requires RunsIn(w, actions) && sub in w && Steady(sub)
    ensures ReadSubject(Run(cfg, actions).db, sub, at).count == |Of(Run(cfg, actions).kept, sub)|
  {
    hide Name, SubjectOk, Run, Histogram, Steady;
    SubjectHolds(w, cfg, actions, sub);
    SteadyCount(PatientConfig(cfg), Run(cfg, actions), sub);
  }

  lemma {:induction false} SumNonNegative(s: seq<int>)
    requires forall i :: 0 <= i < |s| ==> s[i] >= 0
    ensures SumSeq(s) >= 0
  {
    if s != [] {
      SumNonNegative(s[..|s| - 1]);
    }
  }

  // ------------------------------------------------------------ double entry

  datatype Kind = Paths | Tokens

  function SubjectOf(kind: Kind, name: string): Subject {
    if kind.Paths? then Path(name) else Token(name)
  }

  function Label(e: Event, kind: Kind): string {
    if kind.Paths? then e.path else e.token
  }

  // The window events whose path (or token) is one of `names`.
  function Labelled(log: seq<Event>, kind: Kind, names: set<string>, lo: int, hi: int): nat {
    if log == [] then 0
    else
      var e := log[|log| - 1];
      Labelled(log[..|log| - 1], kind, names, lo, hi) + (if HourIn(e, lo, hi) && Label(e, kind) in names then 1 else 0)
  }

  function Share(log: seq<Event>, kind: Kind, lo: int, hi: int): string -> int {
    name => Between(About(log, SubjectOf(kind, name)), lo, hi)
  }

  lemma BetweenAppend(events: seq<Event>, e: Event, lo: int, hi: int)
    ensures Between(events + [e], lo, hi) == Between(events, lo, hi) + (if HourIn(e, lo, hi) then 1 else 0)
  {}

  lemma {:induction false} SharesAddUp(log: seq<Event>, kind: Kind, names: set<string>, lo: int, hi: int)
    requires kind.Tokens? ==> "" !in names
    ensures SumSet(names, Share(log, kind, lo, hi)) == Labelled(log, kind, names, lo, hi)
  {
    hide HourIn, About, Between;
    if log == [] {
      EmptyShare(kind, lo, hi);
      SumZero(names, Share(log, kind, lo, hi));
    } else {
      var before, e := log[..|log| - 1], log[|log| - 1];
      assert log == before + [e];
      var f, g := Share(before, kind, lo, hi), Share(log, kind, lo, hi);
      SharesAddUp(before, kind, names, lo, hi);
      forall name | name in names
        ensures g(name) == f(name) + (if name == Label(e, kind) && HourIn(e, lo, hi) then 1 else 0)
      {
        ShareStep(before, e, kind, name, lo, hi);
      }
      if HourIn(e, lo, hi) && Label(e, kind) in names {
        SumBump(names, f, g, Label(e, kind));
      } else {
        SumEqual(names, f, g);
      }
    }
  }

  lemma EmptyShare(kind: Kind, lo: int, hi: int)
    ensures forall name :: Share([], kind, lo, hi)(name) == 0
  {}

  lemma ShareStep(before: seq<Event>, e: Event, kind: Kind, name: string, lo: int, hi: int)
    requires kind.Tokens? ==> name != ""
    ensures Share(before + [e], kind, lo, hi)(name) ==
      Share(before, kind, lo, hi)(name) + (if name == Label(e, kind) && HourIn(e, lo, hi) then 1 else 0)
  {
    hide HourBucket, About, Between;
    var sub := SubjectOf(kind, name);
    AboutAppend(before, e, sub);
    BetweenAppend(About(before, sub), e, lo, hi);
    assert About(before, sub) + [] == About(before, sub);
  }

  ghost function Counts(db: Db, kind: Kind, at: Time): string -> int {
    name => ReadSubject(db, SubjectOf(kind, name), at).count48h
  }

  predicate CurrentReading(at: Time, served: Time) {
    HourBucket(at) == HourBucket(served)
  }

  // What deletions have taken from the window of each name.
  ghost function Drops(s: State, kind: Kind, lo: int, hi: int): string -> int {
    name => Between(Of(s.deleted, SubjectOf(kind, name)), lo, hi)
  }

  lemma {:induction false} SlotsAndDrops(hourly: seq<int>, all: seq<Event>, lost: seq<Event>, lo: int)
    requires forall i :: 0 <= i < |hourly| ==> hourly[i] + Tally(lost, lo + i) == Tally(all, lo + i)
    ensures SumSeq(hourly) + Between(lost, lo, lo + |hourly|) == Between(all, lo, lo + |hourly|)
  {
    if hourly == [] {
      BetweenStep(all, lo, lo);
      BetweenStep(lost, lo, lo);
    } else {
      SlotsAndDrops(hourly[..|hourly| - 1], all, lost, lo);
      BetweenStep(all, lo, lo + |hourly| - 1);
      BetweenStep(lost, lo, lo + |hourly| - 1);
    }
  }

  lemma CountAndDrops(w: World, cfg: Config, actions: seq<Action>, sub: Subject, at: Time)
    requires RunsIn(w, actions) && sub in w && CurrentReading(at, Run(cfg, actions).now)
    ensures var s, lo := Run(cfg, actions), FirstHour(at);
      ReadSubject(s.db, sub, at).count48h + Between(Of(s.deleted, sub), lo, lo + WINDOW_HOURS)
        == Between(About(s.log, sub), lo, lo + WINDOW_HOURS)
  {
    hide Run, About, ReadSubject, SumSeq, Between, RunsIn, Tally;
    var s := Run(cfg, actions);
    var hourly := ReadSubject(s.db, sub, at).hourly;
    ReportShape(s.db, sub, at);
    forall i | 0 <= i < WINDOW_HOURS
      ensures hourly[i] + Tally(Of(s.deleted, sub), FirstHour(at) + i) == Tally(About(s.log, sub), FirstHour(at) + i)
    {
      HistogramIsEventList(w, cfg, actions, sub, at, i);
    }
    SlotsAndDrops(hourly, About(s.log, sub), Of(s.deleted, sub), FirstHour(at));
  }

  /** Conservation, over every run and under any cleaner: the 48-hour counts of any set of paths (or
      tokens) of the world and what deletions have dropped of them add up to the recorded window events
      that carry one of those names. */
  lemma CountsAndDropsAddUp(w: World, cfg: Config, actions: seq<Action>, kind: Kind, names: set<string>, at: Time)
    requires RunsIn(w, actions) && CurrentReading(at, Run(cfg, actions).now)
    requires forall name :: name in names ==> SubjectOf(kind, name) in w && (kind.Tokens? ==> name != "")
    ensures var s, lo := Run(cfg, actions), FirstHour(at);
      SumSet(names, Counts(s.db, kind, at)) + SumSet(names, Drops(s, kind, lo, lo + WINDOW_HOURS))
        == Labelled(s.log, kind, names, lo, lo + WINDOW_HOURS)
  {
    hide Run, ReadSubject, About, Between, RunsIn;
    var s, lo := Run(cfg, actions), FirstHour(at);
    var f, g, share := Counts(s.db, kind, at), Drops(s, kind, lo, lo + WINDOW_HOURS), Share(s.log, kind, lo, lo + WINDOW_HOURS);
    forall name | name in names ensures f(name) + g(name) == share(name) {
      CountAndDrops(w, cfg, actions, SubjectOf(kind, name), at);
    }
    SumPlus(names, f, g, share);
    SharesAddUp(s.log, kind, names, lo, lo + WINDOW_HOURS);
  }

  /** What a patient cleaner drops of the window is what a racing write brought: per path, exactly the
      events recorded between a verdict and its deletion. */
  lemma DropsAreRaces(w: World, cfg: Config, actions: seq<Action>, sub: Subject, at: Time)
    requires RunsIn(w, actions) && sub in w && PatientConfig(cfg) && CurrentReading(at, Run(cfg, actions).now)
    ensures var s, lo := Run(cfg, actions), FirstHour(at);
      Between(Of(s.deleted, sub), lo, lo + WINDOW_HOURS) == Between(Of(s.raced, sub), lo, lo + WINDOW_HOURS)
  {
    hide GroupOk, LinkOk, Run, RunsIn;
    var s, lo := Run(cfg, actions), FirstHour(at);
    SubjectHolds(w, cfg, actions, sub);
    SameTallies(Of(s.deleted, sub), Of(s.raced, sub), lo, lo + WINDOW_HOURS);
  }

  lemma {:induction false} SameTallies(a: seq<Event>, b: seq<Event>, lo: int, hi: int)
    requires lo <= hi && forall h :: lo <= h < hi ==> Tally(a, h) == Tally(b, h)
    ensures Between(a, lo, hi) == Between(b, lo, hi)
    decreases hi - lo
  {
    if lo == hi {
      BetweenStep(a, lo, lo);
      BetweenStep(b, lo, lo);
    } else {
      SameTallies(a, b, lo, hi - 1);
      BetweenStep(a, lo, hi - 1);
      BetweenStep(b, lo, hi - 1);
    }
  }

  // A reader in the current hour; for paths, over a run of a patient cleaner in which no deletion raced
  // with a write. Tokens need neither.
  ghost predicate FairReading(w: World, cfg: Config, actions: seq<Action>, at: Time, kind: Kind) {
    && RunsIn(w, actions) && CurrentReading(at, Run(cfg, actions).now)
    && (kind.Paths? ==> PatientConfig(cfg) && Quiet(cfg, actions))
  }

  function KindOf(sub: Subject): Kind {
    if sub.Path? then Paths else Tokens
  }

  lemma NothingDropped(w: World, cfg: Config, actions: seq<Action>, sub: Subject, at: Time)
    requires FairReading(w, cfg, actions, at, KindOf(sub)) && sub in w
    ensures var s, lo := Run(cfg, actions), FirstHour(at);
      Between(Of(s.deleted, sub), lo, lo + WINDOW_HOURS) == 0
  {
    hide Run, Quiet, RunsIn, GroupOk, RacedOk;
    if sub.Path? {
      QuietLosesNothing(cfg, actions);
      DropsAreRaces(w, cfg, actions, sub, at);
    } else {
      SubjectHolds(w, cfg, actions, sub);
    }
  }

  lemma CountIsShare(w: World, cfg: Config, actions: seq<Action>, sub: Subject, at: Time)
    requires FairReading(w, cfg, actions, at, KindOf(sub)) && sub in w
    ensures var s := Run(cfg, actions);
      ReadSubject(s.db, sub, at).count48h == Between(About(s.log, sub), FirstHour(at), FirstHour(at) + WINDOW_HOURS)
  {
    hide Run, About, Quiet, ReadSubject, Between, RunsIn;
    NothingDropped(w, cfg, actions, sub, at);
    CountAndDrops(w, cfg, actions, sub, at);
  }

  /** So without races, for a patient cleaner, and for tokens always, the counts alone add up. */
  lemma CountsAddUp(w: World, cfg: Config, actions: seq<Action>, kind: Kind, names: set<string>, at: Time)
    requires FairReading(w, cfg, actions, at, kind)
    requires forall name :: name in names ==> SubjectOf(kind, name) in w && (kind.Tokens? ==> name != "")
    ensures var s := Run(cfg, actions);
      SumSet(names, Counts(s.db, kind, at)) == Labelled(s.log, kind, names, FirstHour(at), FirstHour(at) + WINDOW_HOURS)
  {
    hide Run, ReadSubject, About, Between, Quiet, RunsIn;
    var s, lo := Run(cfg, actions), FirstHour(at);
    forall name | name in names ensures Drops(s, kind, lo, lo + WINDOW_HOURS)(name) == 0 {
      NothingDropped(w, cfg, actions, SubjectOf(kind, name), at);
    }
    SumZero(names, Drops(s, kind, lo, lo + WINDOW_HOURS));
    CountsAndDropsAddUp(w, cfg, actions, kind, names, at);
  }

  // Window events that carry a name of the kind: every event has a path, not every event a token.
  predicate Named(e: Event, kind: Kind, lo: int, hi: int) {
    HourIn(e, lo, hi) && (kind.Tokens? ==> e.token != "")
  }

  function NamedCount(log: seq<Event>, kind: Kind, lo: int, hi: int): nat {
    if log == [] then 0
    else NamedCount(log[..|log| - 1], kind, lo, hi) + (if Named(log[|log| - 1], kind, lo, hi) then 1 else 0)
  }

  ghost predicate Complete(log: seq<Event>, kind: Kind, names: set<string>, lo: int, hi: int) {
    forall e :: e in log && Named(e, kind, lo, hi) ==> Label(e, kind) in names
  }

  lemma {:induction false} CompleteCounts(log: seq<Event>, kind: Kind, names: set<string>, lo: int, hi: int)
    requires kind.Tokens? ==> "" !in names
    ensures Labelled(log, kind, names, lo, hi) <= NamedCount(log, kind, lo, hi)
    ensures Labelled(log, kind, names, lo, hi) == NamedCount(log, kind, lo, hi) <==> Complete(log, kind, names, lo, hi)
  {
    if log != [] {
      var before, e := log[..|log| - 1], log[|log| - 1];
      CompleteCounts(before, kind, names, lo, hi);
      assert log == before + [e];
    }
  }

  // A scan that missed nothing and returned only keys that record writes.
  ghost predicate Scanned(w: World, keys: seq<string>, db: Db) {
    && (forall key :: key in db ==> key in keys)
    && (forall i :: 0 <= i < |keys| ==> IsKey(w, keys[i]))
  }

  // The path's own key passes the filter; for a path without "::", by StatKeys.ListedPath, unless it is
  // one of the nine shadowed spellings.
  predicate Listable(path: string) {
    IsMainKey(Name(Main(Path(path))))
  }

  lemma ListedPathsAreListable(w: World, keys: seq<string>, db: Db, p: string)
    requires Scanned(w, keys, db) && p in ListedPaths(keys)
    ensures Path(p) in w && Listable(p)
  {
    hide Name, IsMainKey;
    var i :| 0 <= i < |keys| && IsMainKey(keys[i]) && p == TrimPrefix(keys[i], "stats::");
    var k :| Spells(w, k, keys[i]);
    MainKeyIsPath(k);
  }

  lemma LivePathIsListed(w: World, keys: seq<string>, db: Db, p: string)
    requires Scanned(w, keys, db) && Listable(p) && Name(Main(Path(p))) in db
    ensures p in ListedPaths(keys)
  {
    hide Name, IsMainKey;
    MainKeyIsPath(Main(Path(p)));
    var i :| 0 <= i < |keys| && keys[i] == Name(Main(Path(p)));
  }

  lemma {:induction false} AboutMembers(log: seq<Event>, sub: Subject, e: Event)
    ensures e in About(log, sub) <==> e in log && Concerns(e, sub)
  {
    if log != [] {
      AboutMembers(log[..|log| - 1], sub, e);
      assert log == log[..|log| - 1] + [log[|log| - 1]];
    }
  }

  lemma {:induction false} TallyCounts(events: seq<Event>, e: Event)
    requires e in events
    ensures Tally(events, HourBucket(e.now)) >= 1
  {
    assert events == events[..|events| - 1] + [events[|events| - 1]];
    if e != events[|events| - 1] {
      TallyCounts(events[..|events| - 1], e);
    }
  }

  // With nothing of its hour dropped, a recorded window event is still kept.
  lemma EventIsKept(w: World, cfg: Config, actions: seq<Action>, sub: Subject, e: Event)
    requires RunsIn(w, actions) && sub in w && Dropped(Run(cfg, actions), sub, HourBucket(e.now)) == 0
    requires var s := Run(cfg, actions); e in s.log && Concerns(e, sub) && HourBucket(e.now) >= FirstHour(s.now)
    ensures e in Of(Run(cfg, actions).kept, sub)
  {
    hide Run, Name, GroupOk, RacedOk, About, RunsIn;
    var s := Run(cfg, actions);
    var all, kept := About(s.log, sub), Of(s.kept, sub);
    SubjectHolds(w, cfg, actions, sub);
    AboutMembers(s.log, sub, e);
    var gone := all[..|all| - |kept|];
    assert all == gone + kept;
    TallySplit(gone, kept, HourBucket(e.now));
    if e in gone {
      TallyCounts(gone, e);
    }
  }

  lemma {:induction false} TallyInBetween(events: seq<Event>, h: int, lo: int, hi: int)
    requires lo <= h < hi
    ensures Tally(events, h) <= Between(events, lo, hi)
  {
    if events != [] {
      TallyInBetween(events[..|events| - 1], h, lo, hi);
    }
  }

  lemma WindowEventIsKept(w: World, cfg: Config, actions: seq<Action>, sub: Subject, e: Event)
    requires RunsIn(w, actions) && sub in w && (sub.Path? ==> PatientConfig(cfg) && Quiet(cfg, actions))
    requires var s := Run(cfg, actions); e in s.log && Concerns(e, sub) && HourBucket(e.now) >= FirstHour(s.now)
    ensures e in Of(Run(cfg, actions).kept, sub)
  {
    hide Run, Quiet, RunsIn, Between, Tally;
    var s := Run(cfg, actions);
    LogIsSafe(w, cfg, actions, e);
    ClockMonotone(e.now, s.now);
    NothingDropped(w, cfg, actions, sub, s.now);
    TallyInBetween(Of(s.deleted, sub), HourBucket(e.now), FirstHour(s.now), FirstHour(s.now) + WINDOW_HOURS);
    EventIsKept(w, cfg, actions, sub, e);
  }

  lemma KeptMeansLive(w: World, cfg: Config, actions: seq<Action>, sub: Subject)
    requires RunsIn(w, actions) && sub in w && Steady(sub)
    ensures var s := Run(cfg, actions); Of(s.kept, sub) != [] <==> Name(Main(sub)) in s.db
  {
    hide Name, HoursOk, SightOk, LinkOk, Run, Steady;
    SubjectHolds(w, cfg, actions, sub);
  }

  // Nothing of the path's window has been dropped.
  ghost predicate Intact(s: State, path: string, lo: int, hi: int) {
    Between(Of(s.deleted, Path(path)), lo, hi) == 0
  }

  /** Double entry, path side, over every run and under any cleaner: what pathStats reports adds up to
      every recorded window event exactly when, for each of those events, the path passes the filter and
      no deletion has dropped anything of its window. */
  lemma PathsAddUp(w: World, cfg: Config, actions: seq<Action>, keys: seq<string>, at: Time)
    requires RunsIn(w, actions) && CurrentReading(at, Run(cfg, actions).now) && Scanned(w, keys, Run(cfg, actions).db)
    ensures var s, lo := Run(cfg, actions), FirstHour(at);
      SumSet(ListedPaths(keys), Counts(s.db, Paths, at)) == NamedCount(s.log, Paths, lo, lo + WINDOW_HOURS)
      <==> forall e :: e in s.log && HourIn(e, lo, lo + WINDOW_HOURS) ==> Listable(e.path) && Intact(s, e.path, lo, lo + WINDOW_HOURS)
  {
    hide Run, Name, Scanned, ReadSubject, RunsIn, ListedPaths, Listable, Intact, Drops, HourBucket;
    var s, lo, names := Run(cfg, actions), FirstHour(at), ListedPaths(keys);
    var hi, drops := lo + WINDOW_HOURS, Drops(s, Paths, lo, lo + WINDOW_HOURS);
    forall p | p in names ensures SubjectOf(Paths, p) in w && Listable(p) {
      ListedPathsAreListable(w, keys, s.db, p);
    }
    CountsAndDropsAddUp(w, cfg, actions, Paths, names, at);
    CompleteCounts(s.log, Paths, names, lo, hi);
    forall p ensures drops(p) >= 0 && (drops(p) == 0 <==> Intact(s, p, lo, hi)) {
      DropsOf(s, p, lo, hi);
    }
    NoDropsNegative(names, drops);
    if forall e :: e in s.log && HourIn(e, lo, hi) ==> Listable(e.path) && Intact(s, e.path, lo, hi) {
      IntactAddsUp(w, cfg, actions, keys, at);
    }
    if SumSet(names, Counts(s.db, Paths, at)) == NamedCount(s.log, Paths, lo, hi) {
      forall e | e in s.log && HourIn(e, lo, hi) ensures Listable(e.path) && Intact(s, e.path, lo, hi) {
        assert Complete(s.log, Paths, names, lo, hi) && Named(e, Paths, lo, hi);
        SumBounds(names, drops, e.path);
      }
    }
  }

  lemma DropsOf(s: State, p: string, lo: int, hi: int)
    ensures Drops(s, Paths, lo, hi)(p) >= 0 && (Drops(s, Paths, lo, hi)(p) == 0 <==> Intact(s, p, lo, hi))
  {}

  // With every window event's path listable and intact, nothing of a listed path is dropped and every
  // window event's path is listed.
  lemma IntactAddsUp(w: World, cfg: Config, actions: seq<Action>, keys: seq<string>, at: Time)
    requires RunsIn(w, actions) && CurrentReading(at, Run(cfg, actions).now) && Scanned(w, keys, Run(cfg, actions).db)
    requires var s, lo := Run(cfg, actions), FirstHour(at);
      forall e :: e in s.log && HourIn(e, lo, lo + WINDOW_HOURS) ==> Listable(e.path) && Intact(s, e.path, lo, lo + WINDOW_HOURS)
    ensures var s, lo := Run(cfg, actions), FirstHour(at);
      && Complete(s.log, Paths, ListedPaths(keys), lo, lo + WINDOW_HOURS)
      && SumSet(ListedPaths(keys), Drops(s, Paths, lo, lo + WINDOW_HOURS)) == 0
  {
    hide Run, Name, Scanned, RunsIn, ListedPaths, Listable, Intact, Drops, HourBucket;
    var s, lo, names := Run(cfg, actions), FirstHour(at), ListedPaths(keys);
    var hi, drops := lo + WINDOW_HOURS, Drops(s, Paths, lo, lo + WINDOW_HOURS);
    forall e | e in s.log && Named(e, Paths, lo, hi) ensures e.path in names {
      IntactPathIsListed(w, cfg, actions, keys, e);
    }
    forall p | p in names ensures drops(p) == 0 {
      DropsOf(s, p, lo, hi);
      if !Intact(s, p, lo, hi) {
        ListedPathsAreListable(w, keys, s.db, p);
        DropsWereRecorded(w, cfg, actions, p, at);
      }
    }
    SumZero(names, drops);
  }

  lemma NoDropsNegative(names: set<string>, drops: string -> int)
    requires forall name :: name in names ==> drops(name) >= 0
    ensures SumSet(names, drops) >= 0
  {
    if name :| name in names {
      SumBounds(names, drops, name);
    }
  }

  // Whatever a deletion has dropped of the window had been recorded.
  lemma DropsWereRecorded(w: World, cfg: Config, actions: seq<Action>, path: string, at: Time)
    requires RunsIn(w, actions) && Path(path) in w && CurrentReading(at, Run(cfg, actions).now)
    requires !Intact(Run(cfg, actions), path, FirstHour(at), FirstHour(at) + WINDOW_HOURS)
    ensures exists e :: e in Run(cfg, actions).log && e.path == path && HourIn(e, FirstHour(at), FirstHour(at) + WINDOW_HOURS)
  {
    hide Run, GroupOk, RacedOk, About, RunsIn, Tally, Between;
    var s, lo, sub := Run(cfg, actions), FirstHour(at), Path(path);
    SubjectHolds(w, cfg, actions, sub);
    BetweenHasEvent(Of(s.deleted, sub), lo, lo + WINDOW_HOURS);
    var d :| d in Of(s.deleted, sub) && HourIn(d, lo, lo + WINDOW_HOURS);
    TallyCounts(Of(s.deleted, sub), d);
    TallyHasEvent(About(s.log, sub), HourBucket(d.now));
    var e :| e in About(s.log, sub) && HourBucket(e.now) == HourBucket(d.now);
    AboutMembers(s.log, sub, e);
  }

  lemma {:induction false} BetweenHasEvent(events: seq<Event>, lo: int, hi: int)
    requires Between(events, lo, hi) > 0
    ensures exists e :: e in events && HourIn(e, lo, hi)
  {
    var e := events[|events| - 1];
    if !HourIn(e, lo, hi) {
      BetweenHasEvent(events[..|events| - 1], lo, hi);
    }
  }

  lemma {:induction false} TallyHasEvent(events: seq<Event>, h: int)
    requires Tally(events, h) >= 1
    ensures exists e :: e in events && HourBucket(e.now) == h
  {
    hide HourBucket;
    assert events[|events| - 1] in events;
    if HourBucket(events[|events| - 1].now) != h {
      TallyHasEvent(events[..|events| - 1], h);
    }
  }

  lemma IntactPathIsListed(w: World, cfg: Config, actions: seq<Action>, keys: seq<string>, e: Event)
    requires RunsIn(w, actions) && Scanned(w, keys, Run(cfg, actions).db) && Listable(e.path)
    requires e in Run(cfg, actions).log && HourBucket(e.now) >= FirstHour(Run(cfg, actions).now)
    requires var s := Run(cfg, actions); Intact(s, e.path, FirstHour(s.now), FirstHour(s.now) + WINDOW_HOURS)
    ensures e.path in ListedPaths(keys)
  {
    hide Run, Name, Scanned, RunsIn, ListedPaths, IsMainKey, Steady, Between, Tally;
    var s := Run(cfg, actions);
    LogIsSafe(w, cfg, actions, e);
    ClockMonotone(e.now, s.now);
    TallyInBetween(Of(s.deleted, Path(e.path)), HourBucket(e.now), FirstHour(s.now), FirstHour(s.now) + WINDOW_HOURS);
    EventIsKept(w, cfg, actions, Path(e.path), e);
    MainKeyIsPath(Main(Path(e.path)));
    KeptMeansLive(w, cfg, actions, Path(e.path));
    LivePathIsListed(w, keys, s.db, e.path);
  }

  /** So for a patient cleaner without races it is exactly the filter that matters. */
  lemma QuietPathsAddUp(w: World, cfg: Config, actions: seq<Action>, keys: seq<string>, at: Time)
    requires FairReading(w, cfg, actions, at, Paths) && Scanned(w, keys, Run(cfg, actions).db)
    ensures var s, lo := Run(cfg, actions), FirstHour(at);
      SumSet(ListedPaths(keys), Counts(s.db, Paths, at)) == NamedCount(s.log, Paths, lo, lo + WINDOW_HOURS)
      <==> forall e :: e in s.log && HourIn(e, lo, lo + WINDOW_HOURS) ==> Listable(e.path)
  {
    hide Run, Scanned, Quiet, ReadSubject, RunsIn, ListedPaths, Listable, Between, HourBucket;
    var s, lo := Run(cfg, actions), FirstHour(at);
    PathsAddUp(w, cfg, actions, keys, at);
    forall e | e in s.log ensures Intact(s, e.path, lo, lo + WINDOW_HOURS) {
      LogIsSafe(w, cfg, actions, e);
      NothingDropped(w, cfg, actions, Path(e.path), at);
    }
  }

  lemma LogIsSafe(w: World, cfg: Config, actions: seq<Action>, e: Event)
    requires RunsIn(w, actions) && e in Run(cfg, actions).log
    ensures EventIn(w, e) && e.now <= Run(cfg, actions).now
  {
    hide Run, StoreOk;
    RunKeeps(w, cfg, actions);
  }

  // ------------------------------------------------------------ which tokens are listed

  lemma IndexHolds(w: World, cfg: Config, actions: seq<Action>)
    requires RunsIn(w, actions)
    ensures var s := Run(cfg, actions); IndexOk(Fetch(s.db, Name(TokenIndex)), s.log, s.now)
  {
    hide Run, Name, IndexOk;
    RunKeeps(w, cfg, actions);
  }

  /** A token is listed when the last event written for it is inside the second window, and not
      listed when that event is before it; only a score exactly at the cutoff may go either way. */
  lemma TokenListing(w: World, cfg: Config, actions: seq<Action>, t: string, at: Time)
    requires RunsIn(w, actions) && t != "" && at <= Run(cfg, actions).now
    ensures var s := Run(cfg, actions);
      var last := LastSeen(s.log, ByToken, t);
      && (last.Some? && last.value > FirstSecond(s.now) ==> t in ListedTokens(s.db, at))
      && (t in ListedTokens(s.db, at) ==> last.Some? && last.value >= FirstSecond(at))
  {
    hide Run, Name;
    IndexHolds(w, cfg, actions);
    ClockMonotone(at, Run(cfg, actions).now);
  }

  lemma ListedTokensAreKnown(w: World, cfg: Config, actions: seq<Action>, t: string, at: Time)
    requires RunsIn(w, actions) && t in ListedTokens(Run(cfg, actions).db, at)
    ensures t != "" && Token(t) in w
    ensures var s := Run(cfg, actions);
      exists e :: e in s.log && e.token == t && LastSeen(s.log, ByToken, t) == Some(Unix(e.now))
  {
    hide Run, Name;
    var s := Run(cfg, actions);
    IndexHolds(w, cfg, actions);
    LastSeenIsOf(s.log, ByToken, t);
    var e :| e in s.log && Member(e, ByToken) == t && LastSeen(s.log, ByToken, t) == Some(Unix(e.now));
    LogIsSafe(w, cfg, actions, e);
  }

  // The listed tokens' counts add up to the window events of listed tokens, and to all of them exactly
  // when the listing is complete.
  lemma ListedTokensAddUp(w: World, cfg: Config, actions: seq<Action>, at: Time)
    requires FairReading(w, cfg, actions, at, Tokens)
    ensures var s, lo := Run(cfg, actions), FirstHour(at);
      var sum, all := SumSet(ListedTokens(s.db, at), Counts(s.db, Tokens, at)), NamedCount(s.log, Tokens, lo, lo + WINDOW_HOURS);
      sum <= all && (sum == all <==> Complete(s.log, Tokens, ListedTokens(s.db, at), lo, lo + WINDOW_HOURS))
  {
    hide Run, Name, Quiet, ReadSubject, RunsIn, ListedTokens, Complete;
    var s, lo, names := Run(cfg, actions), FirstHour(at), ListedTokens(Run(cfg, actions).db, at);
    forall t | t in names ensures SubjectOf(Tokens, t) in w && t != "" {
      ListedTokensAreKnown(w, cfg, actions, t, at);
    }
    CountsAddUp(w, cfg, actions, Tokens, names, at);
    CompleteCounts(s.log, Tokens, names, lo, lo + WINDOW_HOURS);
  }

  // The event written last for each token of the window happened in `since` or later.
  ghost predicate LastSeenSince(log: seq<Event>, lo: int, hi: int, since: int) {
    forall e :: e in log && Named(e, Tokens, lo, hi) ==>
      LastSeen(log, ByToken, e.token).Some? && LastSeen(log, ByToken, e.token).value >= since
  }

  /** Double entry, token side, for any cleaner and any race: what tokenStats reports adds up to every
      recorded window event with a token if the event written last for each of these tokens lies after
      the cutoff second, and only if it does not lie before it. */
  lemma TokensAddUp(w: World, cfg: Config, actions: seq<Action>, at: Time)
    requires FairReading(w, cfg, actions, at, Tokens) && at <= Run(cfg, actions).now
    ensures var s, lo := Run(cfg, actions), FirstHour(at);
      var sum, all := SumSet(ListedTokens(s.db, at), Counts(s.db, Tokens, at)), NamedCount(s.log, Tokens, lo, lo + WINDOW_HOURS);
      && (LastSeenSince(s.log, lo, lo + WINDOW_HOURS, FirstSecond(s.now) + 1) ==> sum == all)
      && (sum == all ==> LastSeenSince(s.log, lo, lo + WINDOW_HOURS, FirstSecond(at)))
  {
    hide Run, Quiet, ReadSubject, RunsIn, ListedTokens;
    var s, lo := Run(cfg, actions), FirstHour(at);
    ListedTokensAddUp(w, cfg, actions, at);
    forall e | e in s.log && Named(e, Tokens, lo, lo + WINDOW_HOURS)
      ensures var last := LastSeen(s.log, ByToken, e.token);
        && (last.Some? && last.value > FirstSecond(s.now) ==> e.token in ListedTokens(s.db, at))
        && (e.token in ListedTokens(s.db, at) ==> last.Some? && last.value >= FirstSecond(at))
    {
      TokenListing(w, cfg, actions, e.token, at);
    }
  }

  predicate Ordered(events: seq<Event>) {
    forall i, j :: 0 <= i < j < |events| ==> events[i].now <= events[j].now
  }

  lemma {:induction false} LastSeenLatest(events: seq<Event>, col: Column, e: Event)
    requires Ordered(events) && e in events
    ensures var last := LastSeen(events, col, Member(e, col)); last.Some? && last.value >= Unix(e.now)
  {
    var n := |events| - 1;
    var i :| 0 <= i <= n && events[i] == e;
    if Member(events[n], col) == Member(e, col) {
      ClockMonotone(e.now, events[n].now);
    } else {
      assert e == events[..n][i];
      LastSeenLatest(events[..n], col, e);
    }
  }

  /** With events written in timestamp order the token side balances too. */
  lemma OrderedTokensAddUp(w: World, cfg: Config, actions: seq<Action>, at: Time)
    requires FairReading(w, cfg, actions, at, Tokens) && Ordered(Run(cfg, actions).log) && at <= Run(cfg, actions).now
    ensures var s, lo := Run(cfg, actions), FirstHour(at);
      SumSet(ListedTokens(s.db, at), Counts(s.db, Tokens, at)) == NamedCount(s.log, Tokens, lo, lo + WINDOW_HOURS)
  {
    hide Run, Quiet, ReadSubject, RunsIn, ListedTokens, Ordered, Unix;
    var s, lo := Run(cfg, actions), FirstHour(at);
    TokensAddUp(w, cfg, actions, at);
    forall e | e in s.log && Named(e, Tokens, lo, lo + WINDOW_HOURS)
      ensures var last := LastSeen(s.log, ByToken, e.token); last.Some? && last.value > FirstSecond(s.now)
    {
      LastSeenLatest(s.log, ByToken, e);
      HourWindowInside(e.now, s.now);
    }
  }

  // ------------------------------------------------------------ reports read one after another

  ghost function CountAt(cfg: Config, actions: seq<Action>, kind: Kind, at: Time, moment: string -> nat): string -> int
    requires forall name :: moment(name) <= |actions|
  {
    name => ReadSubject(Run(cfg, actions[..moment(name)]).db, SubjectOf(kind, name), at).count48h
  }

  lemma {:induction false} SharesGrow(cfg: Config, actions: seq<Action>, k: nat, sub: Subject, lo: int, hi: int)
    requires k <= |actions|
    ensures Between(About(Run(cfg, actions[..k]).log, sub), lo, hi) <= Between(About(Run(cfg, actions).log, sub), lo, hi)
    decreases |actions|
  {
    hide Step, HourIn;
    if k == |actions| {
      assert actions[..k] == actions;
    } else {
      var before, last := actions[..|actions| - 1], actions[|actions| - 1];
      assert before[..k] == actions[..k] && actions == before + [last];
      SharesGrow(cfg, before, k, sub, lo, hi);
      LogStep(cfg, Run(cfg, before), last);
      var log, log' := Run(cfg, before).log, Run(cfg, actions).log;
      if log' != log {
        var e := log'[|log|];
        AboutAppend(log, e, sub);
        BetweenAppend(About(log, sub), e, lo, hi);
        assert About(log, sub) + [] == About(log, sub);
      }
    }
  }

  lemma LogStep(cfg: Config, s: State, a: Action)
    ensures var log := Step(cfg, s, a).log; log == s.log || (|log| == |s.log| + 1 && log == s.log + [log[|s.log|]])
  {
    hide Step;
    StepFrame(cfg, s, a);
  }

  lemma FairPrefix(w: World, cfg: Config, actions: seq<Action>, first: nat, k: nat, at: Time, kind: Kind)
    requires FairReading(w, cfg, actions, at, kind) && first <= k <= |actions|
    requires HourBucket(Run(cfg, actions[..first]).now) == HourBucket(at)
    ensures FairReading(w, cfg, actions[..k], at, kind)
  {
    hide Run, QuietAt, HourBucket;
    ClockAdvances(cfg, actions, k);
    assert actions[..k][..first] == actions[..first];
    ClockAdvances(cfg, actions[..k], first);
    ClockMonotone(Run(cfg, actions[..k]).now, Run(cfg, actions).now);
    ClockMonotone(Run(cfg, actions[..first]).now, Run(cfg, actions[..k]).now);
    assert forall j :: 0 <= j < k ==> actions[..k][..j] == actions[..j] && actions[..k][j] == actions[j];
  }

  /** The reports of one answer are read one after another, while events are being recorded. As long as
      the hour does not tick, the sum of their counts still lies between the window events recorded when
      the first was read and those recorded when the last was. */
  lemma SpreadReportsAddUp(w: World, cfg: Config, actions: seq<Action>, kind: Kind, names: set<string>,
      at: Time, first: nat, moment: string -> nat)
    requires FairReading(w, cfg, actions, at, kind) && first <= |actions|
    requires HourBucket(Run(cfg, actions[..first]).now) == HourBucket(at)
    requires forall name :: first <= moment(name) <= |actions|
    requires forall name :: name in names ==> SubjectOf(kind, name) in w && (kind.Tokens? ==> name != "")
    ensures var lo, hi := FirstHour(at), FirstHour(at) + WINDOW_HOURS;
      Labelled(Run(cfg, actions[..first]).log, kind, names, lo, hi)
        <= SumSet(names, CountAt(cfg, actions, kind, at, moment))
        <= Labelled(Run(cfg, actions).log, kind, names, lo, hi)
  {
    hide FairReading, Run, ReadSubject, About, Between;
    var lo, hi := FirstHour(at), FirstHour(at) + WINDOW_HOURS;
    var f, g := Share(Run(cfg, actions[..first]).log, kind, lo, hi), Share(Run(cfg, actions).log, kind, lo, hi);
    var counts := CountAt(cfg, actions, kind, at, moment);
    forall name | name in names ensures f(name) <= counts(name) <= g(name) {
      var k, sub := moment(name), SubjectOf(kind, name);
      FairPrefix(w, cfg, actions, first, k, at, kind);
      CountIsShare(w, cfg, actions[..k], sub, at);
      assert actions[..k][..first] == actions[..first];
      SharesGrow(cfg, actions[..k], first, sub, lo, hi);
      SharesGrow(cfg, actions, k, sub, lo, hi);
    }
    SumAtMost(names, f, counts);
    SumAtMost(names, counts, g);
    SharesAddUp(Run(cfg, actions[..first]).log, kind, names, lo, hi);
    SharesAddUp(Run(cfg, actions).log, kind, names, lo, hi);
  }
}
